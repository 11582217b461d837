// What the semantic search of a recall adds: told from the pages the search client
// answers and the stored records alone.
module RecallSearch {
  import opened Basics
  import opened MemorySpec
  import opened RecallSpec
  import opened RecallEffects

  function Flatten(pages: seq<seq<(string, real)>>): seq<(string, real)> {
    if pages == [] then [] else pages[0] + Flatten(pages[1..])
  }

  // Nothing before entry i names its record.
  ghost predicate NewAt(read: seq<(string, real)>, seen: set<string>, i: int) {
    0 <= i < |read| && read[i].0 !in seen && forall j :: 0 <= j < i ==> read[j].0 != read[i].0
  }

  // The record an entry names is the owner's and may be recalled.
  predicate Stands(s: Repo, request: Request, now: Time, entry: (string, real)) {
    Recallable(s.records, request, now, entry) && s.records[entry.0].owner == request.owner
  }

  // The first entry naming a record adds it, with that entry's score.
  ghost predicate AddsAt(s: Repo, request: Request, now: Time, read: seq<(string, real)>, seen: set<string>, i: int, a: Addition) {
    NewAt(read, seen, i) && Stands(s, request, now, read[i]) && a == Addition(s.records[read[i].0], MatchSemantic, read[i].1)
  }

  ghost predicate AddedBy(s: Repo, request: Request, now: Time, read: seq<(string, real)>, seen: set<string>, a: Addition) {
    exists i :: AddsAt(s, request, now, read, seen, i, a)
  }

  function LimitAt(k: RecallConfig, scanned: nat): nat {
    if scanned >= k.maxScanned then 0 else if k.pageSize > k.maxScanned - scanned then k.maxScanned - scanned else k.pageSize
  }

  // The pages read are what the client answers page after page, up to one without a
  // further page, a bound, a failure or enough candidates.
  ghost predicate Searched(k: RecallConfig, target: nat, answers: (nat, nat) -> Answer, start: nat, scanned: nat,
                           pages: seq<seq<(string, real)>>, adds: seq<Addition>)
    decreases |pages|
  {
    var answer := answers(start, LimitAt(k, scanned));
    if pages == [] then
      start >= k.maxBatches || scanned >= k.maxScanned || |AddAll(map[], adds)| >= target || answer.SearchFails? || answer.reloadFails
    else
      && start < k.maxBatches && scanned < k.maxScanned
      && answer.Page? && !answer.reloadFails && answer.candidates == pages[0]
      && if answer.next == "" then |pages| == 1
         else Searched(k, target, answers, start + 1, scanned + |pages[0]|, pages[1..], adds)
  }

  // ---- One page ----

  lemma NewMore(before: seq<(string, real)>, last: (string, real), seen: set<string>, i: int)
    ensures NewAt(before + [last], seen, i) ==
              if i == |before| then last.0 !in seen && last.0 !in Mentions(before) else NewAt(before, seen, i)
  {
    var all := before + [last];
    assert forall j :: 0 <= j < |before| ==> all[j] == before[j];
  }

  lemma {:induction false} UnseenAt(candidates: seq<(string, real)>, seen: set<string>, e: (string, real))
    ensures e in Unseen(candidates, seen) <==> exists i :: NewAt(candidates, seen, i) && candidates[i] == e
    decreases |candidates|
  {
    hide Mentions;
    if candidates != [] {
      var n := |candidates| - 1;
      var before, last := candidates[..n], candidates[n];
      assert candidates == before + [last];
      UnseenAt(before, seen, e);
      NewMore(before, last, seen, n);
      if i :| NewAt(before, seen, i) && before[i] == e {
        NewMore(before, last, seen, i);
        assert candidates[i] == e;
      }
      if i :| NewAt(candidates, seen, i) && candidates[i] == e {
        NewMore(before, last, seen, i);
      }
    }
  }

  lemma {:induction false} NamedIn(entries: seq<(string, real)>, id: string)
    ensures id in IDsIn(entries) <==> exists e :: e in entries && e.0 == id
    decreases |entries|
  {
    if entries != [] {
      var last := entries[|entries| - 1];
      NamedIn(entries[..|entries| - 1], id);
      assert entries == entries[..|entries| - 1] + [last];
      assert last in entries;
    }
  }

  lemma {:induction false} ByIDHas(values: seq<Record>, id: string)
    ensures id in ByID(values) <==> exists r :: r in values && r.id == id
    ensures id in ByID(values) ==> ByID(values)[id] in values && ByID(values)[id].id == id
    decreases |values|
  {
    if values != [] {
      var last := values[|values| - 1];
      ByIDHas(values[..|values| - 1], id);
      assert values == values[..|values| - 1] + [last];
      assert last in values;
    }
  }

  // Of the entries' records those of the owner are found, as they are stored.
  lemma FoundExactly(s: Repo, owner: Owner, entries: seq<(string, real)>, e: (string, real))
    requires (forall id :: id in s.records ==> s.records[id].id == id) && e in entries
    ensures var found := ByID(BatchGet(s, owner, IDsIn(entries)));
            && (e.0 in found <==> e.0 in s.records && s.records[e.0].owner == owner)
            && (e.0 in found ==> found[e.0] == s.records[e.0])
  {
    hide ByID, BatchGet, IDsIn;
    var values := BatchGet(s, owner, IDsIn(entries));
    NamedIn(entries, e.0);
    ByIDHas(values, e.0);
    if e.0 in ByID(values) {
      BatchHas(s, owner, IDsIn(entries), ByID(values)[e.0]);
    }
    if e.0 in s.records && s.records[e.0].owner == owner {
      BatchHas(s, owner, IDsIn(entries), s.records[e.0]);
    }
  }

  lemma PageAdds(s: Repo, request: Request, now: Time, candidates: seq<(string, real)>, seen: set<string>, scan: Scan, a: Addition)
    requires forall id :: id in s.records ==> s.records[id].id == id
    ensures var entries := Unseen(candidates, seen);
            a in AddFound(ByID(BatchGet(s, request.owner, IDsIn(entries))), request, now, entries, scan).adds <==>
              a in scan.adds || AddedBy(s, request, now, candidates, seen, a)
  {
    hide ByID, BatchGet, IDsIn, Unseen, AddFound;
    var entries := Unseen(candidates, seen);
    var found := ByID(BatchGet(s, request.owner, IDsIn(entries)));
    PageExactly(found, request, now, entries, scan, a);
    if e :| e in entries && Recallable(found, request, now, e) && a == Addition(found[e.0], MatchSemantic, e.1) {
      UnseenAt(candidates, seen, e);
      FoundExactly(s, request.owner, entries, e);
      var i :| NewAt(candidates, seen, i) && candidates[i] == e;
      assert AddsAt(s, request, now, candidates, seen, i, a);
    }
    if i :| AddsAt(s, request, now, candidates, seen, i, a) {
      UnseenAt(candidates, seen, candidates[i]);
      FoundExactly(s, request.owner, entries, candidates[i]);
      assert Recallable(found, request, now, candidates[i]);
    }
  }

  // ---- Page after page ----

  lemma NewBefore(page: seq<(string, real)>, rest: seq<(string, real)>, seen: set<string>, i: nat)
    requires i < |page|
    ensures NewAt(page + rest, seen, i) == NewAt(page, seen, i)
  {
    assert forall j :: 0 <= j < |page| ==> (page + rest)[j] == page[j];
  }

  lemma NewBehind(page: seq<(string, real)>, rest: seq<(string, real)>, seen: set<string>, i: nat)
    requires i < |rest|
    ensures NewAt(page + rest, seen, |page| + i) == NewAt(rest, seen + Mentions(page), i)
  {
    var all := page + rest;
    assert all[|page| + i] == rest[i];
    assert forall j :: 0 <= j < |page| ==> all[j] == page[j];
    assert forall j :: 0 <= j < i ==> all[|page| + j] == rest[j];
    if NewAt(rest, seen + Mentions(page), i) {
      forall j | 0 <= j < |page| + i
        ensures all[j].0 != all[|page| + i].0
      {
        if j >= |page| {
          assert all[j] == rest[j - |page|];
        }
      }
    }
  }

  lemma AddedBehind(s: Repo, request: Request, now: Time, page: seq<(string, real)>, rest: seq<(string, real)>, seen: set<string>, a: Addition)
    ensures AddedBy(s, request, now, page + rest, seen, a) <==>
              AddedBy(s, request, now, page, seen, a) || AddedBy(s, request, now, rest, seen + Mentions(page), a)
  {
    hide NewAt, Stands, Mentions;
    var all, later := page + rest, seen + Mentions(page);
    forall i | 0 <= i < |page|
      ensures AddsAt(s, request, now, all, seen, i, a) == AddsAt(s, request, now, page, seen, i, a)
    {
      NewBefore(page, rest, seen, i);
      assert all[i] == page[i];
    }
    forall i | 0 <= i < |rest|
      ensures AddsAt(s, request, now, all, seen, |page| + i, a) == AddsAt(s, request, now, rest, later, i, a)
    {
      NewBehind(page, rest, seen, i);
      assert all[|page| + i] == rest[i];
    }
    InRead(s, request, now, all, seen, a);
    InRead(s, request, now, page, seen, a);
    InRead(s, request, now, rest, later, a);
    if i :| AddsAt(s, request, now, all, seen, i, a) {
      assert i < |page| || AddsAt(s, request, now, rest, later, i - |page|, a) by {
        if i >= |page| {
          assert i == |page| + (i - |page|);
        }
      }
    }
  }

  lemma InRead(s: Repo, request: Request, now: Time, read: seq<(string, real)>, seen: set<string>, a: Addition)
    ensures forall i :: AddsAt(s, request, now, read, seen, i, a) ==> 0 <= i < |read|
  {
  }

  lemma {:induction false} ScanAdds(k: RecallConfig, s: Repo, request: Request, now: Time, target: nat, answers: (nat, nat) -> Answer,
                                    late: nat -> bool, start: nat, seen: set<string>, cursor: string, scan: Scan)
    returns (pages: seq<seq<(string, real)>>)
    requires forall id :: id in s.records ==> s.records[id].id == id
    ensures var end := ScanPages(k, s, request, now, target, answers, late, start, seen, cursor, scan);
            && Searched(k, target, answers, start, scan.scanned, pages, end.adds)
            && forall a :: a in end.adds <==> a in scan.adds || AddedBy(s, request, now, Flatten(pages), seen, a)
    decreases k.maxBatches - start
  {
    hide AddAll, AddFound, Unseen, ByID, BatchGet, IDsIn, AddedBy, Mentions;
    pages := [];
    NothingAdded(s, request, now, seen);
    if !Enough(k, target, start, scan) {
      var answer := answers(start, PageLimit(k, scan.scanned));
      if answer.Page? && !answer.reloadFails {
        var page := answer.candidates;
        var entries := Unseen(page, seen);
        var counted := scan.(scanned := scan.scanned + |page|);
        var after := AddFound(ByID(BatchGet(s, request.owner, IDsIn(entries))), request, now, entries, counted);
        forall a
          ensures a in after.adds <==> a in scan.adds || AddedBy(s, request, now, page, seen, a)
        {
          PageAdds(s, request, now, page, seen, counted, a);
        }
        PageCounted(ByID(BatchGet(s, request.owner, IDsIn(entries))), request, now, entries, counted);
        pages := [page];
        assert Flatten(pages) == page;
        if answer.next != "" {
          var rest := ScanAdds(k, s, request, now, target, answers, late, start + 1, seen + Mentions(page), answer.next, after);
          pages := [page] + rest;
          assert pages[1..] == rest;
          forall a
            ensures AddedBy(s, request, now, Flatten(pages), seen, a) <==>
                      AddedBy(s, request, now, page, seen, a) || AddedBy(s, request, now, Flatten(rest), seen + Mentions(page), a)
          {
            AddedBehind(s, request, now, page, Flatten(rest), seen, a);
          }
        }
      }
    }
  }

  lemma NothingAdded(s: Repo, request: Request, now: Time, seen: set<string>)
    ensures forall a :: !AddedBy(s, request, now, [], seen, a)
  {
  }

  // ---- All that is gathered ----

  // Beside what references and queries add, a recall in semantic mode adds exactly the
  // owner's records the pages read name that may be recalled, each once and with the
  // score of its first entry; in exact mode it reads no page.
  lemma GatheredExactly(k: RecallConfig, s: Repo, request: Request, plan: Option<Plan>, now: Time, target: nat,
                        answers: (nat, nat) -> Answer, late: nat -> bool)
    returns (pages: seq<seq<(string, real)>>)
    requires forall id :: id in s.records ==> s.records[id].id == id
    ensures var exact := QueryAdditions(k, s, request, plan, now, Pinned(s, request, now));
            var all := Gathering(k, s, request, plan, now, target, answers, late);
            && (forall a :: a in all <==> a in exact || AddedBy(s, request, now, Flatten(pages), {}, a))
            && if k.semantic then Searched(k, target, answers, 0, 0, pages, all) else pages == [] && all == exact
  {
    hide QueryAdditions, Pinned, ScanPages, Searched, AddedBy;
    pages := [];
    NothingAdded(s, request, now, {});
    if k.semantic {
      var exact := QueryAdditions(k, s, request, plan, now, Pinned(s, request, now));
      pages := ScanAdds(k, s, request, now, target, answers, late, 0, {}, "", Scan(exact, 0, 0, 0, ""));
    }
  }
}
