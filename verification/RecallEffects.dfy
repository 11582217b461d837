// What a caller of recall gets: the worthiest records first, each as the best source
// found it, and nothing left out without a reason.
module RecallEffects {
  import opened Basics
  import opened Ordering
  import opened MemorySpec
  import opened RecallSpec
  import opened RecallTheorems
  import opened MemoryEffects

  // ---- Worth ----

  // Pinned before entity before slot before hash before semantic.
  predicate MoreExact(a: MatchSource, b: MatchSource) {
    match a
    case MatchPinned => !b.MatchPinned?
    case MatchEntity => b.MatchSlot? || b.MatchHash? || b.MatchSemantic?
    case MatchSlot => b.MatchHash? || b.MatchSemantic?
    case MatchHash => b.MatchSemantic?
    case MatchSemantic => false
  }

  // Confirmed by the user before stated by the user before the system before a model.
  predicate MoreTrusted(a: Authority, b: Authority) {
    match a
    case UserConfirmed => !b.UserConfirmed?
    case UserStated => b.TrustedSystem? || b.ModelInferred? || b.AuthorityUnknown?
    case TrustedSystem => b.ModelInferred? || b.AuthorityUnknown?
    case ModelInferred => b.AuthorityUnknown?
    case AuthorityUnknown => false
  }

  predicate Worthier(a: Item, b: Item) {
    || MoreExact(a.source, b.source)
    || (a.source == b.source
        && (|| MoreTrusted(a.memory.authority, b.memory.authority)
            || (a.memory.authority == b.memory.authority
                && (|| a.memory.salience > b.memory.salience
                    || (a.memory.salience == b.memory.salience
                        && (|| a.memory.createdAt > b.memory.createdAt
                            || (a.memory.createdAt == b.memory.createdAt && Less(a.memory.id, b.memory.id))))))))
  }

  lemma BeforeIsWorthier(a: Item, b: Item)
    ensures Before(a, b) <==> Worthier(a, b)
  {
    hide Less;
  }

  // ---- What is returned ----

  ghost predicate InRank(items: seq<Item>) {
    forall i, j :: 0 <= i < j < |items| ==> Before(items[i], items[j])
  }

  // Items keep the ranked order, worthiest first.
  lemma {:induction false} FittingKeepsOrder(items: seq<Item>, budget: nat)
    requires InRank(items)
    ensures InRank(Fitting(items, budget)) && forall item :: item in Fitting(items, budget) ==> item in items
    decreases |items|
  {
    hide Before, PromptOf;
    if items != [] {
      FittingKeepsOrder(items[..|items| - 1], budget);
      var before := Fitting(items[..|items| - 1], budget);
      forall i | 0 <= i < |before|
        ensures Before(before[i], items[|items| - 1])
      {
        assert before[i] in items[..|items| - 1];
      }
    }
  }

  lemma RankedTop(c: Candidates, ranked: seq<Item>, target: nat)
    requires Ranked(c, ranked)
    ensures InRank(Top(ranked, target))
  {
    hide Before;
  }

  // Of the ranked candidates the ones returned are those that both stand among the first
  // `target` and fit into the budget behind the ones returned before them, worthiest
  // first.
  lemma ReturnedExactly(c: Candidates, ranked: seq<Item>, target: nat, budget: nat, i: nat)
    requires OwnIDs(c) && Ranked(c, ranked) && i < |ranked|
    ensures var items := Fitting(Top(ranked, target), budget);
            && (forall a, b :: 0 <= a < b < |items| ==> Worthier(items[a], items[b]))
            && (ranked[i] in items <==>
                  i < target && Used(Fitting(ranked[..i], budget)) + |PromptOf(ranked[i].memory)| <= budget)
  {
    hide Before, Worthier, InRank, PromptOf, Used, Decimal;
    var top := Top(ranked, target);
    RankedTop(c, ranked, target);
    FittingKeepsOrder(top, budget);
    var items := Fitting(top, budget);
    InOrder(items);
    if i < target {
      assert top[..i] == ranked[..i] && top[i] == ranked[i];
      FitsExactly(c, ranked, top, budget, i);
    } else if ranked[i] in items {
      var k :| 0 <= k < |top| && top[k] == ranked[i];
      RankedDistinct(c, ranked, k, i);
    }
  }

  lemma InOrder(items: seq<Item>)
    requires InRank(items)
    ensures forall a, b :: 0 <= a < b < |items| ==> Worthier(items[a], items[b])
  {
    hide Before, Worthier;
    forall a, b | 0 <= a < b < |items|
      ensures Worthier(items[a], items[b])
    {
      assert Before(items[a], items[b]);
      BeforeIsWorthier(items[a], items[b]);
    }
  }

  lemma FitsExactly(c: Candidates, ranked: seq<Item>, top: seq<Item>, budget: nat, i: nat)
    requires OwnIDs(c) && Ranked(c, ranked) && top <= ranked && i < |top|
    ensures top[i] in Fitting(top, budget) <==> Used(Fitting(top[..i], budget)) + |PromptOf(top[i].memory)| <= budget
  {
    hide Before, PromptOf, Used, Ranked;
    if Used(Fitting(top[..i], budget)) + |PromptOf(top[i].memory)| <= budget {
      TakenStays(top, budget, i);
    } else {
      forall k | 0 <= k < |top| && k != i
        ensures top[k] != top[i]
      {
        if k < i { RankedDistinct(c, ranked, k, i); } else { RankedDistinct(c, ranked, i, k); }
      }
      LeftStays(top, budget, i);
    }
  }

  lemma {:induction false} TakenStays(items: seq<Item>, budget: nat, i: nat)
    requires i < |items| && Used(Fitting(items[..i], budget)) + |PromptOf(items[i].memory)| <= budget
    ensures items[i] in Fitting(items, budget)
    decreases |items|
  {
    hide PromptOf, Used;
    if i < |items| - 1 {
      assert items[..|items| - 1][..i] == items[..i];
      TakenStays(items[..|items| - 1], budget, i);
    }
  }

  lemma {:induction false} LeftStays(items: seq<Item>, budget: nat, i: nat)
    requires i < |items| && Used(Fitting(items[..i], budget)) + |PromptOf(items[i].memory)| > budget
    requires forall k :: 0 <= k < |items| && k != i ==> items[k] != items[i]
    ensures items[i] !in Fitting(items, budget)
    decreases |items|
  {
    hide PromptOf, Used;
    var last := |items| - 1;
    if i < last {
      assert items[..last][..i] == items[..i];
      LeftStays(items[..last], budget, i);
    } else {
      FittingAll(items[..last], budget);
    }
  }

  // ---- What is gathered ----

  // A candidate has the value some addition saw, the most exact source and the highest
  // score among the additions naming it, and is exact unless all found it by search.
  lemma MergedExactly(adds: seq<Addition>, id: string)
    ensures var c := AddAll(map[], adds);
            && (id in c <==> exists a :: a in adds && a.value.id == id)
            && (id in c ==>
                  var item := c[id];
                  && (exists a :: a in adds && a.value.id == id && a.value == item.memory)
                  && (exists a :: a in adds && a.value.id == id && a.source == item.source)
                  && (exists a :: a in adds && a.value.id == id && a.score == item.score)
                  && (forall a :: a in adds && a.value.id == id ==> !MoreExact(a.source, item.source) && a.score <= item.score)
                  && (item.exact <==> exists a :: a in adds && a.value.id == id && !a.source.MatchSemantic?))
  {
    hide AddAll;
    MergeIsBest(adds, id);
  }

  // The last reference to a record is the one that counts.
  ghost predicate LastRef(pinned: seq<MemoryRef>, i: int) {
    0 <= i < |pinned| && forall j :: i < j < |pinned| ==> pinned[j].id != pinned[i].id
  }

  lemma {:induction false} RefsAreLast(pinned: seq<MemoryRef>, id: string)
    ensures id in RefsByID(pinned) <==> id in IDsOf(pinned)
    ensures forall i :: LastRef(pinned, i) && pinned[i].id == id ==> id in RefsByID(pinned) && RefsByID(pinned)[id] == pinned[i]
    ensures id in RefsByID(pinned) ==> exists i :: LastRef(pinned, i) && pinned[i].id == id
    decreases |pinned|
  {
    hide LastRef;
    if pinned == [] {
      NoLastRef();
    } else {
      var last := |pinned| - 1;
      var before := pinned[..last];
      RefsAreLast(before, id);
      LastRefs(pinned);
      InBounds(before);
      if id in RefsByID(pinned) && pinned[last].id != id {
        var i :| 0 <= i < last && LastRef(before, i) && before[i].id == id;
        assert LastRef(pinned, i);
      }
    }
  }

  lemma NoLastRef()
    ensures forall i :: !LastRef([], i)
  {
  }

  lemma InBounds(pinned: seq<MemoryRef>)
    ensures forall i :: LastRef(pinned, i) ==> 0 <= i < |pinned|
  {
  }

  // A further reference is a last one, and makes those before it to its record none.
  lemma LastRefs(pinned: seq<MemoryRef>)
    requires pinned != []
    ensures forall i :: LastRef(pinned, i) ==> 0 <= i < |pinned|
    ensures LastRef(pinned, |pinned| - 1)
    ensures forall i :: 0 <= i < |pinned| - 1 ==>
              (LastRef(pinned, i) <==> LastRef(pinned[..|pinned| - 1], i) && pinned[i].id != pinned[|pinned| - 1].id)
  {
  }

  lemma {:induction false} BatchHas(s: Repo, owner: Owner, ids: seq<string>, r: Record)
    requires forall id :: id in s.records ==> s.records[id].id == id
    ensures r in BatchGet(s, owner, ids) <==> r.id in ids && r.id in s.records && s.records[r.id] == r && r.owner == owner
    decreases |ids|
  {
    if ids != [] {
      BatchHas(s, owner, ids[..|ids| - 1], r);
      assert ids == ids[..|ids| - 1] + [ids[|ids| - 1]];
    }
  }

  lemma {:induction false} PinnedHas(values: seq<Record>, refs: map<string, MemoryRef>, request: Request, now: Time, a: Addition)
    ensures a in PinnedAdditions(values, refs, request, now) <==>
              a.value in values && a.source.MatchPinned? && a.score == 1.0 && PinnedStands(refs, request, now, a.value)
    decreases |values|
  {
    if values != [] {
      PinnedHas(values[..|values| - 1], refs, request, now, a);
      assert values == values[..|values| - 1] + [values[|values| - 1]];
    }
  }

  // The pinned references add exactly the owner's records that the last reference to
  // each still describes, that are active, and that the requested scope may see.
  lemma PinnedExactly(s: Repo, request: Request, now: Time, r: Record)
    requires forall id :: id in s.records ==> s.records[id].id == id
    ensures Addition(r, MatchPinned, 1.0) in Pinned(s, request, now) <==>
              && r.id in s.records && s.records[r.id] == r && r.owner == request.owner
              && (exists i :: LastRef(request.pinned, i) && request.pinned[i] == MemoryRef(r.id, r.lineageVersion, r.contentHash))
              && r.status.Active? && (r.expiresAt.None? || now < r.expiresAt.value)
              && (if r.layer.LayerLongTerm? then r.scope.kind.ScopeUser? else r.scope == request.scope)
  {
    hide LastRef, RefsByID, IDsOf, BatchGet, PinnedAdditions;
    RefsAreLast(request.pinned, r.id);
    BatchHas(s, request.owner, IDsOf(request.pinned), r);
    PinnedHas(BatchGet(s, request.owner, IDsOf(request.pinned)), RefsByID(request.pinned), request, now, Addition(r, MatchPinned, 1.0));
  }

  // ---- Queries ----

  lemma {:induction false} RecordsHave(s: Repo, ids: seq<string>, r: Record)
    requires forall id :: id in s.records ==> s.records[id].id == id
    ensures r in RecordsOf(s, ids) <==> r.id in ids && r.id in s.records && s.records[r.id] == r
    ensures (forall i :: 0 <= i < |ids| ==> ids[i] in s.records) ==> |RecordsOf(s, ids)| == |ids|
    decreases |ids|
  {
    if ids != [] {
      RecordsHave(s, ids[..|ids| - 1], r);
      assert ids == ids[..|ids| - 1] + [ids[|ids| - 1]];
    }
  }

  lemma {:induction false} AdditionsHave(values: seq<Record>, source: Record -> MatchSource, a: Addition)
    ensures a in ExactAdditions(values, source) <==> a.value in values && a.source == source(a.value) && a.score == 1.0
    decreases |values|
  {
    if values != [] {
      AdditionsHave(values[..|values| - 1], source, a);
      assert values == values[..|values| - 1] + [values[|values| - 1]];
    }
  }

  // A query adds exactly the stored records it wants; only when its answer is full does
  // it leave some out, and none of them is newer than one it adds.
  lemma QueryExactly(s: Repo, q: Query, r: Record)
    requires (forall id :: id in s.records ==> s.records[id].id == id) && HasSelector(q)
    ensures var stored := r.id in s.records && s.records[r.id] == r;
            var answer := ExactAnswer(s, q);
            && (r in answer ==> stored && Wanted(q, r))
            && (stored && Wanted(q, r) && r !in answer ==> |answer| == q.limit && forall x :: x in answer ==> x.createdAt >= r.createdAt)
  {
    hide HasSelector, IsExactAnswer, Wanted;
    var some := AnswerExists(s, q);
    assert IsExactAnswer(s, q, some);
    var ids :| IsExactAnswer(s, q, ids) && ExactAnswer(s, q) == RecordsOf(s, ids);
    RecordsHave(s, ids, r);
    AnswerStored(s, q, ids);
    if r.id in s.records {
      AnsweredExactly(s, q, ids, r.id);
    }
    forall x | x in ExactAnswer(s, q)
      ensures x.id in ids && x.id in s.records && s.records[x.id] == x
    {
      RecordsHave(s, ids, x);
    }
  }

  lemma AnswerExists(s: Repo, q: Query) returns (ids: seq<string>)
    ensures IsExactAnswer(s, q, ids)
  {
    ids := BatchExists(SelectedIDs(s, q), Newest(s), q.limit);
  }

  lemma AnswerStored(s: Repo, q: Query, ids: seq<string>)
    requires IsExactAnswer(s, q, ids)
    ensures forall i :: 0 <= i < |ids| ==> ids[i] in s.records
  {
    assert forall i :: 0 <= i < |ids| ==> ids[i] in SelectedIDs(s, q);
  }

  // Without a plan, what the request itself names is added: as found by the entity when
  // that is the record's, else by the slot when that is, else by the hash.
  lemma DirectExactly(k: RecallConfig, s: Repo, request: Request, now: Time, pinned: seq<Addition>, a: Addition)
    ensures a in QueryAdditions(k, s, request, None, now, pinned) <==>
              || a in pinned
              || (&& a.value in ExactAnswer(s, DirectQuery(k, request, now)) && a.score == 1.0
                  && a.source == (if (request.entity.kind != "" || request.entity.id != "") && a.value.entity == request.entity then MatchEntity
                                  else if request.namespace != "" && request.slotKey != "" && a.value.namespace == request.namespace
                                          && a.value.slotKey == request.slotKey then MatchSlot
                                  else MatchHash))
  {
    hide ExactAnswer, ExactAdditions, DirectQuery;
    AdditionsHave(ExactAnswer(s, DirectQuery(k, request, now)), value => DirectSource(value, request), a);
  }

  // What the request itself, and what each selector of a plan, wants.
  lemma WantedExactly(k: RecallConfig, request: Request, plan: Plan, selector: Selector, now: Time, r: Record)
    ensures var mine := r.owner == request.owner && r.status.Active? && (r.expiresAt.None? || now < r.expiresAt.value);
            && (Wanted(DirectQuery(k, request, now), r) <==>
                  && mine && r.scope == request.scope
                  && (request.layers == [] || r.layer in request.layers) && (request.kinds == [] || r.kind in request.kinds)
                  && (|| (request.namespace != "" && request.slotKey != "" && r.namespace == request.namespace && r.slotKey == request.slotKey)
                      || ((request.entity.kind != "" || request.entity.id != "") && r.entity == request.entity)))
            && (Wanted(SelectorQuery(k, request, plan, selector, now), r) <==>
                  && mine && r.scope == selector.scope
                  && (plan.layers == [] || r.layer in plan.layers) && (plan.kinds == [] || r.kind in plan.kinds)
                  && match selector.kind
                     case SelectorEntity => r.entity == selector.entity
                     case SelectorSlot => r.namespace == selector.namespace && r.slotKey == selector.slotKey
                     case SelectorContentHash => r.contentHash == selector.contentHash
                     case SelectorLocalScope => true)
            && HasSelector(SelectorQuery(k, request, plan, selector, now))
            && SelectorSource(selector) == if selector.kind.SelectorEntity? then MatchEntity else if selector.kind.SelectorSlot? then MatchSlot else MatchHash
  {
  }

  // A plan asks selector after selector, each adding what it wants as found by it, until
  // there are enough candidates: `asked` of them, all of them or the least that suffice.
  lemma {:induction false} PlanExactly(k: RecallConfig, s: Repo, request: Request, plan: Plan, now: Time, i: nat, adds: seq<Addition>)
    returns (asked: nat)
    requires i <= |plan.selectors|
    ensures i <= asked <= |plan.selectors|
    ensures PlanAdditions(k, s, request, plan, now, i, adds) == adds + Asked(k, s, request, plan, now, i, asked)
    ensures asked < |plan.selectors| ==> asked > i && |AddAll(map[], adds + Asked(k, s, request, plan, now, i, asked))| >= k.maxExactCandidates
    ensures forall j :: i < j < asked ==> |AddAll(map[], adds + Asked(k, s, request, plan, now, i, j))| < k.maxExactCandidates
    decreases |plan.selectors| - i
  {
    hide ExactAnswer, ExactAdditions, SelectorQuery, AddAll;
    if i == |plan.selectors| {
      asked := i;
      assert adds + [] == adds;
    } else {
      var more := adds + Found(k, s, request, plan, now, i);
      AskedOne(k, s, request, plan, now, i);
      if |AddAll(map[], more)| >= k.maxExactCandidates {
        asked := i + 1;
      } else {
        asked := PlanExactly(k, s, request, plan, now, i + 1, more);
        forall j | i + 1 <= j <= asked
          ensures adds + Asked(k, s, request, plan, now, i, j) == more + Asked(k, s, request, plan, now, i + 1, j)
        {
          AskedFrom(k, s, request, plan, now, i, j);
        }
      }
    }
  }

  // What one selector finds.
  ghost function Found(k: RecallConfig, s: Repo, request: Request, plan: Plan, now: Time, i: nat): seq<Addition>
    requires i < |plan.selectors|
  {
    ExactAdditions(ExactAnswer(s, SelectorQuery(k, request, plan, plan.selectors[i], now)), _ => SelectorSource(plan.selectors[i]))
  }

  // What the selectors from one to before another find.
  ghost function Asked(k: RecallConfig, s: Repo, request: Request, plan: Plan, now: Time, i: nat, j: nat): seq<Addition>
    requires i <= j <= |plan.selectors|
  {
    if i == j then [] else Asked(k, s, request, plan, now, i, j - 1) + Found(k, s, request, plan, now, j - 1)
  }

  lemma AskedOne(k: RecallConfig, s: Repo, request: Request, plan: Plan, now: Time, i: nat)
    requires i < |plan.selectors|
    ensures Asked(k, s, request, plan, now, i, i + 1) == Found(k, s, request, plan, now, i)
  {
    hide Found;
    assert Asked(k, s, request, plan, now, i, i) == [];
  }

  lemma {:induction false} AskedFrom(k: RecallConfig, s: Repo, request: Request, plan: Plan, now: Time, i: nat, j: nat)
    requires i < j <= |plan.selectors|
    ensures Asked(k, s, request, plan, now, i, j) == Found(k, s, request, plan, now, i) + Asked(k, s, request, plan, now, i + 1, j)
    decreases j
  {
    hide Found;
    if j == i + 1 {
      AskedOne(k, s, request, plan, now, i);
      assert Asked(k, s, request, plan, now, j, j) == [];
    } else {
      AskedFrom(k, s, request, plan, now, i, j - 1);
    }
  }

  // ---- One page of the search ----

  // The new entries of a page are those not met before, each once.
  lemma {:induction false} UnseenExactly(candidates: seq<(string, real)>, seen: set<string>, id: string)
    ensures Mentioned(Unseen(candidates, seen), id) <==> Mentioned(candidates, id) && id !in seen
    ensures forall i, j :: 0 <= i < j < |Unseen(candidates, seen)| ==> Unseen(candidates, seen)[i].0 != Unseen(candidates, seen)[j].0
    decreases |candidates|
  {
    hide Mentioned;
    if candidates == [] {
      NobodyMentioned(id);
    } else {
      var last := candidates[|candidates| - 1];
      var before := candidates[..|candidates| - 1];
      UnseenExactly(before, seen, id);
      UnseenExactly(before, seen, last.0);
      MentionedIn(before, last.0);
      MentionedMore(before, last, id);
      MentionedMore(Unseen(before, seen), last, id);
      NotYet(Unseen(before, seen), last.0);
      assert candidates == before + [last];
    }
  }

  lemma NobodyMentioned(id: string)
    ensures !Mentioned([], id)
  {
  }

  lemma MentionedIn(page: seq<(string, real)>, id: string)
    ensures Mentioned(page, id) <==> id in Mentions(page)
  {
  }

  lemma NotYet(page: seq<(string, real)>, id: string)
    ensures !Mentioned(page, id) ==> forall i :: 0 <= i < |page| ==> page[i].0 != id
  {
  }

  lemma MentionedMore(page: seq<(string, real)>, e: (string, real), id: string)
    ensures Mentioned(page + [e], id) <==> Mentioned(page, id) || e.0 == id
  {
    if Mentioned(page, id) {
      var i :| 0 <= i < |page| && page[i].0 == id;
      assert (page + [e])[i].0 == id;
    }
    if e.0 == id {
      assert (page + [e])[|page|].0 == id;
    }
  }

  ghost predicate Mentioned(page: seq<(string, real)>, id: string) {
    exists i :: 0 <= i < |page| && page[i].0 == id
  }

  // The entry is of a record that may be recalled.
  predicate Recallable(found: map<string, Record>, request: Request, now: Time, entry: (string, real)) {
    && entry.0 in found
    && var r := found[entry.0];
       && r.status.Active? && (r.expiresAt.None? || now < r.expiresAt.value)
       && (if r.layer.LayerLongTerm? then r.scope.kind.ScopeUser? else r.scope == request.scope)
  }

  // Every entry of a page is counted once: added when its record may be recalled, and
  // otherwise unknown when the store does not have it, else obsolete.
  lemma {:induction false} PageCounted(found: map<string, Record>, request: Request, now: Time, page: seq<(string, real)>, scan: Scan)
    ensures var after := AddFound(found, request, now, page, scan);
            && |after.adds| + after.unknown + after.obsolete == |scan.adds| + scan.unknown + scan.obsolete + |page|
            && after.unknown == scan.unknown + Missing(found, page)
            && after.scanned == scan.scanned && after.reason == scan.reason
    decreases |page|
  {
    if page != [] {
      PageCounted(found, request, now, page[..|page| - 1], scan);
    }
  }

  lemma {:induction false} PageExactly(found: map<string, Record>, request: Request, now: Time, page: seq<(string, real)>, scan: Scan, a: Addition)
    ensures a in AddFound(found, request, now, page, scan).adds <==>
              a in scan.adds || exists e :: e in page && Recallable(found, request, now, e) && a == Addition(found[e.0], MatchSemantic, e.1)
    decreases |page|
  {
    if page != [] {
      var last := page[|page| - 1];
      PageExactly(found, request, now, page[..|page| - 1], scan, a);
      assert page == page[..|page| - 1] + [last];
      assert forall e :: e in page <==> e in page[..|page| - 1] || e == last;
    }
  }

  function Missing(found: map<string, Record>, page: seq<(string, real)>): nat {
    if page == [] then 0 else Missing(found, page[..|page| - 1]) + if page[|page| - 1].0 in found then 0 else 1
  }

  // Ids of a page, and of what was added behind a number of additions.
  ghost predicate OnceBehind(adds: seq<Addition>, n: nat, seen: set<string>) {
    && n <= |adds|
    && (forall i :: n <= i < |adds| ==> adds[i].value.id !in seen)
    && (forall i, j :: n <= i < j < |adds| ==> adds[i].value.id != adds[j].value.id)
  }

  lemma {:induction false} AddedFrom(found: map<string, Record>, request: Request, now: Time, page: seq<(string, real)>, scan: Scan, n: nat, seen: set<string>)
    requires (forall id :: id in found ==> found[id].id == id) && |scan.adds| == n
    requires (forall i, j :: 0 <= i < j < |page| ==> page[i].0 != page[j].0) && forall i :: 0 <= i < |page| ==> page[i].0 !in seen
    ensures var after := AddFound(found, request, now, page, scan);
            && scan.adds <= after.adds && OnceBehind(after.adds, n, seen)
            && forall i :: n <= i < |after.adds| ==> Mentioned(page, after.adds[i].value.id)
    decreases |page|
  {
    if page != [] {
      var last := |page| - 1;
      AddedFrom(found, request, now, page[..last], scan, n, seen);
      var before := AddFound(found, request, now, page[..last], scan);
      forall i | n <= i < |before.adds|
        ensures Mentioned(page, before.adds[i].value.id) && before.adds[i].value.id != page[last].0
      {
        var k :| 0 <= k < last && page[..last][k].0 == before.adds[i].value.id;
        assert page[k].0 == before.adds[i].value.id;
      }
    }
  }

  lemma {:induction false} ByOwnID(values: seq<Record>)
    ensures forall id :: id in ByID(values) ==> ByID(values)[id].id == id
    decreases |values|
  {
    if values != [] {
      ByOwnID(values[..|values| - 1]);
    }
  }

  // However often the search names a record, on one page or on several, it is looked at
  // and added once.
  lemma {:induction false} AddedOnce(k: RecallConfig, s: Repo, request: Request, now: Time, target: nat, answers: (nat, nat) -> Answer,
                                     late: nat -> bool, batch: nat, seen: set<string>, cursor: string, scan: Scan, n: nat, first: set<string>)
    requires OnceBehind(scan.adds, n, first) && first <= seen && forall i :: n <= i < |scan.adds| ==> scan.adds[i].value.id in seen
    ensures OnceBehind(ScanPages(k, s, request, now, target, answers, late, batch, seen, cursor, scan).adds, n, first)
    decreases k.maxBatches - batch
  {
    hide AddAll, AddFound, Unseen, ByID, BatchGet, OnceBehind;
    if !Enough(k, target, batch, scan) {
      var answer := answers(batch, PageLimit(k, scan.scanned));
      if answer.Page? && !answer.reloadFails {
        var entries := Unseen(answer.candidates, seen);
        var found := ByID(BatchGet(s, request.owner, IDsIn(entries)));
        var counted := scan.(scanned := scan.scanned + |answer.candidates|);
        var after := AddFound(found, request, now, entries, counted);
        PageAddedOnce(found, request, now, answer.candidates, seen, counted, n, first, BatchGet(s, request.owner, IDsIn(entries)));
        if answer.next != "" {
          AddedOnce(k, s, request, now, target, answers, late, batch + 1, seen + Mentions(answer.candidates), answer.next, after, n, first);
        }
      }
    }
  }

  lemma PageAddedOnce(found: map<string, Record>, request: Request, now: Time, candidates: seq<(string, real)>, seen: set<string>, scan: Scan,
                      n: nat, first: set<string>, values: seq<Record>)
    requires OnceBehind(scan.adds, n, first) && first <= seen && forall i :: n <= i < |scan.adds| ==> scan.adds[i].value.id in seen
    requires found == ByID(values)
    ensures var after := AddFound(found, request, now, Unseen(candidates, seen), scan);
            && OnceBehind(after.adds, n, first)
            && forall i :: n <= i < |after.adds| ==> after.adds[i].value.id in seen + Mentions(candidates)
  {
    hide AddFound, Unseen, ByID, Mentioned;
    var entries := Unseen(candidates, seen);
    ByOwnID(values);
    UnseenExactly(candidates, seen, "");
    forall i | 0 <= i < |entries|
      ensures entries[i].0 !in seen
    {
      MentionedAt(entries, i);
      UnseenExactly(candidates, seen, entries[i].0);
    }
    AddedFrom(found, request, now, entries, scan, |scan.adds|, seen);
    var after := AddFound(found, request, now, entries, scan);
    forall i | |scan.adds| <= i < |after.adds|
      ensures after.adds[i].value.id in Mentions(candidates)
    {
      UnseenExactly(candidates, seen, after.adds[i].value.id);
      MentionedIn(candidates, after.adds[i].value.id);
    }
    assert forall i :: 0 <= i < |scan.adds| ==> after.adds[i] == scan.adds[i];
  }

  lemma MentionedAt(page: seq<(string, real)>, i: nat)
    requires i < |page|
    ensures Mentioned(page, page[i].0)
  {
  }

  // ---- The whole search ----

  // There are enough candidates, or a bound is met.
  predicate Enough(k: RecallConfig, target: nat, batch: nat, scan: Scan) {
    batch >= k.maxBatches || |AddAll(map[], scan.adds)| >= target || scan.scanned >= k.maxScanned
  }

  // The search goes on page after page and ends only when there are enough candidates or
  // a bound is met, when the search or reloading what it found fails, or when it has no
  // further page; `batch` pages were read before, and `before` is what they came to.
  lemma {:induction false} ScanEnds(k: RecallConfig, s: Repo, request: Request, now: Time, target: nat, answers: (nat, nat) -> Answer,
                                    late: nat -> bool, start: nat, seen: set<string>, cursor: string, scan: Scan)
    returns (batch: nat, before: Scan, at: string)
    ensures var end := ScanPages(k, s, request, now, target, answers, late, start, seen, cursor, scan);
            && batch >= start
            && if Enough(k, target, batch, before) then
                 end == before.(reason := if before.scanned >= k.maxScanned then "max_scan_reached" else if late(batch) then "time_budget_exceeded"
                                          else if at != "" then "max_batches_reached" else "")
               else
                 match answers(batch, if k.pageSize > k.maxScanned - before.scanned then k.maxScanned - before.scanned else k.pageSize)
                 case SearchFails => end == before.(reason := if late(batch) then "time_budget_exceeded" else "rag_unavailable")
                 case Page(candidates, next, reloadFails) =>
                   && end.scanned == before.scanned + |candidates|
                   && (if reloadFails then end.adds == before.adds && end.reason == "repository_unavailable"
                       else next == "" && end.reason == if end.scanned >= k.maxScanned then "max_scan_reached"
                                                        else if late(batch) then "time_budget_exceeded" else "")
    decreases k.maxBatches - start
  {
    hide AddAll, AddFound, Unseen, ByID, BatchGet;
    batch, before, at := start, scan, cursor;
    if !Enough(k, target, start, scan) {
      PageCounts(k, s, request, now, answers, late, start, seen, scan);
      match ReadPage(k, s, request, now, answers, late, start, seen, scan)
      case Stopped(_) =>
      case Read(after, nowSeen, next) =>
        if next != "" {
          batch, before, at := ScanEnds(k, s, request, now, target, answers, late, start + 1, nowSeen, next, after);
        }
    }
  }

  lemma PageCounts(k: RecallConfig, s: Repo, request: Request, now: Time, answers: (nat, nat) -> Answer, late: nat -> bool, batch: nat,
                   seen: set<string>, scan: Scan)
    requires scan.scanned < k.maxScanned
    ensures ReadPage(k, s, request, now, answers, late, batch, seen, scan).Read? ==>
              var answer := answers(batch, PageLimit(k, scan.scanned));
              && answer.Page? && !answer.reloadFails
              && ReadPage(k, s, request, now, answers, late, batch, seen, scan).scan.scanned == scan.scanned + |answer.candidates|
              && ReadPage(k, s, request, now, answers, late, batch, seen, scan).next == answer.next
  {
    hide Unseen, ByID, BatchGet;
    var answer := answers(batch, PageLimit(k, scan.scanned));
    if answer.Page? {
      var entries := Unseen(answer.candidates, seen);
      PageCounted(ByID(BatchGet(s, request.owner, IDsIn(entries))), request, now, entries, scan.(scanned := scan.scanned + |answer.candidates|));
    }
  }

  // ---- The context ----

  // The context is the returned records' texts, one after the other, each between
  // markers that name the record and call it untrusted.
  lemma ContextExactly(items: seq<Item>, i: nat)
    requires i < |items|
    ensures var from, to := Used(items[..i]), Used(items[..i + 1]);
            && from <= to <= |Context(items)| == Used(items)
            && Context(items)[from..to] ==
                 "[UNTRUSTED_MEMORY id=" + items[i].memory.id + " lineage_version=" + Decimal(items[i].memory.lineageVersion) + "]\n"
                 + items[i].memory.canonicalText + "\n[/UNTRUSTED_MEMORY]\n"
  {
    hide Decimal, Used, Context;
    ContextAt(items, i);
  }

  lemma {:induction false} ContextAt(items: seq<Item>, i: nat)
    requires i < |items|
    ensures var from, to := Used(items[..i]), Used(items[..i + 1]);
            from <= to <= |Context(items)| && Context(items)[from..to] == PromptOf(items[i].memory)
    decreases |items|
  {
    hide PromptOf;
    var last := |items| - 1;
    if i < last {
      assert items[..last][..i] == items[..i] && items[..last][..i + 1] == items[..i + 1];
      ContextAt(items[..last], i);
      assert Context(items) == Context(items[..last]) + PromptOf(items[last].memory);
    } else {
      assert items[..i + 1] == items;
    }
  }

  // ---- The request ----

  // A request is taken exactly with a valid owner and query, an acceptable scope, a
  // target and a budget within the configured bounds where given, no more than 32 pinned
  // references, and a plan that can be normalised where given; what is not given is the
  // configured default.
  lemma RequestExactly(k: RecallConfig, rules: Rules, request: Request)
    requires ValidConfig(k)
    ensures !BadRequest(k, rules, request) <==>
              && request.owner.tenantID != 0 && request.owner.userID != 0 && ValidIdentifier(request.query) && !rules.scopeRefused(request.scope)
              && 0 <= request.target <= k.maxTarget && 0 <= request.maxContextChars <= k.maxContextChars
              && |request.pinned| <= 32 && (request.plan.Some? ==> rules.normalPlan(request.plan.value).Some?)
    ensures TargetOf(k, request) == (if request.target == 0 then k.defaultTarget else request.target)
    ensures BudgetOf(k, request) == (if request.maxContextChars == 0 then k.maxContextChars else request.maxContextChars)
  {
  }

  // A search that had nothing to report has still found too little when there are fewer
  // candidates than asked for.
  lemma ReasonExactly(found: nat, target: int, reason: string)
    ensures FinalReason(found, target, reason) == "results_exhausted" <==> reason == "results_exhausted" || (reason == "" && found < target)
    ensures reason != "" || found >= target ==> FinalReason(found, target, reason) == reason
  {
  }
}
