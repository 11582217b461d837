// A recall's own additions agree on every record, so its result does not depend on the
// order in which it met them.
module RecallOrder {
  import opened Basics
  import opened MemorySpec
  import opened RecallSpec
  import opened RecallTheorems
  import MemorySystem
  import MemoryProofs

  // Records are filed under their own ids.
  ghost predicate OwnRecordIDs(s: Repo) {
    forall id :: id in s.records ==> s.records[id].id == id
  }

  // As in every reachable store.
  lemma ReachableOwnIDs(c: Config, actions: seq<MemorySystem.Action>)
    ensures OwnRecordIDs(MemorySystem.Exec(c, EMPTY_REPO, actions))
  {
    hide MemorySystem.Exec, MemorySystem.OutboxInv;
    MemoryProofs.Reachable(c, actions);
    var s := MemorySystem.Exec(c, EMPTY_REPO, actions);
    forall id | id in s.records
      ensures s.records[id].id == id
    {
      assert MemorySystem.RecordInv(s.records, id);
    }
  }

  predicate Stored(s: Repo, r: Record) {
    r.id in s.records && s.records[r.id] == r
  }

  // Every added value is the stored record.
  ghost predicate AllStored(s: Repo, adds: seq<Addition>) {
    forall a :: a in adds ==> Stored(s, a.value)
  }

  lemma {:induction false} BatchStored(s: Repo, owner: Owner, ids: seq<string>)
    requires OwnRecordIDs(s)
    ensures forall r :: r in BatchGet(s, owner, ids) ==> Stored(s, r)
  {
    if ids != [] {
      BatchStored(s, owner, ids[..|ids| - 1]);
    }
  }

  lemma {:induction false} PinnedStored(s: Repo, values: seq<Record>, refs: map<string, MemoryRef>, request: Request, now: Time)
    requires forall r :: r in values ==> Stored(s, r)
    ensures AllStored(s, PinnedAdditions(values, refs, request, now))
  {
    hide PinnedStands;
    if values != [] {
      PinnedStored(s, values[..|values| - 1], refs, request, now);
    }
  }

  lemma {:induction false} RecordsStored(s: Repo, ids: seq<string>)
    requires OwnRecordIDs(s)
    ensures forall r :: r in RecordsOf(s, ids) ==> Stored(s, r)
  {
    if ids != [] {
      RecordsStored(s, ids[..|ids| - 1]);
    }
  }

  lemma {:induction false} ExactStored(s: Repo, values: seq<Record>, source: Record -> MatchSource)
    requires forall r :: r in values ==> Stored(s, r)
    ensures AllStored(s, ExactAdditions(values, source))
  {
    if values != [] {
      ExactStored(s, values[..|values| - 1], source);
    }
  }

  lemma AnswerStored(s: Repo, q: Query)
    requires OwnRecordIDs(s)
    ensures forall r :: r in ExactAnswer(s, q) ==> Stored(s, r)
  {
    hide HasSelector, IsExactAnswer, OwnRecordIDs, Stored;
    if HasSelector(q) && exists ids :: IsExactAnswer(s, q, ids) {
      forall ids
        ensures forall r :: r in RecordsOf(s, ids) ==> Stored(s, r)
      {
        RecordsStored(s, ids);
      }
    }
  }

  lemma {:induction false} PlanStored(k: RecallConfig, s: Repo, request: Request, plan: Plan, now: Time, i: nat, adds: seq<Addition>)
    requires OwnRecordIDs(s) && i <= |plan.selectors| && AllStored(s, adds)
    ensures AllStored(s, PlanAdditions(k, s, request, plan, now, i, adds))
    decreases |plan.selectors| - i
  {
    hide OwnRecordIDs, ExactAnswer, ExactAdditions, AddAll, SelectorQuery, Stored;
    if i < |plan.selectors| {
      var selector := plan.selectors[i];
      var q := SelectorQuery(k, request, plan, selector, now);
      AnswerStored(s, q);
      ExactStored(s, ExactAnswer(s, q), _ => SelectorSource(selector));
      var more := adds + ExactAdditions(ExactAnswer(s, q), _ => SelectorSource(selector));
      if |AddAll(map[], more)| < k.maxExactCandidates {
        PlanStored(k, s, request, plan, now, i + 1, more);
      }
    }
  }

  lemma {:induction false} ByIDStored(s: Repo, values: seq<Record>)
    requires forall r :: r in values ==> Stored(s, r)
    ensures forall id :: id in ByID(values) ==> Stored(s, ByID(values)[id])
  {
    if values != [] {
      ByIDStored(s, values[..|values| - 1]);
    }
  }

  lemma {:induction false} FoundStored(s: Repo, found: map<string, Record>, request: Request, now: Time, page: seq<(string, real)>, scan: Scan)
    requires AllStored(s, scan.adds) && forall id :: id in found ==> Stored(s, found[id])
    ensures AllStored(s, AddFound(found, request, now, page, scan).adds)
  {
    hide Stored, ActiveAt, VisibleInScope;
    if page != [] {
      FoundStored(s, found, request, now, page[..|page| - 1], scan);
    }
  }

  lemma {:induction false} ScanStored(k: RecallConfig, s: Repo, request: Request, now: Time, target: nat, answers: (nat, nat) -> Answer,
                                      late: nat -> bool, batch: nat, seen: set<string>, cursor: string, scan: Scan)
    requires OwnRecordIDs(s) && AllStored(s, scan.adds)
    ensures AllStored(s, ScanPages(k, s, request, now, target, answers, late, batch, seen, cursor, scan).adds)
    decreases k.maxBatches - batch
  {
    hide OwnRecordIDs, Stored, BatchGet, AddFound, Unseen, Mentions, IDsIn, ByID, AddAll, EndReason;
    if !(batch >= k.maxBatches || |AddAll(map[], scan.adds)| >= target || scan.scanned >= k.maxScanned) {
      var page := answers(batch, PageLimit(k, scan.scanned));
      if page.Page? && !page.reloadFails {
        var entries := Unseen(page.candidates, seen);
        var values := BatchGet(s, request.owner, IDsIn(entries));
        BatchStored(s, request.owner, IDsIn(entries));
        ByIDStored(s, values);
        FoundStored(s, ByID(values), request, now, entries, scan.(scanned := scan.scanned + |page.candidates|));
        var outcome := ReadPage(k, s, request, now, answers, late, batch, seen, scan);
        if outcome.next != "" {
          ScanStored(k, s, request, now, target, answers, late, batch + 1, outcome.seen, outcome.next, outcome.scan);
        }
      }
    }
  }

  // Whatever a recall gathers from one store agrees on every record.
  lemma GatheringAgrees(k: RecallConfig, s: Repo, request: Request, plan: Option<Plan>, now: Time, target: nat,
                        answers: (nat, nat) -> Answer, late: nat -> bool)
    requires OwnRecordIDs(s)
    ensures Agree(Gathering(k, s, request, plan, now, target, answers, late))
  {
    hide OwnRecordIDs, ExactAnswer, ExactAdditions, PinnedAdditions, BatchGet, IDsOf, RefsByID, PlanAdditions, ScanPages, DirectQuery;
    var pinned := Pinned(s, request, now);
    BatchStored(s, request.owner, IDsOf(request.pinned));
    PinnedStored(s, BatchGet(s, request.owner, IDsOf(request.pinned)), RefsByID(request.pinned), request, now);
    var q := DirectQuery(k, request, now);
    AnswerStored(s, q);
    ExactStored(s, ExactAnswer(s, q), value => DirectSource(value, request));
    if plan.Some? {
      PlanStored(k, s, request, plan.value, now, 0, pinned);
    }
    var exact := QueryAdditions(k, s, request, plan, now, pinned);
    assert AllStored(s, exact);
    ScanStored(k, s, request, now, target, answers, late, 0, {}, "", Scan(exact, 0, 0, 0, ""));
    assert AllStored(s, Gathering(k, s, request, plan, now, target, answers, late));
  }

  // So a recall that met the same additions in any other order, or any of them more
  // often, would return the same items and the same context.
  lemma RecallOrderIrrelevant(k: RecallConfig, s: Repo, request: Request, plan: Option<Plan>, now: Time, target: nat, budget: nat,
                              answers: (nat, nat) -> Answer, late: nat -> bool, ys: seq<Addition>, ranked: seq<Item>, other: seq<Item>)
    requires OwnRecordIDs(s)
    requires var xs := Gathering(k, s, request, plan, now, target, answers, late);
             SameAdditions(xs, ys) && Ranked(AddAll(map[], xs), ranked) && Ranked(AddAll(map[], ys), other)
    ensures AddAll(map[], Gathering(k, s, request, plan, now, target, answers, late)) == AddAll(map[], ys)
    ensures Fitting(Top(ranked, target), budget) == Fitting(Top(other, target), budget)
    ensures Context(Fitting(Top(ranked, target), budget)) == Context(Fitting(Top(other, target), budget))
  {
    hide OwnRecordIDs, Gathering, SameAdditions, Ranked, AddAll, Fitting, Top, Context, Agree;
    var xs := Gathering(k, s, request, plan, now, target, answers, late);
    GatheringAgrees(k, s, request, plan, now, target, answers, late);
    MergeOrderIndependent(xs, ys);
    RankingOrderIndependent(xs, ys, ranked, other);
  }
}
