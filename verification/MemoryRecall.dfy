// Recall over the store object.
module MemoryRecall {
  import opened Basics
  import opened Ordering
  import opened MemorySpec
  import opened MemoryRepository
  import opened RecallSpec
  import opened RecallTheorems

  datatype RecallResult = RecallResult(
    items: seq<Item>,
    context: string,
    hadSelector: bool,
    scanned: nat,
    obsoleteFiltered: nat,
    unknownFiltered: nat,
    truncated: bool,
    dropped: nat,
    degradationReason: string)

  const NOTHING := RecallResult([], "", false, 0, 0, 0, false, 0, "")

  // What a recall has gathered: the candidates are the merge of admissible additions.
  ghost predicate Gathered(request: Request, plan: Option<Plan>, now: Time, c: Candidates, adds: seq<Addition>) {
    c == AddAll(map[], adds) && forall a :: a in adds ==> Admissible(request, plan, now, a)
  }

  lemma GatherOne(request: Request, plan: Option<Plan>, now: Time, c: Candidates, adds: seq<Addition>, a: Addition)
    requires Gathered(request, plan, now, c, adds) && Admissible(request, plan, now, a)
    ensures Gathered(request, plan, now, Add(c, a), adds + [a])
  {
  }

  class RecallService {
    const repository: FakeRepository
    const config: RecallConfig
    const rules: RecallSpec.Rules

    constructor (repository: FakeRepository, config: RecallConfig, rules: RecallSpec.Rules)
      requires ValidConfig(config)
      ensures this.repository == repository && this.config == config && this.rules == rules
    {
      this.repository, this.config, this.rules := repository, config, rules;
    }

    method AddCandidate(c: Candidates, value: Record, source: MatchSource, score: real) returns (r: Candidates)
      ensures r == Add(c, Addition(value, source, score))
    {
      if value.id in c {
        var existing := c[value.id];
        if Priority(source) > Priority(existing.source) {
          existing := existing.(source := source, exact := source != MatchSemantic);
        }
        if score > existing.score {
          existing := existing.(score := score);
        }
        return c[value.id := existing];
      }
      return c[value.id := Item(value, source, score, source != MatchSemantic)];
    }

    method ReadRefs(request: Request) returns (ids: seq<string>, refs: map<string, MemoryRef>, error: bool)
      ensures error <==> PinnedRefused(rules, request)
      ensures !error ==> ids == IDsOf(request.pinned) && refs == RefsByID(request.pinned)
    {
      hide BadRef;
      ids, refs, error := [], map[], false;
      for i := 0 to |request.pinned|
        invariant ids == IDsOf(request.pinned[..i]) && refs == RefsByID(request.pinned[..i])
        invariant forall k :: 0 <= k < i ==> !BadRef(rules, request.pinned[k])
      {
        assert request.pinned[..i + 1][..i] == request.pinned[..i];
        var ref := request.pinned[i];
        if BadRef(rules, ref) {
          error := true;
          return;
        }
        ids := ids + [ref.id];
        refs := refs[ref.id := ref];
      }
      assert request.pinned[..|request.pinned|] == request.pinned;
    }

    method LoadPinned(request: Request, plan: Option<Plan>, now: Time)
      returns (r: Candidates, obsolete: nat, error: bool, ghost adds: seq<Addition>)
      ensures error <==> PinnedRefused(rules, request)
      ensures Gathered(request, plan, now, r, adds)
      ensures !error ==> adds == Pinned(repository.Contents(), request, now)
      ensures !error ==> obsolete == PinnedFiltered(repository.Contents(), request, now)
    {
      hide Gathered, ActiveAt, VisibleInScope, BatchGet, IDsOf, RefsByID, PinnedRefused;
      r, obsolete, adds := map[], 0, [];
      NothingGathered(request, plan, now);
      var ids, refs;
      ids, refs, error := ReadRefs(request);
      if error {
        return;
      }
      var values := repository.BatchGet(request.owner, ids);
      BatchOwner(repository.Contents(), request.owner, ids);
      for i := 0 to |values|
        invariant Gathered(request, plan, now, r, adds)
        invariant adds == PinnedAdditions(values[..i], refs, request, now) && obsolete == i - |adds|
      {
        assert values[..i + 1][..i] == values[..i];
        var value := values[i];
        if value.id !in refs || value.lineageVersion != refs[value.id].lineageVersion || value.contentHash != refs[value.id].contentHash
           || !ActiveAt(value, now) || !VisibleInScope(value, request.scope) {
          obsolete := obsolete + 1;
        } else {
          var a := Addition(value, MatchPinned, 1.0);
          FoundAdmissible(request, plan, now, a);
          GatherOne(request, plan, now, r, adds, a);
          r := AddCandidate(r, value, MatchPinned, 1.0);
          adds := adds + [a];
        }
      }
      assert values[..|values|] == values;
    }

    // Records an exact query answered, with their source.
    method AddExact(request: Request, plan: Option<Plan>, now: Time, values: seq<Record>, source: Record -> MatchSource,
                    c: Candidates, ghost adds: seq<Addition>) returns (r: Candidates, ghost more: seq<Addition>)
      requires Gathered(request, plan, now, c, adds)
      requires forall value, from, score :: value in values ==> Admissible(request, plan, now, Addition(value, from, score))
      ensures Gathered(request, plan, now, r, more) && more == adds + ExactAdditions(values, source)
    {
      hide Gathered, Admissible;
      r, more := c, adds;
      for i := 0 to |values|
        invariant Gathered(request, plan, now, r, more)
        invariant more == adds + ExactAdditions(values[..i], source)
      {
        assert values[..i + 1][..i] == values[..i];
        var value := values[i];
        GatherOne(request, plan, now, r, more, Addition(value, source(value), 1.0));
        r := AddCandidate(r, value, source(value), 1.0);
        more := more + [Addition(value, source(value), 1.0)];
      }
      assert values[..|values|] == values;
    }

    method LoadExact(request: Request, plan: Option<Plan>, now: Time, q: Query, source: Record -> MatchSource,
                     c: Candidates, ghost adds: seq<Addition>)
      returns (r: Candidates, error: bool, ghost more: seq<Addition>)
      requires Gathered(request, plan, now, c, adds)
      requires q.limit > 0 && q.owner == request.owner && q.activeAt == now
      requires forall value: Record :: value.scope == q.scope ==> InScope(request, plan, value)
      ensures error <==> repository.config.queryRefused(q)
      ensures Gathered(request, plan, now, r, more)
      ensures !error ==> more == adds + ExactAdditions(ExactAnswer(repository.Contents(), q), source)
    {
      hide Gathered, ActiveAt, HasSelector, InScope, ExactAnswer, ExactAdditions, IsExactAnswer;
      r, error, more := c, false, adds;
      var values;
      ghost var ids;
      values, ids := repository.FindExact(q);
      if values.Err? {
        error := true;
        return;
      }
      ExactAdmissible(repository.Contents(), q, ids);
      Answered(repository.Contents(), q, ids, values.value);
      r, more := AddExact(request, plan, now, values.value, source, c, adds);
    }

    // Page after page, until there are enough candidates or the scan bounds are met.
    method LoadSemantic(request: Request, plan: Option<Plan>, now: Time, target: nat, answers: (nat, nat) -> Answer, late: nat -> bool,
                        c: Candidates, ghost adds: seq<Addition>)
      returns (r: Candidates, scanned: nat, obsolete: nat, unknown: nat, reason: string, ghost more: seq<Addition>)
      requires ValidConfig(config) && Gathered(request, plan, now, c, adds)
      ensures Gathered(request, plan, now, r, more)
      ensures Scan(more, scanned, obsolete, unknown, reason) ==
                ScanPages(config, repository.Contents(), request, now, target, answers, late, 0, {}, "", Scan(adds, 0, 0, 0, ""))
      ensures Respects(answers) ==> scanned <= config.maxScanned
    {
      hide Gathered, ActiveAt, Respects, ReadPage, EndReason, AddAll;
      r, scanned, obsolete, unknown, reason, more := c, 0, 0, 0, "", adds;
      ghost var s := repository.Contents();
      var cursor := "";
      var seen: set<string> := {};
      var batch := 0;
      GatheredMerge(request, plan, now, r, more);
      while batch < config.maxBatches && |r| < target && scanned < config.maxScanned
        invariant Gathered(request, plan, now, r, more) && r == AddAll(map[], more)
        invariant Respects(answers) ==> scanned <= config.maxScanned
        invariant ScanPages(config, s, request, now, target, answers, late, 0, {}, "", Scan(adds, 0, 0, 0, ""))
               == ScanPages(config, s, request, now, target, answers, late, batch, seen, cursor, Scan(more, scanned, obsolete, unknown, ""))
        decreases config.maxBatches - batch
      {
        var stopped;
        r, scanned, obsolete, unknown, reason, seen, cursor, stopped, more :=
          LoadPage(request, plan, now, answers, late, batch, seen, cursor, r, scanned, obsolete, unknown, more);
        if stopped {
          return;
        }
        GatheredMerge(request, plan, now, r, more);
        if cursor == "" {
          break;
        }
        batch := batch + 1;
      }
      reason := EndReasonOf(scanned, late(batch), cursor);
    }

    method LoadPage(request: Request, plan: Option<Plan>, now: Time, answers: (nat, nat) -> Answer, late: nat -> bool, batch: nat,
                    seen: set<string>, cursor: string, c: Candidates, scanned: nat, obsolete: nat, unknown: nat, ghost adds: seq<Addition>)
      returns (r: Candidates, nowScanned: nat, nowObsolete: nat, nowUnknown: nat, reason: string, nowSeen: set<string>, next: string,
               stopped: bool, ghost more: seq<Addition>)
      requires Gathered(request, plan, now, c, adds) && scanned < config.maxScanned
      ensures Gathered(request, plan, now, r, more)
      ensures ReadPage(config, repository.Contents(), request, now, answers, late, batch, seen, Scan(adds, scanned, obsolete, unknown, ""))
           == var scan := Scan(more, nowScanned, nowObsolete, nowUnknown, reason); if stopped then Stopped(scan) else Read(scan, nowSeen, next)
      ensures !stopped ==> reason == ""
      ensures Respects(answers) ==> nowScanned <= config.maxScanned
    {
      hide Gathered, ActiveAt, Respects, Unseen, Mentions, IDsIn, ByID, RecallSpec.AddFound, BatchGet;
      r, nowScanned, nowObsolete, nowUnknown, reason, nowSeen, next, stopped, more := c, scanned, obsolete, unknown, "", seen, cursor, true, adds;
      var limit := if config.pageSize > config.maxScanned - scanned then config.maxScanned - scanned else config.pageSize;
      PageWithin(answers, batch, limit);
      var page := answers(batch, limit);
      if page.SearchFails? {
        reason := if late(batch) then "time_budget_exceeded" else "rag_unavailable";
        return;
      }
      var entries, named := FirstSeen(page.candidates, seen);
      nowScanned := scanned + |page.candidates|;
      if page.reloadFails {
        reason := "repository_unavailable";
        return;
      }
      r, nowObsolete, nowUnknown, more := AddPage(request, plan, now, entries, c, obsolete, unknown, nowScanned, adds);
      nowSeen, next, stopped := seen + named, page.next, false;
    }

    method EndReasonOf(scanned: nat, late: bool, cursor: string) returns (reason: string)
      ensures reason == EndReason(config, scanned, late, cursor)
    {
      if scanned >= config.maxScanned {
        return "max_scan_reached";
      }
      if late {
        return "time_budget_exceeded";
      }
      return if cursor != "" then "max_batches_reached" else "";
    }

    // The entries of a page not met before, in order and once each.
    method FirstSeen(candidates: seq<(string, real)>, seen: set<string>) returns (entries: seq<(string, real)>, named: set<string>)
      ensures entries == Unseen(candidates, seen) && named == Mentions(candidates)
    {
      entries, named := [], {};
      for k := 0 to |candidates|
        invariant entries == Unseen(candidates[..k], seen) && named == Mentions(candidates[..k])
      {
        assert candidates[..k + 1][..k] == candidates[..k];
        MentionsNext(candidates, k);
        var id := candidates[k].0;
        if id !in seen && id !in named {
          entries := entries + [candidates[k]];
        }
        named := named + {id};
      }
      assert candidates[..|candidates|] == candidates;
    }

    // The records of a page's entries, by their own ids.
    method Find(owner: Owner, entries: seq<(string, real)>) returns (found: map<string, Record>)
      ensures found == ByID(BatchGet(repository.Contents(), owner, IDsIn(entries)))
      ensures forall id :: id in found ==> found[id].owner == owner
    {
      hide BatchGet;
      var ids: seq<string> := [];
      for i := 0 to |entries|
        invariant ids == IDsIn(entries[..i])
      {
        assert entries[..i + 1][..i] == entries[..i];
        ids := ids + [entries[i].0];
      }
      assert entries[..|entries|] == entries;
      var values := repository.BatchGet(owner, ids);
      BatchOwner(repository.Contents(), owner, ids);
      found := map[];
      for i := 0 to |values|
        invariant found == ByID(values[..i])
        invariant forall id :: id in found ==> found[id].owner == owner
      {
        assert values[..i + 1][..i] == values[..i];
        found := found[values[i].id := values[i]];
      }
      assert values[..|values|] == values;
    }

    method AddPage(request: Request, plan: Option<Plan>, now: Time, entries: seq<(string, real)>, c: Candidates, obsolete: nat, unknown: nat,
                   ghost scanned: nat, ghost adds: seq<Addition>)
      returns (r: Candidates, nowObsolete: nat, nowUnknown: nat, ghost more: seq<Addition>)
      requires Gathered(request, plan, now, c, adds)
      ensures Gathered(request, plan, now, r, more)
      ensures Scan(more, scanned, nowObsolete, nowUnknown, "") ==
                RecallSpec.AddFound(ByID(BatchGet(repository.Contents(), request.owner, IDsIn(entries))), request, now, entries,
                                    Scan(adds, scanned, obsolete, unknown, ""))
      ensures |more| - |adds| + (nowObsolete - obsolete) + (nowUnknown - unknown) == |entries|
    {
      hide Gathered, ActiveAt, VisibleInScope, BatchGet;
      r, nowObsolete, nowUnknown, more := c, obsolete, unknown, adds;
      var found := Find(request.owner, entries);
      for i := 0 to |entries|
        invariant Gathered(request, plan, now, r, more)
        invariant Scan(more, scanned, nowObsolete, nowUnknown, "") ==
                    RecallSpec.AddFound(found, request, now, entries[..i], Scan(adds, scanned, obsolete, unknown, ""))
        invariant |more| - |adds| + (nowObsolete - obsolete) + (nowUnknown - unknown) == i
      {
        assert entries[..i + 1][..i] == entries[..i];
        var id := entries[i].0;
        if id !in found {
          nowUnknown := nowUnknown + 1;
        } else if !ActiveAt(found[id], now) || !VisibleInScope(found[id], request.scope) {
          nowObsolete := nowObsolete + 1;
        } else {
          var a := Addition(found[id], MatchSemantic, entries[i].1);
          FoundAdmissible(request, plan, now, a);
          GatherOne(request, plan, now, r, more, a);
          r := AddCandidate(r, found[id], MatchSemantic, entries[i].1);
          more := more + [a];
        }
      }
      assert entries[..|entries|] == entries;
    }

    // The best of the remaining candidates, again and again.
    method Rank(c: Candidates) returns (items: seq<Item>)
      requires OwnIDs(c)
      ensures Ranked(c, items)
    {
      hide Before;
      items := [];
      var rest := c;
      while rest != map[]
        invariant rest.Keys <= c.Keys && forall id :: id in rest ==> rest[id] == c[id]
        invariant forall i :: 0 <= i < |items| ==> items[i].memory.id in c && c[items[i].memory.id] == items[i]
        invariant forall id :: id in c ==> id in rest || c[id] in items
        invariant forall i, j :: 0 <= i < j < |items| ==> Before(items[i], items[j])
        invariant forall i, id :: 0 <= i < |items| && id in rest ==> Before(items[i], rest[id])
        decreases rest.Keys
      {
        var id := Best(rest);
        items := items + [rest[id]];
        rest := rest - {id};
      }
    }

    method Best(c: Candidates) returns (best: string)
      requires c != map[] && OwnIDs(c)
      ensures best in c && forall id :: id in c && id != best ==> Before(c[best], c[id])
    {
      hide Before;
      best :| best in c;
      var keys := c.Keys - {best};
      while keys != {}
        invariant best in c && keys <= c.Keys
        invariant forall id :: id in c && id !in keys && id != best ==> Before(c[best], c[id])
        decreases keys
      {
        var id :| id in keys;
        Order(c[best], c[id]);
        if Before(c[id], c[best]) {
          forall k | k in c && k !in keys && k != id
            ensures Before(c[id], c[k])
          {
            Through(c[id], c[best], c[k]);
          }
          best := id;
        }
        keys := keys - {id};
      }
    }

    // The ranked candidates, cut first to the target and then to the budget.
    method Cut(ranked: seq<Item>, target: nat, budget: nat) returns (items: seq<Item>, context: string, dropped: nat, truncated: bool)
      ensures items == Fitting(Top(ranked, target), budget) && context == Context(items)
      ensures |context| <= budget
      ensures |items| + dropped == |ranked|
      ensures truncated <==> dropped > 0
    {
      hide PromptOf, Fitting, Used, Context;
      var top := ranked;
      dropped, truncated := 0, false;
      if |ranked| > target {
        dropped := |ranked| - target;
        top := ranked[..target];
        truncated := true;
      }
      items, context := [], "";
      var used := 0;
      NothingFits(top, budget);
      for i := 0 to |top|
        invariant items == Fitting(top[..i], budget) && context == Context(items) && used == Used(items)
        invariant |items| + dropped == |ranked| - (|top| - i)
        invariant truncated <==> dropped > 0
      {
        FitNext(top, i, budget);
        TakeNext(items, top[i]);
        var prompt := PromptOf(top[i].memory);
        if used + |prompt| > budget {
          dropped := dropped + 1;
          truncated := true;
        } else {
          items := items + [top[i]];
          context := context + prompt;
          used := used + |prompt|;
        }
      }
      assert top[..|top|] == top;
      WithinBudget(top, budget);
    }

    // The exact queries of a plan, or of the request itself.
    method LoadQueries(request: Request, plan: Option<Plan>, now: Time, c: Candidates, ghost adds: seq<Addition>)
      returns (r: Candidates, error: bool, ghost more: seq<Addition>)
      requires ValidConfig(config) && Gathered(request, plan, now, c, adds)
      ensures Gathered(request, plan, now, r, more)
      ensures error <==> QueriesRefused(repository.config, config, repository.Contents(), request, plan, now, adds)
      ensures !error ==> more == QueryAdditions(config, repository.Contents(), request, plan, now, adds)
    {
      hide Gathered, ActiveAt, VisibleInScope, HasSelector, ExactAnswer, ExactAdditions, AddAll, SelectorQuery;
      r, error, more := c, false, adds;
      ghost var s := repository.Contents();
      if plan.Some? {
        var i := 0;
        while i < |plan.value.selectors|
          invariant i <= |plan.value.selectors| && Gathered(request, plan, now, r, more) && !error
          invariant PlanAdditions(config, s, request, plan.value, now, 0, adds) == PlanAdditions(config, s, request, plan.value, now, i, more)
          invariant PlanRefused(repository.config, config, s, request, plan.value, now, 0, adds)
                 == PlanRefused(repository.config, config, s, request, plan.value, now, i, more)
        {
          var selector := plan.value.selectors[i];
          var q := SelectorQuery(config, request, plan.value, selector, now);
          SelectorScope(config, request, plan.value, selector, now);
          r, error, more := LoadExact(request, plan, now, q, _ => SelectorSource(selector), r, more);
          if error {
            return;
          }
          GatheredMerge(request, plan, now, r, more);
          if |r| >= config.maxExactCandidates {
            return;
          }
          i := i + 1;
        }
      } else {
        var q := DirectQuery(config, request, now);
        if HasSelector(q) {
          r, error, more := LoadExact(request, plan, now, q, value => DirectSource(value, request), r, more);
        } else {
          NothingSelected(s, q, value => DirectSource(value, request));
        }
      }
    }

    // Pinned records first, then exact queries, then the semantic search.
    method LoadAll(request: Request, plan: Option<Plan>, now: Time, target: nat, answers: (nat, nat) -> Answer, late: nat -> bool)
      returns (c: Candidates, error: bool, scanned: nat, obsolete: nat, unknown: nat, reason: string, ghost adds: seq<Addition>)
      requires ValidConfig(config)
      ensures Gathered(request, plan, now, c, adds)
      ensures error <==>
                || PinnedRefused(rules, request)
                || QueriesRefused(repository.config, config, repository.Contents(), request, plan, now, Pinned(repository.Contents(), request, now))
      ensures !error ==>
                var scan := Gather(config, repository.Contents(), request, plan, now, target, answers, late);
                && (adds, scanned, unknown, reason) == (scan.adds, scan.scanned, scan.unknown, scan.reason)
                && obsolete == PinnedFiltered(repository.Contents(), request, now) + scan.obsolete
      ensures Respects(answers) ==> scanned <= config.maxScanned
    {
      hide Gathered, Respects, Pinned, QueryAdditions, QueriesRefused, PinnedRefused, PinnedFiltered, ScanPages;
      scanned, unknown, reason := 0, 0, "";
      c, obsolete, error, adds := LoadPinned(request, plan, now);
      if error {
        return;
      }
      c, error, adds := LoadQueries(request, plan, now, c, adds);
      if error || !config.semantic {
        return;
      }
      var found;
      c, scanned, found, unknown, reason, adds := LoadSemantic(request, plan, now, target, answers, late, c, adds);
      obsolete := obsolete + found;
    }

    // What the checks before loading say: a refusal, or the plan to follow.
    method Check(request: Request) returns (error: bool, plan: Option<Plan>)
      ensures error <==> BadRequest(config, rules, request)
      ensures !error ==> plan == EffectivePlan(rules, request)
    {
      hide ValidIdentifier;
      plan := None;
      if !ValidOwner(request.owner) || !ValidIdentifier(request.query) || rules.scopeRefused(request.scope) {
        return true, plan;
      }
      var target := if request.target == 0 then config.defaultTarget else request.target;
      if target < 1 || target > config.maxTarget {
        return true, plan;
      }
      var budget := if request.maxContextChars == 0 then config.maxContextChars else request.maxContextChars;
      if budget < 1 || budget > config.maxContextChars || |request.pinned| > MAX_SELECTORS {
        return true, plan;
      }
      if request.plan.Some? {
        plan := rules.normalPlan(request.plan.value);
        if plan.None? {
          return true, plan;
        }
      }
      return false, plan;
    }

    // A recall that is not refused returns the best of what it gathered, cut to its
    // target and budget, and counts what it leaves out.
    method Recall(request: Request, now: Time, answers: (nat, nat) -> Answer, late: nat -> bool)
      returns (r: Result<RecallResult>, ghost adds: seq<Addition>, ghost ranked: seq<Item>)
      requires ValidConfig(config)
      ensures r.Err? <==> RecallRefused(repository.config, config, rules, repository.Contents(), request, now)
      ensures r.Err? ==> r.error.InvalidInput?
      ensures r.Ok? && NeedsClarification(rules, request) ==>
                r.value == NOTHING.(hadSelector := HadSelector(config, request, EffectivePlan(rules, request), now),
                                    degradationReason := "clarification_required")
      ensures r.Ok? && !NeedsClarification(rules, request) ==>
                && Recalled(config, repository.Contents(), request, EffectivePlan(rules, request), now, answers, late, r.value, ranked)
                && adds == Gathering(config, repository.Contents(), request, EffectivePlan(rules, request), now, TargetOf(config, request), answers, late)
                && forall a :: a in adds ==> Admissible(request, EffectivePlan(rules, request), now, a)
      ensures r.Ok? && Respects(answers) ==> r.value.scanned <= config.maxScanned
    {
      hide Respects, Ranked, AddAll, Admissible, Context, Fitting, Top, Gather, Gathered, OwnIDs, BadRequest, HasSelector, DirectQuery,
           Executable, QueriesRefused, PinnedRefused, Pinned, PinnedFiltered, TargetOf, BudgetOf, EffectivePlan;
      adds, ranked := [], [];
      var error, plan := Check(request);
      Checked(config, rules, request);
      if error {
        return Err(InvalidInput), adds, ranked;
      }
      var target, budget := TargetOf(config, request), BudgetOf(config, request);
      var hadSelector := |request.pinned| > 0;
      if plan.Some? {
        hadSelector := |request.pinned| > 0 || |plan.value.selectors| > 0;
        if !Executable(plan.value) {
          return Ok(NOTHING.(hadSelector := hadSelector, degradationReason := "clarification_required")), adds, ranked;
        }
      } else {
        hadSelector := |request.pinned| > 0 || HasSelector(DirectQuery(config, request, now));
      }
      var c, scanned, obsolete, unknown, reason;
      c, error, scanned, obsolete, unknown, reason, adds := LoadAll(request, plan, now, target, answers, late);
      if error {
        return Err(InvalidInput), adds, ranked;
      }
      if |c| < target && reason == "" {
        reason := "results_exhausted";
      }
      GatheredOwnIDs(request, plan, now, c, adds);
      var order := Rank(c);
      ranked := order;
      CountRanked(c, order);
      var items, context, dropped, truncated := Cut(order, target, budget);
      return Ok(RecallResult(items, context, hadSelector, scanned, obsolete, unknown, truncated, dropped, reason)), adds, ranked;
    }
  }

  // What a recall returns: the ranked candidates cut to target and budget, and the
  // counts of what was scanned, filtered and left out.
  ghost predicate Recalled(k: RecallConfig, s: Repo, request: Request, plan: Option<Plan>, now: Time, answers: (nat, nat) -> Answer,
                           late: nat -> bool, r: RecallResult, ranked: seq<Item>)
  {
    var target, budget := TargetOf(k, request), BudgetOf(k, request);
    target >= 1 && budget >= 1 &&
    var scan := Gather(k, s, request, plan, now, target, answers, late);
    var c := AddAll(map[], scan.adds);
    && Ranked(c, ranked)
    && r.items == Fitting(Top(ranked, target), budget)
    && r.context == Context(r.items) && |r.context| <= budget
    && |r.items| + r.dropped == |c|
    && (r.truncated <==> r.dropped > 0)
    && r.hadSelector == HadSelector(k, request, plan, now)
    && r.scanned == scan.scanned && r.unknownFiltered == scan.unknown
    && r.obsoleteFiltered == PinnedFiltered(s, request, now) + scan.obsolete
    && r.degradationReason == FinalReason(|c|, target, scan.reason)
  }

  lemma Checked(k: RecallConfig, rules: RecallSpec.Rules, request: Request)
    ensures !BadRequest(k, rules, request) ==> TargetOf(k, request) >= 1 && BudgetOf(k, request) >= 1
  {
  }

  lemma {:induction false} BatchOwner(s: Repo, owner: Owner, ids: seq<string>)
    ensures forall r :: r in BatchGet(s, owner, ids) ==> r.owner == owner
  {
    if ids != [] {
      BatchOwner(s, owner, ids[..|ids| - 1]);
    }
  }

  lemma ExactAdmissible(s: Repo, q: Query, ids: seq<string>)
    ensures IsExactAnswer(s, q, ids) ==>
              forall i :: 0 <= i < |ids| ==>
                ids[i] in s.records && s.records[ids[i]].owner == q.owner && ActiveAt(s.records[ids[i]], q.activeAt) && s.records[ids[i]].scope == q.scope
  {
  }

  lemma PageWithin(answers: (nat, nat) -> Answer, batch: nat, limit: nat)
    ensures Respects(answers) && answers(batch, limit).Page? ==> |answers(batch, limit).candidates| <= limit
  {
  }

  lemma Order(a: Item, b: Item)
    ensures a.memory.id != b.memory.id ==> Before(a, b) || Before(b, a)
  {
    LessTotal(a.memory.id, b.memory.id);
  }

  lemma Through(a: Item, b: Item, c: Item)
    requires Before(a, b) && (c == b || Before(b, c))
    ensures Before(a, c)
  {
    BeforeOrders(a, b, c);
  }

  lemma GatheredOwnIDs(request: Request, plan: Option<Plan>, now: Time, c: Candidates, adds: seq<Addition>)
    requires Gathered(request, plan, now, c, adds)
    ensures OwnIDs(c) && c == AddAll(map[], adds)
    ensures forall a :: a in adds ==> Admissible(request, plan, now, a)
  {
    MergeOwnIDs(adds);
  }

  lemma CountRanked(c: Candidates, items: seq<Item>)
    requires OwnIDs(c) && Ranked(c, items)
    ensures |items| == |c|
  {
    RankedSize(c, items);
  }

  lemma NothingFits(items: seq<Item>, budget: nat)
    ensures Fitting(items[..0], budget) == [] && Used([]) == 0 && Context([]) == ""
  {
  }

  lemma FitNext(items: seq<Item>, i: nat, budget: nat)
    requires i < |items|
    ensures Fitting(items[..i + 1], budget) ==
              var before := Fitting(items[..i], budget);
              if Used(before) + |PromptOf(items[i].memory)| > budget then before else before + [items[i]]
  {
    hide PromptOf, Used;
    assert items[..i + 1][..i] == items[..i];
  }

  lemma TakeNext(items: seq<Item>, item: Item)
    ensures Used(items + [item]) == Used(items) + |PromptOf(item.memory)|
    ensures Context(items + [item]) == Context(items) + PromptOf(item.memory)
  {
  }

  lemma WithinBudget(items: seq<Item>, budget: nat)
    ensures |Context(Fitting(items, budget))| <= budget
  {
    hide PromptOf, Fitting, Context;
  }

  lemma GatheredMerge(request: Request, plan: Option<Plan>, now: Time, c: Candidates, adds: seq<Addition>)
    requires Gathered(request, plan, now, c, adds)
    ensures c == AddAll(map[], adds)
  {
  }

  lemma MentionsNext(candidates: seq<(string, real)>, k: nat)
    requires k < |candidates|
    ensures Mentions(candidates[..k + 1]) == Mentions(candidates[..k]) + {candidates[k].0}
  {
    var longer, shorter := candidates[..k + 1], candidates[..k];
    assert longer[k] == candidates[k];
    forall id | id in Mentions(shorter)
      ensures id in Mentions(longer)
    {
      var i :| 0 <= i < |shorter| && shorter[i].0 == id;
      assert longer[i] == shorter[i];
    }
    forall id | id in Mentions(longer)
      ensures id in Mentions(shorter) + {candidates[k].0}
    {
      var i :| 0 <= i < |longer| && longer[i].0 == id;
      if i < k {
        assert shorter[i] == longer[i];
      }
    }
  }

  lemma FoundAdmissible(request: Request, plan: Option<Plan>, now: Time, a: Addition)
    requires a.value.owner == request.owner && ActiveAt(a.value, now) && VisibleInScope(a.value, request.scope)
    ensures Admissible(request, plan, now, a)
  {
  }

  lemma SelectorScope(k: RecallConfig, request: Request, plan: Plan, selector: Selector, now: Time)
    requires selector in plan.selectors
    ensures var q := SelectorQuery(k, request, plan, selector, now);
            && q.limit == k.maxExactCandidates && q.owner == request.owner && q.activeAt == now
            && forall value: Record :: value.scope == q.scope ==> InScope(request, Some(plan), value)
  {
    hide VisibleInScope;
    var i :| 0 <= i < |plan.selectors| && plan.selectors[i] == selector;
    assert plan.selectors[i].scope == selector.scope;
  }

  lemma NothingSelected(s: Repo, q: Query, source: Record -> MatchSource)
    requires !HasSelector(q)
    ensures ExactAdditions(ExactAnswer(s, q), source) == []
  {
  }

  lemma {:induction false} RecordsListed(s: Repo, ids: seq<string>, values: seq<Record>)
    requires |values| == |ids| && forall i :: 0 <= i < |ids| ==> ids[i] in s.records && values[i] == s.records[ids[i]]
    ensures values == RecordsOf(s, ids)
  {
    if ids != [] {
      RecordsListed(s, ids[..|ids| - 1], values[..|ids| - 1]);
      assert values == values[..|ids| - 1] + [values[|ids| - 1]];
    }
  }

  // What the repository answered is the answer.
  lemma Answered(s: Repo, q: Query, ids: seq<string>, values: seq<Record>)
    requires HasSelector(q) ==> IsExactAnswer(s, q, ids) && |values| == |ids|
                                && forall i :: 0 <= i < |ids| ==> ids[i] in s.records && values[i] == s.records[ids[i]]
    requires !HasSelector(q) ==> values == []
    ensures values == ExactAnswer(s, q)
  {
    hide HasSelector, Selects;
    if HasSelector(q) {
      RecordsListed(s, ids, values);
      forall others | IsExactAnswer(s, q, others)
        ensures others == ids
      {
        BatchUnique(SelectedIDs(s, q), Newest(s), q.limit, ids, others);
      }
    }
  }

  lemma NothingGathered(request: Request, plan: Option<Plan>, now: Time)
    ensures Gathered(request, plan, now, map[], [])
  {
  }
}
