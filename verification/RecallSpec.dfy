// Recall: candidates gathered from several sources are merged by record, ranked, and
// cut to a target and a budget.
module RecallSpec {
  import opened Basics
  import opened Ordering
  import opened MemorySpec

  const MAX_SELECTORS := 32

  datatype MatchSource = MatchPinned | MatchEntity | MatchSlot | MatchHash | MatchSemantic

  function Priority(s: MatchSource): nat {
    match s
    case MatchPinned => 4
    case MatchEntity => 3
    case MatchSlot => 2
    case MatchHash => 1
    case MatchSemantic => 0
  }

  datatype Item = Item(memory: Record, source: MatchSource, score: real, exact: bool)

  datatype Addition = Addition(value: Record, source: MatchSource, score: real)

  type Candidates = map<string, Item>

  // ---- Merging ----

  function Merged(item: Item, a: Addition): Item {
    var sourced := if Priority(a.source) > Priority(item.source) then item.(source := a.source, exact := !a.source.MatchSemantic?) else item;
    if a.score > item.score then sourced.(score := a.score) else sourced
  }

  function Add(c: Candidates, a: Addition): Candidates {
    var id := a.value.id;
    if id in c then c[id := Merged(c[id], a)]
    else c[id := Item(a.value, a.source, a.score, !a.source.MatchSemantic?)]
  }

  function AddAll(c: Candidates, adds: seq<Addition>): Candidates {
    if adds == [] then c else Add(AddAll(c, adds[..|adds| - 1]), adds[|adds| - 1])
  }

  // Additions that saw the same value of each record.
  ghost predicate Agree(adds: seq<Addition>) {
    forall a, b :: a in adds && b in adds && a.value.id == b.value.id ==> a.value == b.value
  }

  // ---- The order ----

  // Higher priority, authority and salience first, then the newer, then the smaller id.
  predicate Before(a: Item, b: Item) {
    if Priority(a.source) != Priority(b.source) then Priority(a.source) > Priority(b.source)
    else if AuthorityRank(a.memory.authority) != AuthorityRank(b.memory.authority) then
      AuthorityRank(a.memory.authority) > AuthorityRank(b.memory.authority)
    else if a.memory.salience != b.memory.salience then a.memory.salience > b.memory.salience
    else if a.memory.createdAt != b.memory.createdAt then a.memory.createdAt > b.memory.createdAt
    else Less(a.memory.id, b.memory.id)
  }

  ghost predicate OwnIDs(c: Candidates) {
    forall id :: id in c ==> c[id].memory.id == id
  }

  // All the candidates, in order.
  ghost predicate Ranked(c: Candidates, items: seq<Item>) {
    && (forall i :: 0 <= i < |items| ==> items[i].memory.id in c && c[items[i].memory.id] == items[i])
    && (forall id :: id in c ==> c[id] in items)
    && (forall i, j :: 0 <= i < j < |items| ==> Before(items[i], items[j]))
  }

  // ---- Cutting ----

  function PromptOf(r: Record): string {
    "[UNTRUSTED_MEMORY id=" + r.id + " lineage_version=" + Decimal(r.lineageVersion) + "]\n" + r.canonicalText + "\n[/UNTRUSTED_MEMORY]\n"
  }

  // What of the budget the selected items use.
  function Used(items: seq<Item>): nat {
    if items == [] then 0 else Used(items[..|items| - 1]) + |PromptOf(items[|items| - 1].memory)|
  }

  function Context(items: seq<Item>): (r: string)
    ensures |r| == Used(items)
  {
    if items == [] then "" else Context(items[..|items| - 1]) + PromptOf(items[|items| - 1].memory)
  }

  // Each item in turn is taken when it still fits.
  function Fitting(items: seq<Item>, budget: nat): (r: seq<Item>)
    ensures Used(r) <= budget && |r| <= |items|
  {
    if items == [] then []
    else
      var before := Fitting(items[..|items| - 1], budget);
      var item := items[|items| - 1];
      if Used(before) + |PromptOf(item.memory)| > budget then before
      else
        assert (before + [item])[..|before|] == before;
        before + [item]
  }

  function Top(items: seq<Item>, target: nat): seq<Item> {
    if |items| > target then items[..target] else items
  }

  // ---- Requests ----

  datatype SelectorType = SelectorEntity | SelectorSlot | SelectorContentHash | SelectorLocalScope

  datatype Selector = Selector(kind: SelectorType, scope: Scope, namespace: string, slotKey: string, entity: EntityRef, contentHash: string)

  datatype Plan = Plan(layers: seq<Layer>, kinds: seq<Kind>, selectors: seq<Selector>, clarification: Option<bool>)

  // A plan is executable when it has selectors and needs no clarification.
  predicate Executable(p: Plan) {
    p.selectors != [] && (p.clarification.None? || !p.clarification.value)
  }

  datatype Request = Request(
    owner: Owner,
    query: string,
    scope: Scope,
    layers: seq<Layer>,
    kinds: seq<Kind>,
    namespace: string,
    slotKey: string,
    entity: EntityRef,
    contentHash: string,
    pinned: seq<MemoryRef>,
    plan: Option<Plan>,
    target: int,
    maxContextChars: int)

  datatype RecallConfig = RecallConfig(
    semantic: bool,
    defaultTarget: nat,
    maxTarget: nat,
    pageSize: nat,
    maxScanned: nat,
    maxBatches: nat,
    maxContextChars: nat,
    maxExactCandidates: nat)

  predicate ValidConfig(k: RecallConfig) {
    && 1 <= k.defaultTarget <= k.maxTarget
    && 1 <= k.pageSize <= 200 && k.pageSize <= k.maxScanned
    && k.maxBatches >= 1 && k.maxContextChars >= 1
    && k.maxTarget <= k.maxExactCandidates <= 200
  }

  // Normalisation of scopes and plans, and the shape of digests.
  datatype Rules = Rules(
    scopeRefused: Scope -> bool,
    normalPlan: Plan -> Option<Plan>,
    validDigest: string -> bool)

  // ---- What may be recalled ----

  predicate VisibleInScope(r: Record, requested: Scope) {
    if r.layer.LayerLongTerm? then r.scope.kind.ScopeUser? else r.scope == requested
  }

  // In the requested scope, or in that of one of the plan's selectors.
  predicate InScope(request: Request, plan: Option<Plan>, r: Record) {
    || VisibleInScope(r, request.scope)
    || r.scope == request.scope
    || (plan.Some? && exists i :: 0 <= i < |plan.value.selectors| && plan.value.selectors[i].scope == r.scope)
  }

  predicate Admissible(request: Request, plan: Option<Plan>, now: Time, a: Addition) {
    a.value.owner == request.owner && ActiveAt(a.value, now) && InScope(request, plan, a.value)
  }

  // ---- What each source adds ----

  // Of several references to one record the last counts.
  function RefsByID(pinned: seq<MemoryRef>): map<string, MemoryRef> {
    if pinned == [] then map[] else RefsByID(pinned[..|pinned| - 1])[pinned[|pinned| - 1].id := pinned[|pinned| - 1]]
  }

  function IDsOf(pinned: seq<MemoryRef>): seq<string> {
    if pinned == [] then [] else IDsOf(pinned[..|pinned| - 1]) + [pinned[|pinned| - 1].id]
  }

  predicate PinnedStands(refs: map<string, MemoryRef>, request: Request, now: Time, v: Record) {
    v.id in refs && v.lineageVersion == refs[v.id].lineageVersion && v.contentHash == refs[v.id].contentHash
    && ActiveAt(v, now) && VisibleInScope(v, request.scope)
  }

  function PinnedAdditions(values: seq<Record>, refs: map<string, MemoryRef>, request: Request, now: Time): (r: seq<Addition>)
    ensures |r| <= |values|
  {
    if values == [] then []
    else
      var v := values[|values| - 1];
      PinnedAdditions(values[..|values| - 1], refs, request, now) + if PinnedStands(refs, request, now, v) then [Addition(v, MatchPinned, 1.0)] else []
  }

  predicate BadRef(rules: Rules, ref: MemoryRef) {
    ref.id == "" || ref.lineageVersion == 0 || !rules.validDigest(ref.contentHash)
  }

  ghost predicate PinnedRefused(rules: Rules, request: Request) {
    exists i :: 0 <= i < |request.pinned| && BadRef(rules, request.pinned[i])
  }

  ghost function Pinned(s: Repo, request: Request, now: Time): seq<Addition> {
    PinnedAdditions(BatchGet(s, request.owner, IDsOf(request.pinned)), RefsByID(request.pinned), request, now)
  }

  function RecordsOf(s: Repo, ids: seq<string>): seq<Record> {
    if ids == [] then []
    else RecordsOf(s, ids[..|ids| - 1]) + if ids[|ids| - 1] in s.records then [s.records[ids[|ids| - 1]]] else []
  }

  // What an exact query answers: one list, as the order is total.
  ghost function ExactAnswer(s: Repo, q: Query): seq<Record> {
    if HasSelector(q) && exists ids :: IsExactAnswer(s, q, ids) then
      var ids :| IsExactAnswer(s, q, ids);
      RecordsOf(s, ids)
    else []
  }

  function ExactAdditions(values: seq<Record>, source: Record -> MatchSource): seq<Addition> {
    if values == [] then []
    else ExactAdditions(values[..|values| - 1], source) + [Addition(values[|values| - 1], source(values[|values| - 1]), 1.0)]
  }

  function DirectSource(value: Record, request: Request): MatchSource {
    if !EmptyRef(request.entity) && value.entity == request.entity then MatchEntity
    else if request.namespace != "" && request.slotKey != "" && value.namespace == request.namespace && value.slotKey == request.slotKey then MatchSlot
    else MatchHash
  }

  function DirectQuery(k: RecallConfig, request: Request, now: Time): Query {
    Query(request.owner, request.scope, request.layers, request.kinds, now, [], [], [], false,
          request.namespace, request.slotKey, request.entity, request.contentHash, k.maxExactCandidates)
  }

  function SelectorQuery(k: RecallConfig, request: Request, plan: Plan, selector: Selector, now: Time): Query {
    var q := Query(request.owner, selector.scope, plan.layers, plan.kinds, now, [], [], [], false,
                   "", "", EntityRef("", ""), "", k.maxExactCandidates);
    match selector.kind
    case SelectorEntity => q.(entities := [selector.entity])
    case SelectorSlot => q.(slots := [(selector.namespace, selector.slotKey)])
    case SelectorContentHash => q.(contentHashes := [selector.contentHash])
    case SelectorLocalScope => q.(scopeOnly := true)
  }

  function SelectorSource(selector: Selector): MatchSource {
    match selector.kind
    case SelectorEntity => MatchEntity
    case SelectorSlot => MatchSlot
    case SelectorContentHash => MatchHash
    case SelectorLocalScope => MatchHash
  }

  // Selector after selector, until there are enough candidates.
  ghost function PlanAdditions(k: RecallConfig, s: Repo, request: Request, plan: Plan, now: Time, i: nat, adds: seq<Addition>): seq<Addition>
    requires i <= |plan.selectors|
    decreases |plan.selectors| - i
  {
    if i == |plan.selectors| then adds
    else
      var selector := plan.selectors[i];
      var more := adds + ExactAdditions(ExactAnswer(s, SelectorQuery(k, request, plan, selector, now)), _ => SelectorSource(selector));
      if |AddAll(map[], more)| >= k.maxExactCandidates then more
      else PlanAdditions(k, s, request, plan, now, i + 1, more)
  }

  ghost function QueryAdditions(k: RecallConfig, s: Repo, request: Request, plan: Option<Plan>, now: Time, adds: seq<Addition>): seq<Addition> {
    match plan
    case Some(p) => PlanAdditions(k, s, request, p, now, 0, adds)
    case None => adds + ExactAdditions(ExactAnswer(s, DirectQuery(k, request, now)), value => DirectSource(value, request))
  }

  // Some query asked, up to the one that finds enough candidates, is refused.
  ghost predicate PlanRefused(c: Config, k: RecallConfig, s: Repo, request: Request, plan: Plan, now: Time, i: nat, adds: seq<Addition>)
    requires i <= |plan.selectors|
    decreases |plan.selectors| - i
  {
    i < |plan.selectors| &&
    var q := SelectorQuery(k, request, plan, plan.selectors[i], now);
    var more := adds + ExactAdditions(ExactAnswer(s, q), _ => SelectorSource(plan.selectors[i]));
    c.queryRefused(q) || (|AddAll(map[], more)| < k.maxExactCandidates && PlanRefused(c, k, s, request, plan, now, i + 1, more))
  }

  ghost predicate QueriesRefused(c: Config, k: RecallConfig, s: Repo, request: Request, plan: Option<Plan>, now: Time, adds: seq<Addition>) {
    match plan
    case Some(p) => PlanRefused(c, k, s, request, p, now, 0, adds)
    case None => HasSelector(DirectQuery(k, request, now)) && c.queryRefused(DirectQuery(k, request, now))
  }

  // ---- The semantic search ----

  // What the search answers for a batch and a limit, and whether reloading the found
  // records fails.
  datatype Answer = SearchFails | Page(candidates: seq<(string, real)>, next: string, reloadFails: bool)

  // The search client refuses pages longer than the limit it asked for.
  ghost predicate Respects(answers: (nat, nat) -> Answer) {
    forall batch, limit :: answers(batch, limit).Page? ==> |answers(batch, limit).candidates| <= limit
  }

  // The entries of a page not met before, in order and once each.
  function Unseen(candidates: seq<(string, real)>, seen: set<string>): seq<(string, real)> {
    if candidates == [] then []
    else
      var before := Unseen(candidates[..|candidates| - 1], seen);
      var last := candidates[|candidates| - 1];
      if last.0 in seen || last.0 in Mentions(candidates[..|candidates| - 1]) then before else before + [last]
  }

  function Mentions(candidates: seq<(string, real)>): set<string> {
    set i | 0 <= i < |candidates| :: candidates[i].0
  }

  function IDsIn(candidates: seq<(string, real)>): seq<string> {
    if candidates == [] then [] else IDsIn(candidates[..|candidates| - 1]) + [candidates[|candidates| - 1].0]
  }

  // The records of a batch by their own ids.
  function ByID(values: seq<Record>): map<string, Record> {
    if values == [] then map[] else ByID(values[..|values| - 1])[values[|values| - 1].id := values[|values| - 1]]
  }

  datatype Scan = Scan(adds: seq<Addition>, scanned: nat, obsolete: nat, unknown: nat, reason: string)

  // Each entry in turn is unknown, no longer to be recalled, or added.
  function AddFound(found: map<string, Record>, request: Request, now: Time, page: seq<(string, real)>, scan: Scan): Scan {
    if page == [] then scan
    else
      var before := AddFound(found, request, now, page[..|page| - 1], scan);
      var (id, score) := page[|page| - 1];
      if id !in found then before.(unknown := before.unknown + 1)
      else if !ActiveAt(found[id], now) || !VisibleInScope(found[id], request.scope) then before.(obsolete := before.obsolete + 1)
      else before.(adds := before.adds + [Addition(found[id], MatchSemantic, score)])
  }

  function PageLimit(k: RecallConfig, scanned: nat): nat
    requires scanned <= k.maxScanned
  {
    if k.pageSize > k.maxScanned - scanned then k.maxScanned - scanned else k.pageSize
  }

  function EndReason(k: RecallConfig, scanned: nat, late: bool, cursor: string): string {
    if scanned >= k.maxScanned then "max_scan_reached"
    else if late then "time_budget_exceeded"
    else if cursor != "" then "max_batches_reached"
    else ""
  }

  // Reading one page ends the scan, or leads on to the next.
  datatype PageOutcome = Stopped(scan: Scan) | Read(scan: Scan, seen: set<string>, next: string)

  function ReadPage(k: RecallConfig, s: Repo, request: Request, now: Time, answers: (nat, nat) -> Answer, late: nat -> bool,
                    batch: nat, seen: set<string>, scan: Scan): PageOutcome
    requires scan.scanned < k.maxScanned
  {
    match answers(batch, PageLimit(k, scan.scanned))
    case SearchFails => Stopped(scan.(reason := if late(batch) then "time_budget_exceeded" else "rag_unavailable"))
    case Page(candidates, next, reloadFails) =>
      var counted := scan.(scanned := scan.scanned + |candidates|);
      if reloadFails then Stopped(counted.(reason := "repository_unavailable"))
      else
        var entries := Unseen(candidates, seen);
        Read(AddFound(ByID(BatchGet(s, request.owner, IDsIn(entries))), request, now, entries, counted), seen + Mentions(candidates), next)
  }

  // Page after page, until there are enough candidates or the scan bounds are met.
  function ScanPages(k: RecallConfig, s: Repo, request: Request, now: Time, target: nat, answers: (nat, nat) -> Answer, late: nat -> bool,
                     batch: nat, seen: set<string>, cursor: string, scan: Scan): Scan
    decreases k.maxBatches - batch
  {
    if batch >= k.maxBatches || |AddAll(map[], scan.adds)| >= target || scan.scanned >= k.maxScanned then
      scan.(reason := EndReason(k, scan.scanned, late(batch), cursor))
    else
      match ReadPage(k, s, request, now, answers, late, batch, seen, scan)
      case Stopped(stopped) => stopped
      case Read(after, nowSeen, next) =>
        if next == "" then after.(reason := EndReason(k, after.scanned, late(batch), ""))
        else ScanPages(k, s, request, now, target, answers, late, batch + 1, nowSeen, next, after)
  }

  // Everything a recall adds, in the order of its sources, with what its search counts.
  ghost function Gather(k: RecallConfig, s: Repo, request: Request, plan: Option<Plan>, now: Time, target: nat,
                        answers: (nat, nat) -> Answer, late: nat -> bool): Scan
  {
    var exact := QueryAdditions(k, s, request, plan, now, Pinned(s, request, now));
    if k.semantic then ScanPages(k, s, request, now, target, answers, late, 0, {}, "", Scan(exact, 0, 0, 0, "")) else Scan(exact, 0, 0, 0, "")
  }

  ghost function Gathering(k: RecallConfig, s: Repo, request: Request, plan: Option<Plan>, now: Time, target: nat,
                           answers: (nat, nat) -> Answer, late: nat -> bool): seq<Addition>
  {
    Gather(k, s, request, plan, now, target, answers, late).adds
  }

  // ---- A whole recall ----

  // Zero asks for the default.
  function TargetOf(k: RecallConfig, request: Request): int {
    if request.target == 0 then k.defaultTarget else request.target
  }

  function BudgetOf(k: RecallConfig, request: Request): int {
    if request.maxContextChars == 0 then k.maxContextChars else request.maxContextChars
  }

  function EffectivePlan(rules: Rules, request: Request): Option<Plan> {
    if request.plan.Some? then rules.normalPlan(request.plan.value) else None
  }

  predicate BadRequest(k: RecallConfig, rules: Rules, request: Request) {
    || !ValidOwner(request.owner) || !ValidIdentifier(request.query) || rules.scopeRefused(request.scope)
    || !(1 <= TargetOf(k, request) <= k.maxTarget) || !(1 <= BudgetOf(k, request) <= k.maxContextChars)
    || |request.pinned| > MAX_SELECTORS || (request.plan.Some? && EffectivePlan(rules, request).None?)
  }

  // A plan that cannot be executed ends the recall before anything is loaded.
  predicate NeedsClarification(rules: Rules, request: Request) {
    EffectivePlan(rules, request).Some? && !Executable(EffectivePlan(rules, request).value)
  }

  ghost predicate RecallRefused(c: Config, k: RecallConfig, rules: Rules, s: Repo, request: Request, now: Time) {
    || BadRequest(k, rules, request)
    || (!NeedsClarification(rules, request)
        && (PinnedRefused(rules, request)
            || QueriesRefused(c, k, s, request, EffectivePlan(rules, request), now, Pinned(s, request, now))))
  }

  predicate HadSelector(k: RecallConfig, request: Request, plan: Option<Plan>, now: Time) {
    |request.pinned| > 0 || (match plan case Some(p) => |p.selectors| > 0 case None => HasSelector(DirectQuery(k, request, now)))
  }

  function PinnedFiltered(s: Repo, request: Request, now: Time): nat {
    var values := BatchGet(s, request.owner, IDsOf(request.pinned));
    |values| - |PinnedAdditions(values, RefsByID(request.pinned), request, now)|
  }

  // Fewer candidates than asked for is a reason of its own when there is no other.
  function FinalReason(found: nat, target: int, reason: string): string {
    if found < target && reason == "" then "results_exhausted" else reason
  }
}
