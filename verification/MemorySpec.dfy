// The memory store: records with their lineages, and the projections queued for the
// search index. A refused operation changes nothing.
module MemorySpec {
  import opened Basics
  import opened Ordering
  import opened Scans

  datatype MemoryError = InvalidInput | NotFound | StateConflict | IdempotencyConflict | SensitiveContent

  datatype Result<+T> = Ok(value: T) | Err(error: MemoryError)

  datatype Owner = Owner(tenantID: nat, userID: nat)

  predicate ValidOwner(o: Owner) {
    o.tenantID != 0 && o.userID != 0
  }

  datatype Layer = LayerWorking | LayerSession | LayerLongTerm
  datatype ScopeType = ScopeUser | ScopeSession | ScopeWorkflow
  datatype Scope = Scope(kind: ScopeType, id: string)
  datatype Kind = KindPreference | KindFact | KindGoal | KindConstraint | KindSummary | KindOutcome
  datatype EntityRef = EntityRef(kind: string, id: string)
  datatype Authority = AuthorityUnknown | ModelInferred | TrustedSystem | UserStated | UserConfirmed

  function AuthorityRank(a: Authority): nat {
    match a
    case UserConfirmed => 4
    case UserStated => 3
    case TrustedSystem => 2
    case ModelInferred => 1
    case AuthorityUnknown => 0
  }

  datatype Status = Candidate | Active | Rejected | Superseded | Revoked | Expired

  predicate Obsolete(s: Status) {
    s.Rejected? || s.Superseded? || s.Revoked? || s.Expired?
  }

  predicate CanTransition(from: Status, to: Status) {
    match from
    case Candidate => to.Active? || to.Rejected? || to.Expired?
    case Active => to.Superseded? || to.Revoked? || to.Expired?
    case _ => false
  }

  datatype MemoryRef = MemoryRef(id: string, lineageVersion: nat, contentHash: string)

  datatype Record = Record(
    id: string,
    owner: Owner,
    layer: Layer,
    kind: Kind,
    scope: Scope,
    namespace: string,
    slotKey: string,
    entity: EntityRef,
    lineageID: string,
    lineageVersion: nat,
    rowVersion: nat,
    canonicalText: string,
    structuredValue: string,
    contentHash: string,
    authority: Authority,
    confidence: real,
    salience: real,
    source: string,
    status: Status,
    supersedesID: string,
    supersededBy: string,
    expiresAt: Option<Time>,
    createdAt: Time,
    updatedAt: Time)

  function RefOf(r: Record): MemoryRef {
    MemoryRef(r.id, r.lineageVersion, r.contentHash)
  }

  predicate ActiveAt(r: Record, now: Time) {
    r.status.Active? && (r.expiresAt.None? || now < r.expiresAt.value)
  }

  // The audit-field, content and query checks, the bounding of error codes, and the
  // version of the index new projections are meant for.
  datatype Config = Config(
    auditRefusal: (string, string) -> Option<MemoryError>,
    contentRefusal: Record -> Option<MemoryError>,
    bounded: string -> string,
    queryRefused: Query -> bool,
    projectionVersion: string)

  // Record.Validate.
  function Refusal(c: Config, r: Record, now: Time): Option<MemoryError> {
    if !ValidOwner(r.owner) || !ValidIdentifier(r.id) || !ValidIdentifier(r.lineageID) || r.lineageVersion == 0 || r.rowVersion == 0 then
      Some(InvalidInput)
    else if r.layer.LayerWorking? then Some(InvalidInput)
    else if r.layer.LayerSession?
            && (r.scope.kind.ScopeUser? || !ValidIdentifier(r.scope.id) || r.expiresAt.None? || r.expiresAt.value <= now) then
      Some(InvalidInput)
    else if r.layer.LayerLongTerm? && (!r.scope.kind.ScopeUser? || ValidIdentifier(r.scope.id)) then Some(InvalidInput)
    else if !ValidIdentifier(r.namespace) || !ValidIdentifier(r.canonicalText) || r.contentHash == "" then Some(InvalidInput)
    else if r.confidence < 0.0 || r.confidence > 1.0 || r.salience < 0.0 || r.salience > 1.0 || AuthorityRank(r.authority) == 0 then
      Some(InvalidInput)
    else if !r.status.Candidate? && !r.status.Active? then Some(InvalidInput)
    else c.contentRefusal(r)
  }

  datatype Relation = Relation(fromID: string, toID: string, kind: string, reasonCode: string)
  datatype MutationTarget = MutationTarget(id: string, rowVersion: nat, newStatus: Status)

  datatype Mutation = Mutation(
    owner: Owner,
    newMemory: Option<Record>,
    targets: seq<MutationTarget>,
    relations: seq<Relation>,
    actor: string,
    reasonCode: string,
    idempotencyKey: string,
    inputHash: string,
    occurredAt: Time)

  datatype Transition = Transition(
    owner: Owner,
    id: string,
    rowVersion: nat,
    to: Status,
    actor: string,
    reasonCode: string,
    idempotencyKey: string,
    inputHash: string,
    occurredAt: Time)

  datatype Activation = Activation(
    owner: Owner,
    candidateID: string,
    supersededID: string,
    candidateVersion: nat,
    targetVersion: nat,
    actor: string,
    reasonCode: string,
    idempotencyKey: string,
    inputHash: string,
    occurredAt: Time)

  datatype MutationResult = MutationResult(memory: Record, relations: seq<Relation>, replayed: bool)

  datatype Remembered = Remembered(result: MutationResult, inputHash: string)

  datatype ProjectionStatus = ProjectionPending | ProjectionProcessing | ProjectionCompleted | ProjectionFailed | ProjectionPermanentFailed

  datatype Projection = Projection(
    id: string,
    owner: Owner,
    memoryID: string,
    contentHash: string,
    modelVersion: string,
    status: ProjectionStatus,
    attempt: nat,
    availableAt: Time,
    claimedAt: Option<Time>,
    processedAt: Option<Time>,
    lastErrorCode: string)

  datatype Repo = Repo(
    records: map<string, Record>,
    remembered: map<(Owner, string), Remembered>,
    projections: map<string, Projection>,
    versions: map<Owner, nat>)

  const EMPTY_REPO := Repo(map[], map[], map[], map[])

  function Version(s: Repo, owner: Owner): nat {
    if owner in s.versions then s.versions[owner] else 0
  }

  function Bump(versions: map<Owner, nat>, owner: Owner): map<Owner, nat> {
    versions[owner := (if owner in versions then versions[owner] else 0) + 1]
  }

  function ProjectionID(owner: Owner, memoryID: string, contentHash: string, version: string): string {
    Decimal(owner.tenantID) + ":" + (Decimal(owner.userID) + ":" + (memoryID + ":" + (contentHash + (":" + version))))
  }

  // The outbox row an activated record leaves.
  function RowFor(c: Config, owner: Owner, r: Record, now: Time): Projection {
    Projection(ProjectionID(owner, r.id, r.contentHash, c.projectionVersion), owner, r.id, r.contentHash, c.projectionVersion,
               ProjectionPending, 0, now, None, None, "")
  }

  function Queue(c: Config, projections: map<string, Projection>, owner: Owner, r: Record, now: Time): map<string, Projection> {
    if r.status.Active? then
      var row := RowFor(c, owner, r, now);
      projections[row.id := row]
    else projections
  }

  // Remember the result under the idempotency key and count the change.
  function Finish(s: Repo, owner: Owner, key: string, result: MutationResult, inputHash: string): Repo {
    s.(remembered := s.remembered[(owner, key) := Remembered(result, inputHash)], versions := Bump(s.versions, owner))
  }

  function Replay(s: Repo, key: (Owner, string), inputHash: string): Result<MutationResult>
    requires key in s.remembered
  {
    if s.remembered[key].inputHash != inputHash then Err(IdempotencyConflict)
    else Ok(s.remembered[key].result.(replayed := true))
  }

  function Moved(r: Record, to: Status, now: Time): Record {
    r.(status := to, rowVersion := r.rowVersion + 1, updatedAt := now)
  }

  // ---- CommitMutation ----

  // The first refusal among the targets, in order.
  function TargetsRefusal(records: map<string, Record>, owner: Owner, targets: seq<MutationTarget>): Option<MemoryError> {
    if targets == [] then None
    else
      var t := targets[0];
      if t.id !in records || records[t.id].owner != owner then Some(NotFound)
      else if records[t.id].rowVersion != t.rowVersion || !CanTransition(records[t.id].status, t.newStatus) then Some(StateConflict)
      else TargetsRefusal(records, owner, targets[1..])
  }

  predicate Supersedes(targets: seq<MutationTarget>, id: string) {
    exists i :: 0 <= i < |targets| && targets[i].id == id && targets[i].newStatus.Superseded?
  }

  // Another record holds the slot the new one asks for.
  predicate HoldsSlot(value: Record, other: Record) {
    && value.status.Active? && value.slotKey != ""
    && other.owner == value.owner && other.status.Active? && other.scope == value.scope
    && other.namespace == value.namespace && other.slotKey == value.slotKey
  }

  predicate SlotTaken(records: map<string, Record>, value: Record, targets: seq<MutationTarget>) {
    exists id :: id in records && HoldsSlot(value, records[id]) && !Supersedes(targets, records[id].id)
  }

  function Retarget(r: Record, t: MutationTarget, newID: string, now: Time): Record {
    var moved := Moved(r, t.newStatus, now);
    if t.newStatus.Superseded? then moved.(supersededBy := newID) else moved
  }

  // The targets are rewritten one after the other.
  function ApplyTargets(records: map<string, Record>, targets: seq<MutationTarget>, newID: string, now: Time): map<string, Record> {
    if targets == [] then records
    else
      var before := ApplyTargets(records, targets[..|targets| - 1], newID, now);
      var t := targets[|targets| - 1];
      if t.id in before then before[t.id := Retarget(before[t.id], t, newID, now)] else before
  }

  function CommitRefusal(c: Config, s: Repo, m: Mutation, now: Time): Option<MemoryError>
    requires m.newMemory.Some?
  {
    var value := m.newMemory.value;
    if Refusal(c, value, now).Some? then Refusal(c, value, now)
    else if value.owner != m.owner then Some(NotFound)
    else if value.id in s.records then Some(StateConflict)
    else if TargetsRefusal(s.records, m.owner, m.targets).Some? then TargetsRefusal(s.records, m.owner, m.targets)
    else if SlotTaken(s.records, value, m.targets) then Some(StateConflict)
    else None
  }

  function Committed(c: Config, s: Repo, m: Mutation, now: Time): (Repo, Result<MutationResult>)
    requires m.newMemory.Some?
  {
    var value := m.newMemory.value.(createdAt := now, updatedAt := now);
    var result := MutationResult(value, m.relations, false);
    var t := s.(records := ApplyTargets(s.records, m.targets, value.id, now)[value.id := value],
                projections := Queue(c, s.projections, m.owner, value, now));
    (Finish(t, m.owner, m.idempotencyKey, result, m.inputHash), Ok(result))
  }

  // A zero occurrence time stands for the clock's reading.
  function Now(occurredAt: Time, clock: Time): Time {
    if occurredAt == ZERO_TIME then clock else occurredAt
  }

  function CommitMutation(c: Config, s: Repo, m: Mutation, clock: Time): (Repo, Result<MutationResult>) {
    var key := (m.owner, m.idempotencyKey);
    if !ValidOwner(m.owner) || m.newMemory.None? || m.idempotencyKey == "" || m.inputHash == "" then (s, Err(InvalidInput))
    else if c.auditRefusal(m.actor, m.reasonCode).Some? then (s, Err(c.auditRefusal(m.actor, m.reasonCode).value))
    else if key in s.remembered then (s, Replay(s, key, m.inputHash))
    else if CommitRefusal(c, s, m, Now(m.occurredAt, clock)).Some? then (s, Err(CommitRefusal(c, s, m, Now(m.occurredAt, clock)).value))
    else Committed(c, s, m, Now(m.occurredAt, clock))
  }

  // ---- TransitionMemory ----

  function TransitionMemory(c: Config, s: Repo, m: Transition): (Repo, Result<MutationResult>) {
    var key := (m.owner, m.idempotencyKey);
    if c.auditRefusal(m.actor, m.reasonCode).Some? then (s, Err(c.auditRefusal(m.actor, m.reasonCode).value))
    else if key in s.remembered then (s, Replay(s, key, m.inputHash))
    else if m.id !in s.records || s.records[m.id].owner != m.owner then (s, Err(NotFound))
    else if s.records[m.id].rowVersion != m.rowVersion || !CanTransition(s.records[m.id].status, m.to) then (s, Err(StateConflict))
    else
      var value := Moved(s.records[m.id], m.to, m.occurredAt);
      var result := MutationResult(value, [], false);
      var t := s.(records := s.records[m.id := value], projections := Queue(c, s.projections, m.owner, value, m.occurredAt));
      (Finish(t, m.owner, m.idempotencyKey, result, m.inputHash), Ok(result))
  }

  // ---- ActivateCandidateSuperseding ----

  predicate ValidActivation(a: Activation) {
    && ValidOwner(a.owner) && a.candidateID != "" && a.supersededID != "" && a.candidateID != a.supersededID
    && a.candidateVersion != 0 && a.targetVersion != 0 && a.idempotencyKey != "" && a.inputHash != ""
  }

  predicate MayActivate(candidate: Record, target: Record, a: Activation) {
    && candidate.rowVersion == a.candidateVersion && target.rowVersion == a.targetVersion
    && candidate.status.Candidate? && target.status.Active?
    && candidate.supersedesID == target.id
    && candidate.lineageID == target.lineageID && candidate.lineageVersion > target.lineageVersion
  }

  function Activated(c: Config, s: Repo, a: Activation, now: Time): (Repo, Result<MutationResult>)
    requires a.candidateID in s.records && a.supersededID in s.records
  {
    var target := Moved(s.records[a.supersededID], Superseded, now).(supersededBy := a.candidateID);
    var candidate := Moved(s.records[a.candidateID], Active, now);
    var result := MutationResult(candidate, [Relation(a.candidateID, a.supersededID, "supersedes", a.reasonCode)], false);
    var t := s.(records := s.records[a.supersededID := target][a.candidateID := candidate],
                projections := Queue(c, s.projections, a.owner, candidate, now));
    (Finish(t, a.owner, a.idempotencyKey, result, a.inputHash), Ok(result))
  }

  function ActivateCandidateSuperseding(c: Config, s: Repo, a: Activation, clock: Time): (Repo, Result<MutationResult>) {
    var key := (a.owner, a.idempotencyKey);
    if !ValidActivation(a) then (s, Err(InvalidInput))
    else if c.auditRefusal(a.actor, a.reasonCode).Some? then (s, Err(c.auditRefusal(a.actor, a.reasonCode).value))
    else if key in s.remembered then (s, Replay(s, key, a.inputHash))
    else if a.candidateID !in s.records || a.supersededID !in s.records
            || s.records[a.candidateID].owner != a.owner || s.records[a.supersededID].owner != a.owner then (s, Err(NotFound))
    else if !MayActivate(s.records[a.candidateID], s.records[a.supersededID], a) then (s, Err(StateConflict))
    else Activated(c, s, a, Now(a.occurredAt, clock))
  }

  // ---- Expire ----

  predicate Expires(r: Record, owner: Owner, now: Time) {
    r.owner == owner && (r.status.Active? || r.status.Candidate?) && r.expiresAt.Some? && now >= r.expiresAt.value
  }

  function ExpiringIDs(s: Repo, owner: Owner, now: Time): set<string> {
    set id | id in s.records && Expires(s.records[id], owner, now)
  }

  // A limit of zero or less is no limit.
  ghost predicate IsExpiry(s: Repo, owner: Owner, now: Time, limit: int, ids: set<string>) {
    Chosen(ExpiringIDs(s, owner, now), ids, if limit <= 0 then -1 else limit)
  }

  function ExpireEach(records: map<string, Record>, ids: set<string>, now: Time): map<string, Record> {
    map id | id in records :: if id in ids then Moved(records[id], Expired, now) else records[id]
  }

  function Expire(s: Repo, owner: Owner, now: Time, ids: set<string>): Repo {
    if ids == {} then s else s.(records := ExpireEach(s.records, ids, now), versions := Bump(s.versions, owner))
  }

  // ---- Projections ----

  predicate Claimable(p: Projection, now: Time) {
    (p.status.ProjectionPending? || p.status.ProjectionFailed?) && p.availableAt <= now
  }

  function ClaimableIDs(s: Repo, now: Time): set<string> {
    set id | id in s.projections && Claimable(s.projections[id], now)
  }

  function ClaimOne(p: Projection, now: Time): Projection {
    p.(status := ProjectionProcessing, attempt := p.attempt + 1, claimedAt := Some(now))
  }

  // A negative limit is never reached.
  ghost predicate IsClaim(s: Repo, limit: int, now: Time, ids: set<string>) {
    Chosen(ClaimableIDs(s, now), ids, limit)
  }

  function ClaimEach(projections: map<string, Projection>, ids: set<string>, now: Time): map<string, Projection> {
    map id | id in projections :: if id in ids then ClaimOne(projections[id], now) else projections[id]
  }

  function ClaimProjections(s: Repo, now: Time, ids: set<string>): Repo {
    s.(projections := ClaimEach(s.projections, ids, now))
  }

  function CompleteProjection(s: Repo, owner: Owner, id: string, now: Time): (Repo, Option<MemoryError>) {
    if id !in s.projections || s.projections[id].owner != owner then (s, Some(NotFound))
    else
      var p := s.projections[id].(status := ProjectionCompleted, processedAt := Some(now), lastErrorCode := "");
      (s.(projections := s.projections[id := p]), None)
  }

  function FailProjection(c: Config, s: Repo, owner: Owner, id: string, code: string, next: Time, permanent: bool): (Repo, Option<MemoryError>) {
    if id !in s.projections || s.projections[id].owner != owner then (s, Some(NotFound))
    else
      var p := s.projections[id].(
        status := if permanent then ProjectionPermanentFailed else ProjectionFailed, availableAt := next, lastErrorCode := c.bounded(code));
      (s.(projections := s.projections[id := p]), None)
  }

  // ---- Reading ----

  // The owner's records among the ids asked for, in their order; unknown ids are skipped.
  function BatchGet(s: Repo, owner: Owner, ids: seq<string>): seq<Record> {
    if ids == [] then []
    else
      BatchGet(s, owner, ids[..|ids| - 1]) +
      (var id := ids[|ids| - 1]; if id in s.records && s.records[id].owner == owner then [s.records[id]] else [])
  }

  // ---- Exact queries ----

  datatype Query = Query(
    owner: Owner,
    scope: Scope,
    layers: seq<Layer>,
    kinds: seq<Kind>,
    activeAt: Time,
    slots: seq<(string, string)>,
    entities: seq<EntityRef>,
    contentHashes: seq<string>,
    scopeOnly: bool,
    namespace: string,
    slotKey: string,
    entity: EntityRef,
    contentHash: string,
    limit: nat)

  predicate EmptyRef(r: EntityRef) {
    r.kind == "" && r.id == ""
  }

  predicate HasSelector(q: Query) {
    || q.scopeOnly || |q.slots| + |q.entities| + |q.contentHashes| > 0
    || (q.namespace != "" && q.slotKey != "") || !EmptyRef(q.entity) || q.contentHash != ""
  }

  // The single content hash selects nothing here, though it counts as a selector.
  predicate Selects(q: Query, r: Record) {
    && r.owner == q.owner && r.scope == q.scope && ActiveAt(r, q.activeAt)
    && (|q.layers| > 0 ==> r.layer in q.layers)
    && (|q.kinds| > 0 ==> r.kind in q.kinds)
    && (|| q.scopeOnly
        || (q.namespace != "" && q.slotKey != "" && r.namespace == q.namespace && r.slotKey == q.slotKey)
        || (!EmptyRef(q.entity) && r.entity == q.entity)
        || r.contentHash in q.contentHashes
        || (r.namespace, r.slotKey) in q.slots
        || r.entity in q.entities)
  }

  function SelectedIDs(s: Repo, q: Query): set<string> {
    set id | id in s.records && Selects(q, s.records[id])
  }

  // Newest first, then by id.
  function Newest(s: Repo): map<string, Time> {
    map id | id in s.records :: -s.records[id].createdAt
  }

  ghost predicate IsExactAnswer(s: Repo, q: Query, ids: seq<string>) {
    IsBatch(SelectedIDs(s, q), Newest(s), q.limit, ids)
  }
}
