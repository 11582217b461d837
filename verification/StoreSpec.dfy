// What the in-memory durable store keeps and what each of its operations does to
// it, as functions of the contents before. A refused operation changes nothing.
module StoreSpec {
  import opened Basics
  import opened WorkflowCore

  const MIN_LEASE := SECOND
  const MAX_LEASE := DAY

  datatype Owner = Owner(tenantID: nat, ownerID: nat)

  predicate ValidOwner(o: Owner) {
    o.tenantID != 0 && o.ownerID != 0
  }

  datatype Actor = Actor(kind: string, id: string)

  predicate ValidActor(a: Actor) {
    ValidIdentifier(a.kind) && ValidIdentifier(a.id)
  }

  datatype Claim = Claim(token: string, leaseUntil: Time)

  predicate ValidClaim(c: Claim, now: Time) {
    ValidIdentifier(c.token) && c.leaseUntil > now && c.leaseUntil - now <= MAX_LEASE
  }

  datatype Envelope = Envelope(
    schemaID: string,
    schemaVersion: nat,
    definitionVersion: string,
    meta: RunMetadata,
    control: Control,
    budget: Budget,
    data: string)

  // CheckpointEnvelope.Validate: every refusal has the same code.
  predicate ValidEnvelope(e: Envelope) {
    && ValidIdentifier(e.schemaID)
    && e.schemaVersion != 0
    && ValidIdentifier(e.definitionVersion)
    && |e.data| > 0
    && e.meta.definitionVersion == e.definitionVersion
    && ValidState(WorkflowState(e.meta, e.control, e.budget, e.data))
  }

  datatype StoredWorkflow = StoredWorkflow(
    owner: Owner,
    idempotencyKey: string,
    checkpoint: Envelope,
    claim: Option<Claim>,
    createdAt: Time,
    updatedAt: Time)

  // StoredWorkflow.Validate.
  function RunRefusal(r: StoredWorkflow): Option<WfError> {
    if !ValidOwner(r.owner) then Some(Fail(CodeInvalidContract))
    else if !ValidIdentifier(r.idempotencyKey) || r.createdAt == ZERO_TIME || r.updatedAt == ZERO_TIME then
      Some(Fail(CodeInvalidContract))
    else if !ValidEnvelope(r.checkpoint) then Some(Fail(CodeCodecIncompatible))
    else None
  }

  datatype StoredWait = StoredWait(
    point: WaitPoint,
    status: WaitStatus,
    recordVersion: nat,
    claim: Option<Claim>,
    resolvedAction: Option<HumanAction>,
    resolvedBy: Option<Actor>,
    resolvedAt: Time)

  predicate AllowedWaitTransition(from: WaitStatus, to: WaitStatus) {
    match from
    case WaitPending => to.WaitProcessing? || to.WaitExpired? || to.WaitCancelled?
    case WaitProcessing => to.WaitProcessing? || to.WaitResolved? || to.WaitExpired? || to.WaitCancelled?
    case _ => false
  }

  // StoredWait.Transition; a refused transition leaves the wait as it is.
  function WaitTransition(w: StoredWait, next: WaitStatus): StoredWait {
    if AllowedWaitTransition(w.status, next)
    then w.(status := next, recordVersion := w.recordVersion + 1,
            claim := if next.WaitProcessing? then w.claim else None)
    else w
  }

  datatype Store = Store(
    runs: map<string, StoredWorkflow>,
    waits: map<string, seq<StoredWait>>,
    events: map<string, seq<NodeEvent>>)

  const EMPTY_STORE := Store(map[], map[], map[])

  function Waits(s: Store, runID: string): seq<StoredWait> {
    if runID in s.waits then s.waits[runID] else []
  }

  function Events(s: Store, runID: string): seq<NodeEvent> {
    if runID in s.events then s.events[runID] else []
  }

  // The newest wait that is not terminal.
  function CurrentWait(waits: seq<StoredWait>): Option<StoredWait> {
    if waits == [] then None
    else
      var last := waits[|waits| - 1];
      if last.status.Terminal() then CurrentWait(waits[..|waits| - 1]) else Some(last)
  }

  predicate Owned(s: Store, runID: string, owner: Owner) {
    runID in s.runs && s.runs[runID].owner == owner
  }

  predicate Live(c: Option<Claim>, now: Time) {
    c.Some? && c.value.leaseUntil > now
  }

  predicate HeldBy(c: Option<Claim>, token: string) {
    c.Some? && c.value.token == token
  }

  // ---- CreateRun ----

  predicate SameKey(existing: StoredWorkflow, run: StoredWorkflow) {
    && existing.owner == run.owner
    && existing.checkpoint.meta.workflowID == run.checkpoint.meta.workflowID
    && existing.idempotencyKey == run.idempotencyKey
  }

  predicate SameStartRequest(a: StoredWorkflow, b: StoredWorkflow) {
    && a.checkpoint.meta.workflowID == b.checkpoint.meta.workflowID
    && a.checkpoint.definitionVersion == b.checkpoint.definitionVersion
    && a.checkpoint.schemaID == b.checkpoint.schemaID
    && a.checkpoint.schemaVersion == b.checkpoint.schemaVersion
    && a.checkpoint.data == b.checkpoint.data
    && a.checkpoint.budget == b.checkpoint.budget
    && a.checkpoint.meta.source == b.checkpoint.meta.source
  }

  datatype Created = Created(run: StoredWorkflow, created: bool)

  // The run with the same key that the map iteration meets first, if there is one.
  predicate Match(s: Store, run: StoredWorkflow, found: Option<string>) {
    match found
    case Some(id) => id in s.runs && SameKey(s.runs[id], run)
    case None => forall id :: id in s.runs ==> !SameKey(s.runs[id], run)
  }

  function CreateRun(s: Store, run: StoredWorkflow, found: Option<string>): (Store, Result<Created>)
    requires found.Some? ==> found.value in s.runs
  {
    var id := run.checkpoint.meta.runID;
    if RunRefusal(run).Some? then (s, Err(RunRefusal(run).value))
    else if found.Some? then
      if SameStartRequest(s.runs[found.value], run) then (s, Ok(Created(s.runs[found.value], false)))
      else (s, Err(Fail(CodeIdempotencyConflict)))
    else if id in s.runs then (s, Err(Fail(CodeIdempotencyConflict)))
    else (s.(runs := s.runs[id := run]), Ok(Created(run, true)))
  }

  // ---- Claims ----

  datatype ClaimRunRequest = ClaimRunRequest(owner: Owner, runID: string, expectedVersion: int, claim: Claim, now: Time)

  function ClaimRefusal(owner: Owner, claim: Claim, now: Time): Option<WfError> {
    if !ValidOwner(owner) || now == ZERO_TIME || !ValidClaim(claim, now) then Some(Fail(CodeInvalidContract)) else None
  }

  function ClaimRunRefusal(s: Store, r: ClaimRunRequest): Option<WfError> {
    if ClaimRefusal(r.owner, r.claim, r.now).Some? then ClaimRefusal(r.owner, r.claim, r.now)
    else if !Owned(s, r.runID, r.owner) then Some(Fail(CodeNotFound))
    else
      var run := s.runs[r.runID];
      if !run.checkpoint.control.status.RunPending? || run.checkpoint.control.stateVersion != r.expectedVersion then
        Some(Fail(CodeStateConflict))
      else if Live(run.claim, r.now) then Some(Fail(CodeClaimConflict))
      else None
  }

  function ClaimRun(s: Store, r: ClaimRunRequest): (Store, Result<StoredWorkflow>) {
    if ClaimRunRefusal(s, r).Some? then (s, Err(ClaimRunRefusal(s, r).value))
    else
      var run := s.runs[r.runID].(claim := Some(r.claim), updatedAt := r.now);
      (s.(runs := s.runs[r.runID := run]), Ok(run))
  }

  datatype ClaimWaitRequest = ClaimWaitRequest(
    owner: Owner,
    runID: string,
    expectedVersion: int,
    command: ResumeCommand,
    actor: Actor,
    claim: Claim,
    now: Time)

  function ClaimWaitRefusal(s: Store, r: ClaimWaitRequest): Option<WfError> {
    if !ValidActor(r.actor) || ClaimRefusal(r.owner, r.claim, r.now).Some? then Some(Fail(CodeInvalidContract))
    else if !Owned(s, r.runID, r.owner) then Some(Fail(CodeNotFound))
    else
      var run := s.runs[r.runID];
      var waits := Waits(s, r.runID);
      if !run.checkpoint.control.status.RunSuspended? || run.checkpoint.control.stateVersion != r.expectedVersion then
        Some(Fail(CodeStateConflict))
      else if waits == [] then Some(Fail(CodeNotFound))
      else
        var wait := waits[|waits| - 1];
        if wait.status.Terminal() then Some(Fail(CodeStateConflict))
        else if wait.status.WaitProcessing? && Live(wait.claim, r.now) then Some(Fail(CodeClaimConflict))
        else ResumeRefusal(wait.point, r.command, r.now)
  }

  function ClaimWait(s: Store, r: ClaimWaitRequest): (Store, Result<StoredWorkflow>) {
    if ClaimWaitRefusal(s, r).Some? then (s, Err(ClaimWaitRefusal(s, r).value))
    else
      var waits := Waits(s, r.runID);
      var last := |waits| - 1;
      var wait := waits[last].(status := WaitProcessing, recordVersion := waits[last].recordVersion + 1, claim := Some(r.claim));
      var run := s.runs[r.runID].(claim := Some(r.claim), updatedAt := r.now);
      (s.(runs := s.runs[r.runID := run], waits := s.waits[r.runID := waits[last := wait]]), Ok(run))
  }

  datatype RenewRequest = RenewRequest(owner: Owner, runID: string, token: string, until: Time, now: Time)

  function RenewRefusal(s: Store, r: RenewRequest): Option<WfError> {
    if r.until <= r.now || r.until - r.now > MAX_LEASE then Some(Fail(CodeInvalidContract))
    else if !Owned(s, r.runID, r.owner) then Some(Fail(CodeNotFound))
    else if !HeldBy(s.runs[r.runID].claim, r.token) || !Live(s.runs[r.runID].claim, r.now) then Some(Fail(CodeLeaseLost))
    else None
  }

  predicate LastHeldBy(waits: seq<StoredWait>, token: string) {
    waits != [] && waits[|waits| - 1].status.WaitProcessing? && HeldBy(waits[|waits| - 1].claim, token)
  }

  function RenewClaim(s: Store, r: RenewRequest): (Store, Option<WfError>) {
    if RenewRefusal(s, r).Some? then (s, RenewRefusal(s, r))
    else
      var claim := Some(Claim(r.token, r.until));
      var run := s.runs[r.runID].(claim := claim, updatedAt := r.now);
      var waits := Waits(s, r.runID);
      var last := |waits| - 1;
      (s.(runs := s.runs[r.runID := run],
          waits := if LastHeldBy(waits, r.token)
                   then s.waits[r.runID := waits[last := waits[last].(claim := claim)]]
                   else s.waits),
       None)
  }

  // ---- CommitExecution ----

  datatype CommitRequest = CommitRequest(
    owner: Owner,
    runID: string,
    token: string,
    expectedVersion: int,
    checkpoint: Envelope,
    events: seq<NodeEvent>,
    resolvedWaitID: string,
    resolvedAction: Option<HumanAction>,
    actor: Option<Actor>,
    now: Time)

  predicate EventInPlace(e: NodeEvent, runID: string, sequence: int) {
    && e.runID == runID
    && e.sequence == sequence
    && ValidIdentifier(e.workflowID)
    && ValidIdentifier(e.nodeID)
  }

  // validateCommittedEvents.
  predicate Contiguous(previous: int, final: int, runID: string, events: seq<NodeEvent>) {
    if |events| == 0 then final == previous
    else
      && |events| == final - previous
      && forall i :: 0 <= i < |events| ==> EventInPlace(events[i], runID, previous + i + 1)
  }

  predicate ClaimedWaitMatches(waits: seq<StoredWait>, waitID: string, token: string) {
    LastHeldBy(waits, token) && waits[|waits| - 1].point.id == waitID
  }

  function ResolveLast(waits: seq<StoredWait>, r: CommitRequest): seq<StoredWait>
    requires waits != []
  {
    var last := |waits| - 1;
    waits[last := WaitTransition(waits[last], WaitResolved).(
      resolvedAction := r.resolvedAction, resolvedBy := r.actor, resolvedAt := r.now)]
  }

  // The waits after resolving the claimed one.
  function Resolved(waits: seq<StoredWait>, r: CommitRequest): Result<seq<StoredWait>> {
    if r.resolvedWaitID == "" then Ok(waits)
    else if !ClaimedWaitMatches(waits, r.resolvedWaitID, r.token) then Err(Fail(CodeStateConflict))
    else if r.actor.None? || !ValidActor(r.actor.value) then Err(Fail(CodeInvalidContract))
    else Ok(ResolveLast(waits, r))
  }

  function NewWait(point: WaitPoint): StoredWait {
    StoredWait(point, WaitPending, 1, None, None, None, ZERO_TIME)
  }

  // ... and after appending the one the checkpoint is suspended on.
  function Suspended(waits: seq<StoredWait>, checkpoint: Envelope): Result<seq<StoredWait>> {
    if !checkpoint.control.status.RunSuspended? then Ok(waits)
    else
      match checkpoint.control.pendingWait
      case None => Err(Fail(CodeStateConflict))
      case Some(point) =>
        if waits != [] && waits[|waits| - 1].point.id == point.id then Err(Fail(CodeStateConflict))
        else Ok(waits + [NewWait(point)])
  }

  function CommittedWaits(waits: seq<StoredWait>, r: CommitRequest): Result<seq<StoredWait>> {
    match Resolved(waits, r)
    case Err(e) => Err(e)
    case Ok(resolved) => Suspended(resolved, r.checkpoint)
  }

  function CommitRefusal(s: Store, r: CommitRequest): Option<WfError> {
    if r.now == ZERO_TIME || !ValidIdentifier(r.token) then Some(Fail(CodeInvalidContract))
    else if !ValidEnvelope(r.checkpoint) then Some(Fail(CodeCodecIncompatible))
    else if !Owned(s, r.runID, r.owner) then Some(Fail(CodeNotFound))
    else
      var run := s.runs[r.runID];
      var before, after := run.checkpoint.control, r.checkpoint.control;
      if !HeldBy(run.claim, r.token) || !Live(run.claim, r.now) then Some(Fail(CodeLeaseLost))
      else if before.stateVersion != r.expectedVersion then Some(Fail(CodeStateConflict))
      else if r.checkpoint.meta.runID != r.runID || after.stateVersion <= r.expectedVersion then Some(Fail(CodeStateConflict))
      else if !Contiguous(before.eventSequence, after.eventSequence, r.runID, r.events) then Some(Fail(CodeStateConflict))
      else
        match CommittedWaits(Waits(s, r.runID), r)
        case Err(e) => Some(e)
        case Ok(_) => None
  }

  function Commit(s: Store, r: CommitRequest): (Store, Option<WfError>) {
    if CommitRefusal(s, r).Some? then (s, CommitRefusal(s, r))
    else
      var run := s.runs[r.runID].(checkpoint := r.checkpoint, claim := None, updatedAt := r.now);
      (Store(s.runs[r.runID := run],
             s.waits[r.runID := CommittedWaits(Waits(s, r.runID), r).value],
             s.events[r.runID := Events(s, r.runID) + r.events]),
       None)
  }
}
