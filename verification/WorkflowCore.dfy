// The vocabulary of the workflow engine: run and wait states, wait points and
// resume commands, node events, and the observers that receive them.
module WorkflowCore {
  import opened Basics

  datatype RunStatus =
    | RunPending
    | RunRunning
    | RunSuspended
    | RunCompleted
    | RunFailed
    | RunCancelled
    | RunExpired
  {
    predicate Terminal() {
      RunCompleted? || RunFailed? || RunCancelled? || RunExpired?
    }
  }

  datatype WaitStatus = WaitPending | WaitProcessing | WaitResolved | WaitExpired | WaitCancelled
  {
    predicate Terminal() {
      WaitResolved? || WaitExpired? || WaitCancelled?
    }
  }

  // Node outputs and client commands carry these as free strings, so the values
  // outside the known set are modelled too.
  datatype WaitKind = KindApproval | KindReview | KindEdit | KindInput | UnknownKind(kind: string)
  datatype HumanAction = ActionApprove | ActionReject | ActionSubmitEdit | ActionCancel | UnknownAction(action: string)
  datatype Directive = DirectiveContinue | DirectiveSuspend | UnknownDirective(directive: string)

  datatype ErrorCode =
    | CodeInvalidContract
    | CodeInvalidState
    | CodeStepBudget
    | CodeResumeBudget
    | CodeTimeout
    | CodeCancelled
    | CodeNodeFailed
    | CodeObserverFailed
    | CodeInvalidResume
    | CodeWaitExpired
    | CodeNotFound
    | CodeIdempotencyConflict
    | CodeClaimConflict
    | CodeLeaseLost
    | CodeStateConflict
    | CodeCodecIncompatible
    | CodeCheckpointTooLarge
    | CodeOther(name: string)

  datatype WfError = WfError(code: ErrorCode, nodeID: string)

  datatype Result<+T> = Ok(value: T) | Err(error: WfError)

  function Fail(code: ErrorCode): WfError {
    WfError(code, "")
  }

  datatype SourceRef = SourceRef(kind: string, id: string)

  datatype RunMetadata = RunMetadata(
    workflowID: string,
    definitionVersion: string,
    runID: string,
    source: SourceRef,
    startedAt: Time)

  predicate ValidMeta(m: RunMetadata) {
    && ValidIdentifier(m.workflowID)
    && ValidIdentifier(m.definitionVersion)
    && ValidIdentifier(m.runID)
    && m.startedAt != ZERO_TIME
    && (ValidIdentifier(m.source.kind) <==> ValidIdentifier(m.source.id))
  }

  // A zero limit or a zero deadline means "no limit".
  datatype Budget = Budget(maxSteps: int, maxResumes: int, deadline: Time)

  predicate ValidBudget(b: Budget) {
    b.maxSteps >= 0 && b.maxResumes >= 0
  }

  datatype WaitPoint = WaitPoint(
    id: string,
    runID: string,
    nodeID: string,
    kind: WaitKind,
    version: nat,
    contentHash: string,
    allowedActions: seq<HumanAction>,
    payloadRef: string,
    expiresAt: Time)

  predicate DistinctKnownActions(actions: seq<HumanAction>) {
    && (forall i :: 0 <= i < |actions| ==> !actions[i].UnknownAction?)
    && (forall i, j :: 0 <= i < j < |actions| ==> actions[i] != actions[j])
  }

  // WaitRequest.Validate.
  predicate ValidWait(p: WaitPoint, now: Time) {
    && ValidIdentifier(p.id)
    && ValidIdentifier(p.runID)
    && ValidIdentifier(p.nodeID)
    && p.version != 0
    && ValidIdentifier(p.contentHash)
    && !p.kind.UnknownKind?
    && |p.allowedActions| > 0
    && DistinctKnownActions(p.allowedActions)
    && p.expiresAt != ZERO_TIME
    && p.expiresAt > now
  }

  // WaitRequest.Validate's loop over the allowed actions.
  method CheckActions(actions: seq<HumanAction>) returns (ok: bool)
    ensures ok == DistinctKnownActions(actions)
  {
    var seen: set<HumanAction> := {};
    for i := 0 to |actions|
      invariant seen == set j | 0 <= j < i :: actions[j]
      invariant DistinctKnownActions(actions[..i])
    {
      if actions[i].UnknownAction? {
        return false;
      }
      if actions[i] in seen {
        return false;
      }
      seen := seen + {actions[i]};
      assert actions[..i + 1] == actions[..i] + [actions[i]];
    }
    assert actions[..|actions|] == actions;
    return true;
  }

  method CheckWait(p: WaitPoint, now: Time) returns (ok: bool)
    ensures ok == ValidWait(p, now)
  {
    var actionsOk := CheckActions(p.allowedActions);
    ok := && ValidIdentifier(p.id) && ValidIdentifier(p.runID) && ValidIdentifier(p.nodeID)
          && p.version != 0 && ValidIdentifier(p.contentHash)
          && !p.kind.UnknownKind?
          && |p.allowedActions| > 0
          && actionsOk
          && p.expiresAt != ZERO_TIME && p.expiresAt > now;
  }

  datatype ResumeCommand = ResumeCommand(
    runID: string,
    waitID: string,
    version: nat,
    contentHash: string,
    action: HumanAction,
    payloadRef: string)

  // WaitPoint.ValidateResume: None when the command is accepted.
  function ResumeRefusal(p: WaitPoint, c: ResumeCommand, now: Time): Option<WfError> {
    if p.expiresAt <= now then Some(Fail(CodeWaitExpired))
    else if !ValidWait(p, now) then Some(Fail(CodeInvalidResume))
    else if c.runID != p.runID || c.waitID != p.id || c.version != p.version || c.contentHash != p.contentHash then
      Some(Fail(CodeInvalidResume))
    else if c.action.UnknownAction? || c.action !in p.allowedActions then Some(Fail(CodeInvalidResume))
    else None
  }

  method ValidateResume(p: WaitPoint, c: ResumeCommand, now: Time) returns (refusal: Option<WfError>)
    ensures refusal == ResumeRefusal(p, c, now)
  {
    if p.expiresAt <= now {
      return Some(Fail(CodeWaitExpired));
    }
    var valid := CheckWait(p, now);
    if !valid {
      return Some(Fail(CodeInvalidResume));
    }
    if c.runID != p.runID || c.waitID != p.id || c.version != p.version || c.contentHash != p.contentHash {
      return Some(Fail(CodeInvalidResume));
    }
    if c.action.UnknownAction? || c.action !in p.allowedActions {
      return Some(Fail(CodeInvalidResume));
    }
    return None;
  }

  datatype Control = Control(
    status: RunStatus,
    currentNode: string,
    completedNodes: seq<string>,
    pendingWait: Option<WaitPoint>,
    stateVersion: nat,
    stepsExecuted: int,
    resumeCount: int,
    eventSequence: int,
    currentAttempt: int)

  predicate AllowedTransition(from: RunStatus, to: RunStatus) {
    match from
    case RunPending => to.RunRunning? || to.RunCancelled? || to.RunExpired?
    case RunRunning => to.RunSuspended? || to.Terminal()
    case RunSuspended => to.RunRunning? || to.RunFailed? || to.RunCancelled? || to.RunExpired?
    case _ => false
  }

  // ControlState.Transition: None is the refused transition, which changes nothing.
  function Transition(c: Control, next: RunStatus): (r: Option<Control>) {
    if AllowedTransition(c.status, next)
    then Some(c.(status := next, stateVersion := c.stateVersion + 1))
    else None
  }

  function Touch(c: Control): Control {
    c.(stateVersion := c.stateVersion + 1)
  }

  datatype WorkflowState<T> = WorkflowState(meta: RunMetadata, control: Control, budget: Budget, data: T)

  predicate ValidControl(c: Control) {
    && c.stepsExecuted >= 0 && c.resumeCount >= 0 && c.eventSequence >= 0 && c.currentAttempt >= 0
    && (if c.status.RunSuspended?
        then c.pendingWait.Some? && ValidIdentifier(c.currentNode)
        else c.pendingWait.None?)
  }

  // WorkflowState.Validate: the code of the first check that fails.
  function StateRefusal<T>(st: WorkflowState<T>): Option<WfError> {
    if !ValidMeta(st.meta) || !ValidBudget(st.budget) then Some(Fail(CodeInvalidContract))
    else if !ValidControl(st.control) then Some(Fail(CodeInvalidState))
    else None
  }

  predicate ValidState<T>(st: WorkflowState<T>) {
    StateRefusal(st).None?
  }

  datatype EventType = NodeStarted | NodeCompleted | NodeSuspended | NodeResumed | NodeFailed | NodeSkipped

  datatype NodeEvent = NodeEvent(
    sequence: int,
    workflowID: string,
    runID: string,
    nodeID: string,
    kind: EventType,
    status: RunStatus,
    attempt: int,
    resumeCount: int,
    waitID: string,
    errorCode: Option<ErrorCode>,
    duration: int,
    occurredAt: Time)

  // What a runner reports to: the collector the durable runtime uses, or any other
  // observer, of which only its verdict on the n-th event matters.
  datatype Observer =
    | Collecting(events: seq<NodeEvent>, lastByRun: map<string, int>)
    | Custom(events: seq<NodeEvent>, verdict: nat -> bool)

  const EMPTY_COLLECTOR := Collecting([], map[])

  function LastSequence(lastByRun: map<string, int>, runID: string): int {
    if runID in lastByRun then lastByRun[runID] else 0
  }

  predicate CollectorAccepts(lastByRun: map<string, int>, e: NodeEvent) {
    && e.sequence >= 1
    && ValidIdentifier(e.workflowID)
    && ValidIdentifier(e.runID)
    && ValidIdentifier(e.nodeID)
    && e.sequence > LastSequence(lastByRun, e.runID)
  }

  predicate Accepts(o: Observer, e: NodeEvent) {
    match o
    case Collecting(_, last) => CollectorAccepts(last, e)
    case Custom(events, verdict) => verdict(|events|)
  }

  // Observer.Observe. A collector drops the event it refuses.
  function Observed(o: Observer, e: NodeEvent): Observer {
    match o
    case Collecting(events, last) =>
      if CollectorAccepts(last, e) then Collecting(events + [e], last[e.runID := e.sequence]) else o
    case Custom(events, verdict) => Custom(events + [e], verdict)
  }

  // The collector behind Observer.Collecting.
  class MemoryCollector {
    var events: seq<NodeEvent>
    var lastByRun: map<string, int>

    function Contents(): (o: Observer)
      reads this
    {
      Collecting(events, lastByRun)
    }

    constructor ()
      ensures Contents() == EMPTY_COLLECTOR
    {
      events := [];
      lastByRun := map[];
    }

    method Observe(e: NodeEvent) returns (accepted: bool)
      modifies this
      ensures accepted == Accepts(old(Contents()), e)
      ensures Contents() == Observed(old(Contents()), e)
    {
      if e.sequence < 1 || !ValidIdentifier(e.workflowID) || !ValidIdentifier(e.runID) || !ValidIdentifier(e.nodeID) {
        return false;
      }
      if e.sequence <= LastSequence(lastByRun, e.runID) {
        return false;
      }
      lastByRun := lastByRun[e.runID := e.sequence];
      events := events + [e];
      return true;
    }
  }
}
