// The generic step runner: one call executes nodes in order until one of them
// suspends the run, something stops it, or all of them are done.
module RunnerSpec {
  import opened Basics
  import opened WorkflowCore

  // The places in one loop iteration (and in the admission checks of Resume) where
  // the runner looks at the clock or at its context.
  datatype Moment =
    | AdmitCheck
    | AdmitResume
    | ResumedEventAt
    | PreCheck
    | StartedAt
    | StartedEventAt
    | FinishedAt
    | PostCheck
    | WaitCheck
    | ClosingEventAt

  datatype ContextState = ContextLive | ContextDeadline | ContextCancelled

  // What a node's error wraps, in the order the runner looks for it.
  datatype NodeError =
    | WrapsCancelled
    | WrapsDeadline
    | WrapsWorkflow(error: WfError)
    | PlainError

  datatype NodeInput<T> = NodeInput(state: WorkflowState<T>, resume: Option<ResumeCommand>, executionID: string)

  datatype NodeResult<T> =
    | NodeOk(directive: Directive, wait: Option<WaitPoint>, data: T)
    | NodeErr(error: NodeError)

  // Everything outside the runner during one call: its context and clock, and
  // what the node at each index answers to the input it is given. No reading is
  // related to any other, so every clock and every node behaviour is covered.
  datatype Env<!T> = Env(
    context: (int, Moment) -> ContextState,
    now: (int, Moment) -> Time,
    execute: (int, NodeInput<T>) -> NodeResult<T>)

  // NewRunner's checks on the node ids.
  predicate ValidNodes(nodes: seq<string>) {
    && |nodes| > 0
    && (forall i :: 0 <= i < |nodes| ==> ValidIdentifier(nodes[i]))
    && (forall i, j :: 0 <= i < j < |nodes| ==> nodes[i] != nodes[j])
  }

  // What Run and Resume return: the state, the error if any, and the observer afterwards.
  datatype Outcome<T> = Outcome(state: WorkflowState<T>, error: Option<WfError>, observer: Observer)

  function StatusForCode(code: ErrorCode): RunStatus {
    match code
    case CodeCancelled => RunCancelled
    case CodeTimeout => RunExpired
    case _ => RunFailed
  }

  function Normalize(nodeID: string, e: NodeError): WfError {
    match e
    case WrapsCancelled => WfError(CodeCancelled, nodeID)
    case WrapsDeadline => WfError(CodeTimeout, nodeID)
    case WrapsWorkflow(w) => if w.nodeID == "" then WfError(w.code, nodeID) else w
    case PlainError => WfError(CodeNodeFailed, nodeID)
  }

  // contextOrDeadlineError.
  function Stopped<T>(env: Env<T>, index: int, m: Moment, st: WorkflowState<T>): Option<WfError> {
    match env.context(index, m)
    case ContextDeadline => Some(WfError(CodeTimeout, st.control.currentNode))
    case ContextCancelled => Some(WfError(CodeCancelled, st.control.currentNode))
    case ContextLive =>
      if st.budget.deadline != ZERO_TIME && env.now(index, m) >= st.budget.deadline
      then Some(WfError(CodeTimeout, st.control.currentNode))
      else None
  }

  // The stop errors wrap the context error they come from.
  function StopAsNodeError(e: WfError): NodeError {
    if e.code.CodeCancelled? then WrapsCancelled else WrapsDeadline
  }

  datatype Emission<T> = Emission(state: WorkflowState<T>, observer: Observer, accepted: bool)

  function EventOf<T>(st: WorkflowState<T>, kind: EventType, nodeID: string, waitID: string,
                      code: Option<ErrorCode>, duration: int, at: Time): NodeEvent
  {
    NodeEvent(st.control.eventSequence, st.meta.workflowID, st.meta.runID, nodeID, kind, st.control.status,
              st.control.currentAttempt, st.control.resumeCount, waitID, code, duration, at)
  }

  function Sequenced<T>(st: WorkflowState<T>): WorkflowState<T> {
    st.(control := Touch(st.control.(eventSequence := st.control.eventSequence + 1)))
  }

  function Emit<T>(st: WorkflowState<T>, observer: Observer, kind: EventType, nodeID: string, waitID: string,
                   code: Option<ErrorCode>, duration: int, at: Time): Emission<T>
  {
    var next := Sequenced(st);
    var event := EventOf(next, kind, nodeID, waitID, code, duration, at);
    Emission(next, Observed(observer, event), Accepts(observer, event))
  }

  function StopBeforeNode<T>(st: WorkflowState<T>, observer: Observer, e: WfError): Outcome<T> {
    match Transition(st.control, StatusForCode(e.code))
    case Some(c) => Outcome(st.(control := c), Some(e), observer)
    case None => Outcome(st, Some(e), observer)
  }

  function NodeFailure<T>(st: WorkflowState<T>, observer: Observer, nodeID: string, cause: NodeError,
                          duration: int, at: Time): Outcome<T>
  {
    var e := Normalize(nodeID, cause);
    match Transition(st.control, StatusForCode(e.code))
    case None => Outcome(st, Some(e), observer)
    case Some(c) =>
      var m := Emit(st.(control := c), observer, NodeFailed, nodeID, "", Some(e.code), duration, at);
      Outcome(m.state, Some(e), m.observer)
  }

  function ObserverFailure<T>(st: WorkflowState<T>, observer: Observer, nodeID: string): Outcome<T> {
    var e := WfError(CodeObserverFailed, nodeID);
    var c := match Transition(st.control, RunFailed)
      case Some(c) => c
      case None => st.control;
    Outcome(st.(control := c.(pendingWait := None)), Some(e), observer)
  }

  // The counters at the start of one node execution.
  function Begin(c: Control, node: string): Control {
    Touch(c.(currentNode := node,
             currentAttempt := (if c.currentNode != node then 0 else c.currentAttempt) + 1,
             stepsExecuted := c.stepsExecuted + 1))
  }

  function Elapsed(from: Time, to: Time): int {
    if to - from < 0 then 0 else to - from
  }

  function ExecutionID(runID: string, node: string, attempt: int): string {
    Keyed(runID + ":" + node, if attempt < 0 then 0 else attempt)
  }

  // One loop iteration either goes on to the next node or ends the call.
  datatype Iteration<T> = Next(state: WorkflowState<T>, observer: Observer) | Done(outcome: Outcome<T>)

  predicate BudgetSpent<T>(st: WorkflowState<T>) {
    st.budget.maxSteps > 0 && st.control.stepsExecuted >= st.budget.maxSteps
  }

  function Iterate<T>(env: Env<T>, node: string, index: int, st: WorkflowState<T>, observer: Observer,
                      resume: Option<ResumeCommand>): Iteration<T>
  {
    var stop := Stopped(env, index, PreCheck, st);
    if stop.Some? then Done(StopBeforeNode(st, observer, stop.value))
    else if BudgetSpent(st) then Done(StopBeforeNode(st, observer, WfError(CodeStepBudget, node)))
    else
      var begun := st.(control := Begin(st.control, node));
      var m := Emit(begun, observer, NodeStarted, node, "", None, 0, env.now(index, StartedEventAt));
      if !m.accepted then Done(ObserverFailure(m.state, m.observer, node))
      else AfterStart(env, node, index, m.state, m.observer, resume)
  }

  function AfterStart<T>(env: Env<T>, node: string, index: int, st: WorkflowState<T>, observer: Observer,
                         resume: Option<ResumeCommand>): Iteration<T>
  {
    var input := NodeInput(st, resume, ExecutionID(st.meta.runID, node, st.control.currentAttempt));
    var output := env.execute(index, input);
    var duration := Elapsed(env.now(index, StartedAt), env.now(index, FinishedAt));
    var stop := Stopped(env, index, PostCheck, st);
    if stop.Some? then
      Done(NodeFailure(st, observer, node, StopAsNodeError(stop.value), duration, env.now(index, ClosingEventAt)))
    else
      match output
      case NodeErr(e) => Done(NodeFailure(st, observer, node, e, duration, env.now(index, ClosingEventAt)))
      case NodeOk(directive, wait, data) => Close(env, node, index, st, observer, directive, wait, data, duration)
  }

  function ContractBreach(): NodeError {
    WrapsWorkflow(Fail(CodeInvalidContract))
  }

  function Complete<T>(st: WorkflowState<T>, node: string, data: T): WorkflowState<T> {
    st.(data := data, control := Touch(st.control.(completedNodes := st.control.completedNodes + [node])))
  }

  predicate AcceptableWait<T>(st: WorkflowState<T>, node: string, wait: Option<WaitPoint>, now: Time) {
    wait.Some? && ValidWait(wait.value, now) && wait.value.runID == st.meta.runID && wait.value.nodeID == node
  }

  function Close<T>(env: Env<T>, node: string, index: int, st: WorkflowState<T>, observer: Observer,
                    directive: Directive, wait: Option<WaitPoint>, data: T, duration: int): Iteration<T>
  {
    var at := env.now(index, ClosingEventAt);
    match directive
    case UnknownDirective(_) => Done(NodeFailure(st, observer, node, ContractBreach(), duration, at))
    case DirectiveContinue =>
      if wait.Some? then Done(NodeFailure(st, observer, node, ContractBreach(), duration, at))
      else
        var m := Emit(Complete(st, node, data), observer, NodeCompleted, node, "", None, duration, at);
        if m.accepted then Next(m.state, m.observer) else Done(ObserverFailure(m.state, m.observer, node))
    case DirectiveSuspend =>
      if !AcceptableWait(st, node, wait, env.now(index, WaitCheck)) then
        Done(NodeFailure(st, observer, node, ContractBreach(), duration, at))
      else
        var held := st.(data := data, control := st.control.(pendingWait := wait));
        match Transition(held.control, RunSuspended)
        case None => Done(Outcome(held, Some(Fail(CodeInvalidState)), observer))
        case Some(c) =>
          var m := Emit(held.(control := c), observer, NodeSuspended, node, wait.value.id, None, duration, at);
          if m.accepted then Done(Outcome(m.state, None, m.observer))
          else Done(ObserverFailure(m.state, m.observer, node))
  }

  function Finish<T>(st: WorkflowState<T>, observer: Observer): Outcome<T> {
    match Transition(st.control, RunCompleted)
    case Some(c) => Outcome(st.(control := c), None, observer)
    case None => Outcome(st, Some(Fail(CodeInvalidState)), observer)
  }

  // executeFrom: only the first node it executes sees the resume command.
  function ExecuteFrom<T>(env: Env<T>, nodes: seq<string>, index: nat, st: WorkflowState<T>, observer: Observer,
                          resume: Option<ResumeCommand>): Outcome<T>
    requires index <= |nodes|
    decreases |nodes| - index
  {
    if index == |nodes| then Finish(st, observer)
    else
      match Iterate(env, nodes[index], index, st, observer, resume)
      case Done(outcome) => outcome
      case Next(st', observer') => ExecuteFrom(env, nodes, index + 1, st', observer', None)
  }

  predicate Fresh(c: Control) {
    && c.status.RunPending?
    && c.pendingWait.None?
    && c.currentNode == ""
    && c.completedNodes == []
    && c.stepsExecuted == 0
    && c.resumeCount == 0
  }

  function Refuse<T>(st: WorkflowState<T>, observer: Observer, e: WfError): Outcome<T> {
    Outcome(st, Some(e), observer)
  }

  function Run<T>(env: Env<T>, nodes: seq<string>, st: WorkflowState<T>, observer: Observer): Outcome<T> {
    if !ValidState(st) then Refuse(st, observer, StateRefusal(st).value)
    else if !Fresh(st.control) then Refuse(st, observer, Fail(CodeInvalidState))
    else
      match Transition(st.control, RunRunning)
      case None => Refuse(st, observer, Fail(CodeInvalidState))
      case Some(c) => ExecuteFrom(env, nodes, 0, st.(control := c), observer, None)
  }

  // The position of a node id, |nodes| when it is not there.
  function IndexOf(nodes: seq<string>, id: string): (i: nat)
    ensures i <= |nodes|
    ensures i < |nodes| ==> nodes[i] == id
    ensures forall j :: 0 <= j < i ==> nodes[j] != id
  {
    if nodes == [] then 0
    else if nodes[0] == id then 0
    else IndexOf(nodes[1..], id) + 1
  }

  // Everything Resume checks before it reports the resume to the observer.
  function Admission<T>(env: Env<T>, nodes: seq<string>, st: WorkflowState<T>, command: ResumeCommand): Option<WfError> {
    var c := st.control;
    if !ValidState(st) then StateRefusal(st)
    else if !c.status.RunSuspended? || c.pendingWait.None? then Some(Fail(CodeInvalidState))
    else if Stopped(env, 0, AdmitCheck, st).Some? then Stopped(env, 0, AdmitCheck, st)
    else if st.budget.maxResumes > 0 && c.resumeCount >= st.budget.maxResumes then
      Some(WfError(CodeResumeBudget, c.currentNode))
    else if BudgetSpent(st) then Some(WfError(CodeStepBudget, c.currentNode))
    else
      var wait := c.pendingWait.value;
      var refusal := ResumeRefusal(wait, command, env.now(0, AdmitResume));
      if refusal.Some? then refusal
      else if IndexOf(nodes, wait.nodeID) == |nodes| || wait.nodeID != c.currentNode then
        Some(WfError(CodeInvalidResume, wait.nodeID))
      else None
  }

  function Resumed(c: Control): Control {
    c.(pendingWait := None, resumeCount := c.resumeCount + 1)
  }

  function Resume<T>(env: Env<T>, nodes: seq<string>, st: WorkflowState<T>, command: ResumeCommand,
                     observer: Observer): Outcome<T>
  {
    var refusal := Admission(env, nodes, st, command);
    if refusal.Some? then Refuse(st, observer, refusal.value)
    else
      var wait := st.control.pendingWait.value;
      var m := Emit(st, observer, NodeResumed, wait.nodeID, wait.id, None, 0, env.now(0, ResumedEventAt));
      if !m.accepted then Refuse(st, m.observer, WfError(CodeObserverFailed, wait.nodeID))
      else
        match Transition(Resumed(m.state.control), RunRunning)
        case None => Refuse(m.state.(control := Resumed(m.state.control)), m.observer, Fail(CodeInvalidState))
        case Some(c) =>
          ExecuteFrom(env, nodes, IndexOf(nodes, wait.nodeID), m.state.(control := c), m.observer, Some(command))
  }
}
