// The event log and the progress of one run over its whole life: what a run that
// was started fresh satisfies after any number of suspends and resumes.
module RunLog {
  import opened Basics
  import opened WorkflowCore
  import opened RunnerSpec
  import opened RunnerProofs

  ghost function Count(events: seq<NodeEvent>, kind: EventType): nat {
    if events == [] then 0
    else Count(events[..|events| - 1], kind) + if events[|events| - 1].kind == kind then 1 else 0
  }

  lemma CountAppendAll(events: seq<NodeEvent>, e: NodeEvent)
    ensures forall kind :: Count(events + [e], kind) == Count(events, kind) + if e.kind == kind then 1 else 0
  {
  }

  // Numbered 1..last without gaps, every event of this run and of a real node.
  ghost predicate Numbered(meta: RunMetadata, events: seq<NodeEvent>, last: int) {
    && |events| == last
    && forall i :: 0 <= i < |events| ==>
         && events[i].sequence == i + 1
         && events[i].runID == meta.runID
         && events[i].workflowID == meta.workflowID
         && ValidIdentifier(events[i].nodeID)
  }

  // Every started execution was closed, except the `open` one still executing.
  ghost predicate Balanced(c: Control, events: seq<NodeEvent>, open: nat) {
    && Count(events, NodeStarted) == c.stepsExecuted
    && Count(events, NodeStarted)
       == Count(events, NodeCompleted) + Count(events, NodeSuspended) + Count(events, NodeFailed) + open
    && Count(events, NodeResumed) == c.resumeCount
    && Count(events, NodeSuspended) == c.resumeCount + (if c.status.RunSuspended? then 1 else 0)
  }

  ghost predicate WithinBudget(b: Budget, c: Control) {
    && (b.maxSteps > 0 ==> c.stepsExecuted <= b.maxSteps)
    && (b.maxResumes > 0 ==> c.resumeCount <= b.maxResumes)
  }

  ghost predicate Execution(events: seq<NodeEvent>, i: int) {
    0 <= i < |events| && events[i].kind.NodeStarted?
  }

  // Executions so far are of earlier nodes, or earlier attempts of the node at `index`.
  ghost predicate AttemptsBefore(nodes: seq<string>, c: Control, events: seq<NodeEvent>, index: nat)
    requires index <= |nodes|
  {
    forall i :: Execution(events, i) ==>
      || events[i].nodeID in nodes[..index]
      || (index < |nodes| && events[i].nodeID == nodes[index] == c.currentNode && events[i].attempt <= c.currentAttempt)
  }

  ghost predicate AttemptsDistinct(events: seq<NodeEvent>) {
    forall i, j :: i < j && Execution(events, i) && Execution(events, j) ==>
      (events[i].nodeID, events[i].attempt) != (events[j].nodeID, events[j].attempt)
  }

  ghost predicate NaturalAttempts(c: Control, events: seq<NodeEvent>) {
    && c.currentAttempt >= 0
    && forall i :: Execution(events, i) ==> events[i].attempt >= 1
  }

  // Everything that does not depend on where the run stands.
  ghost predicate Logged<T>(nodes: seq<string>, st: WorkflowState<T>, events: seq<NodeEvent>, index: nat, open: nat)
    requires index <= |nodes|
  {
    && ValidState(st)
    && Numbered(st.meta, events, st.control.eventSequence)
    && Balanced(st.control, events, open)
    && WithinBudget(st.budget, st.control)
    && AttemptsBefore(nodes, st.control, events, index)
    && AttemptsDistinct(events)
    && NaturalAttempts(st.control, events)
    && st.control.completedNodes == nodes[..index]
  }

  // At the head of the loop, about to execute the node at `index`.
  ghost predicate AtNode<T>(nodes: seq<string>, st: WorkflowState<T>, observer: Observer, index: nat) {
    && index <= |nodes|
    && Fits(observer, st)
    && Logged(nodes, st, observer.events, index, 0)
    && st.control.status.RunRunning?
  }

  // Between the started event of the node at `index` and the event that closes it.
  ghost predicate InNode<T>(nodes: seq<string>, st: WorkflowState<T>, observer: Observer, index: nat) {
    && index < |nodes|
    && Fits(observer, st)
    && Logged(nodes, st, observer.events, index, 1)
    && st.control.status.RunRunning?
    && st.control.currentNode == nodes[index]
  }

  // What holds between calls of the runner.
  ghost predicate Settled<T>(nodes: seq<string>, st: WorkflowState<T>, events: seq<NodeEvent>) {
    var c := st.control;
    && |c.completedNodes| <= |nodes|
    && Logged(nodes, st, events, |c.completedNodes|, 0)
    && !c.status.RunRunning?
    && (c.status.RunCompleted? <==> c.completedNodes == nodes)
    && (c.status.RunPending? ==> Fresh(c) && events == [])
    && (c.status.RunSuspended? ==>
         && |c.completedNodes| < |nodes|
         && c.currentNode == nodes[|c.completedNodes|] == c.pendingWait.value.nodeID
         && c.pendingWait.value.runID == st.meta.runID)
  }

  ghost predicate SettledOutcome<T>(nodes: seq<string>, o: Outcome<T>) {
    && Fits(o.observer, o.state)
    && Settled(nodes, o.state, o.observer.events)
  }

  // ---- One event at a time ----

  lemma AppendQuiet(nodes: seq<string>, c: Control, c': Control, events: seq<NodeEvent>, e: NodeEvent, index: nat)
    requires index <= |nodes| && !e.kind.NodeStarted?
    requires AttemptsBefore(nodes, c, events, index) && AttemptsDistinct(events) && NaturalAttempts(c, events)
    requires c'.currentNode == c.currentNode && c'.currentAttempt == c.currentAttempt
    ensures AttemptsBefore(nodes, c', events + [e], index) && AttemptsDistinct(events + [e]) && NaturalAttempts(c', events + [e])
  {
  }

  lemma AppendNumbered<T>(st: WorkflowState<T>, events: seq<NodeEvent>, kind: EventType, node: string, waitID: string,
                          code: Option<ErrorCode>, duration: int, at: Time)
    requires Numbered(st.meta, events, st.control.eventSequence) && ValidIdentifier(node)
    ensures var e := EventOf(Sequenced(st), kind, node, waitID, code, duration, at);
            Numbered(st.meta, events + [e], st.control.eventSequence + 1)
  {
  }

  lemma NodeFailureSettles<T>(nodes: seq<string>, index: nat, st: WorkflowState<T>, observer: Observer,
                              cause: NodeError, duration: int, at: Time)
    requires ValidNodes(nodes) && InNode(nodes, st, observer, index)
    ensures SettledOutcome(nodes, NodeFailure(st, observer, nodes[index], cause, duration, at))
  {
    var node := nodes[index];
    var e := Normalize(node, cause);
    var st' := st.(control := Transition(st.control, StatusForCode(e.code)).value);
    EmitFits(st', observer, NodeFailed, node, "", Some(e.code), duration, at);
    AppendNumbered(st', observer.events, NodeFailed, node, "", Some(e.code), duration, at);
    var event := EventOf(Sequenced(st'), NodeFailed, node, "", Some(e.code), duration, at);
    CountAppendAll(observer.events, event);
    AppendQuiet(nodes, st.control, Sequenced(st').control, observer.events, event, index);
    assert |nodes[..index]| == index;
  }

  lemma ShiftAttempts(nodes: seq<string>, c: Control, c': Control, events: seq<NodeEvent>, index: nat)
    requires index < |nodes| && AttemptsBefore(nodes, c, events, index)
    ensures AttemptsBefore(nodes, c', events, index + 1)
  {
  }

  lemma CompleteSettles<T>(env: Env<T>, nodes: seq<string>, index: nat, st: WorkflowState<T>, observer: Observer,
                           data: T, duration: int, at: Time)
    requires ValidNodes(nodes) && InNode(nodes, st, observer, index)
    ensures var m := Emit(Complete(st, nodes[index], data), observer, NodeCompleted, nodes[index], "", None, duration, at);
            m.accepted && AtNode(nodes, m.state, m.observer, index + 1)
  {
    var node := nodes[index];
    var st' := Complete(st, node, data);
    EmitFits(st', observer, NodeCompleted, node, "", None, duration, at);
    AppendNumbered(st', observer.events, NodeCompleted, node, "", None, duration, at);
    var event := EventOf(Sequenced(st'), NodeCompleted, node, "", None, duration, at);
    CountAppendAll(observer.events, event);
    AppendQuiet(nodes, st.control, Sequenced(st').control, observer.events, event, index);
    ShiftAttempts(nodes, Sequenced(st').control, Sequenced(st').control, observer.events + [event], index);
    assert nodes[..index + 1] == nodes[..index] + [node];
  }

  lemma SuspendSettles<T>(nodes: seq<string>, index: nat, st: WorkflowState<T>, observer: Observer, data: T,
                          wait: WaitPoint, duration: int, at: Time)
    requires ValidNodes(nodes) && InNode(nodes, st, observer, index)
    requires wait.runID == st.meta.runID && wait.nodeID == nodes[index]
    ensures var held := st.(data := data, control := st.control.(pendingWait := Some(wait)));
            var next := held.(control := Transition(held.control, RunSuspended).value);
            var m := Emit(next, observer, NodeSuspended, nodes[index], wait.id, None, duration, at);
            m.accepted && SettledOutcome(nodes, Outcome(m.state, None, m.observer))
  {
    var node := nodes[index];
    var held := st.(data := data, control := st.control.(pendingWait := Some(wait)));
    var st' := held.(control := Transition(held.control, RunSuspended).value);
    EmitFits(st', observer, NodeSuspended, node, wait.id, None, duration, at);
    AppendNumbered(st', observer.events, NodeSuspended, node, wait.id, None, duration, at);
    var event := EventOf(Sequenced(st'), NodeSuspended, node, wait.id, None, duration, at);
    CountAppendAll(observer.events, event);
    AppendQuiet(nodes, st.control, Sequenced(st').control, observer.events, event, index);
    assert |nodes[..index]| == index;
  }

  lemma CloseSettles<T>(env: Env<T>, nodes: seq<string>, index: nat, st: WorkflowState<T>, observer: Observer,
                        directive: Directive, wait: Option<WaitPoint>, data: T, duration: int)
    requires ValidNodes(nodes) && InNode(nodes, st, observer, index)
    ensures match Close(env, nodes[index], index, st, observer, directive, wait, data, duration)
            case Next(st', o) => AtNode(nodes, st', o, index + 1)
            case Done(o) => SettledOutcome(nodes, o)
  {
    var at := env.now(index, ClosingEventAt);
    NodeFailureSettles(nodes, index, st, observer, ContractBreach(), duration, at);
    CompleteSettles(env, nodes, index, st, observer, data, duration, at);
    if AcceptableWait(st, nodes[index], wait, env.now(index, WaitCheck)) {
      SuspendSettles(nodes, index, st, observer, data, wait.value, duration, at);
    }
  }

  lemma AfterStartSettles<T>(env: Env<T>, nodes: seq<string>, index: nat, st: WorkflowState<T>, observer: Observer,
                             resume: Option<ResumeCommand>)
    requires ValidNodes(nodes) && InNode(nodes, st, observer, index)
    ensures match AfterStart(env, nodes[index], index, st, observer, resume)
            case Next(st', o) => AtNode(nodes, st', o, index + 1)
            case Done(o) => SettledOutcome(nodes, o)
  {
    var node := nodes[index];
    var output := env.execute(index, NodeInput(st, resume, ExecutionID(st.meta.runID, node, st.control.currentAttempt)));
    var duration := Elapsed(env.now(index, StartedAt), env.now(index, FinishedAt));
    var at := env.now(index, ClosingEventAt);
    var stop := Stopped(env, index, PostCheck, st);
    if stop.Some? {
      NodeFailureSettles(nodes, index, st, observer, StopAsNodeError(stop.value), duration, at);
    } else if output.NodeErr? {
      NodeFailureSettles(nodes, index, st, observer, output.error, duration, at);
    } else {
      CloseSettles(env, nodes, index, st, observer, output.directive, output.wait, output.data, duration);
    }
  }

  lemma StartAttempts(nodes: seq<string>, c: Control, c': Control, events: seq<NodeEvent>, e: NodeEvent, index: nat)
    requires ValidNodes(nodes) && index < |nodes|
    requires AttemptsBefore(nodes, c, events, index) && AttemptsDistinct(events) && NaturalAttempts(c, events)
    requires c'.currentNode == nodes[index] && c'.currentAttempt == Begin(c, nodes[index]).currentAttempt
    requires e.kind.NodeStarted? && e.nodeID == nodes[index] && e.attempt == c'.currentAttempt
    ensures AttemptsBefore(nodes, c', events + [e], index) && AttemptsDistinct(events + [e]) && NaturalAttempts(c', events + [e])
  {
  }

  lemma StartSettles<T>(nodes: seq<string>, index: nat, st: WorkflowState<T>, observer: Observer, at: Time)
    requires ValidNodes(nodes) && index < |nodes| && AtNode(nodes, st, observer, index) && !BudgetSpent(st)
    ensures var begun := st.(control := Begin(st.control, nodes[index]));
            var m := Emit(begun, observer, NodeStarted, nodes[index], "", None, 0, at);
            m.accepted && InNode(nodes, m.state, m.observer, index)
  {
    var node := nodes[index];
    var begun := st.(control := Begin(st.control, node));
    EmitFits(begun, observer, NodeStarted, node, "", None, 0, at);
    AppendNumbered(begun, observer.events, NodeStarted, node, "", None, 0, at);
    var event := EventOf(Sequenced(begun), NodeStarted, node, "", None, 0, at);
    CountAppendAll(observer.events, event);
    StartAttempts(nodes, st.control, Sequenced(begun).control, observer.events, event, index);
  }

  lemma StopSettles<T>(nodes: seq<string>, index: nat, st: WorkflowState<T>, observer: Observer, e: WfError)
    requires ValidNodes(nodes) && index < |nodes| && AtNode(nodes, st, observer, index)
    ensures SettledOutcome(nodes, StopBeforeNode(st, observer, e))
  {
    hide Count;
    assert |nodes[..index]| == index;
  }

  lemma IterateSettles<T>(env: Env<T>, nodes: seq<string>, index: nat, st: WorkflowState<T>, observer: Observer,
                          resume: Option<ResumeCommand>)
    requires ValidNodes(nodes) && index < |nodes| && AtNode(nodes, st, observer, index)
    ensures match Iterate(env, nodes[index], index, st, observer, resume)
            case Next(st', o) => AtNode(nodes, st', o, index + 1)
            case Done(o) => SettledOutcome(nodes, o)
  {
    var node := nodes[index];
    var stop := Stopped(env, index, PreCheck, st);
    if stop.Some? {
      StopSettles(nodes, index, st, observer, stop.value);
    } else if BudgetSpent(st) {
      StopSettles(nodes, index, st, observer, WfError(CodeStepBudget, node));
    } else {
      var at := env.now(index, StartedEventAt);
      StartSettles(nodes, index, st, observer, at);
      var m := Emit(st.(control := Begin(st.control, node)), observer, NodeStarted, node, "", None, 0, at);
      AfterStartSettles(env, nodes, index, m.state, m.observer, resume);
    }
  }

  lemma {:induction false} ExecuteSettles<T>(env: Env<T>, nodes: seq<string>, index: nat, st: WorkflowState<T>,
                                             observer: Observer, resume: Option<ResumeCommand>)
    requires ValidNodes(nodes) && AtNode(nodes, st, observer, index)
    ensures SettledOutcome(nodes, ExecuteFrom(env, nodes, index, st, observer, resume))
    decreases |nodes| - index
  {
    if index == |nodes| {
      assert nodes[..index] == nodes;
    } else {
      IterateSettles(env, nodes, index, st, observer, resume);
      match Iterate(env, nodes[index], index, st, observer, resume)
      case Done(_) =>
      case Next(st', o) => ExecuteSettles(env, nodes, index + 1, st', o, None);
    }
  }

  lemma RunSettles<T>(env: Env<T>, nodes: seq<string>, st: WorkflowState<T>, observer: Observer)
    requires ValidNodes(nodes) && Fits(observer, st) && Settled(nodes, st, observer.events)
    ensures SettledOutcome(nodes, Run(env, nodes, st, observer))
  {
    if Fresh(st.control) {
      var started := st.(control := Transition(st.control, RunRunning).value);
      assert AtNode(nodes, started, observer, 0);
      ExecuteSettles(env, nodes, 0, started, observer, None);
    }
  }

  lemma IndexOfNode(nodes: seq<string>, i: nat)
    requires ValidNodes(nodes) && i < |nodes|
    ensures IndexOf(nodes, nodes[i]) == i
  {
  }

  lemma ResumeSettles<T>(env: Env<T>, nodes: seq<string>, st: WorkflowState<T>, command: ResumeCommand, observer: Observer)
    requires ValidNodes(nodes) && Fits(observer, st) && Settled(nodes, st, observer.events)
    ensures SettledOutcome(nodes, Resume(env, nodes, st, command, observer))
  {
    if Admission(env, nodes, st, command).None? {
      var wait := st.control.pendingWait.value;
      var index := |st.control.completedNodes|;
      IndexOfNode(nodes, index);
      var at := env.now(0, ResumedEventAt);
      EmitFits(st, observer, NodeResumed, wait.nodeID, wait.id, None, 0, at);
      AppendNumbered(st, observer.events, NodeResumed, wait.nodeID, wait.id, None, 0, at);
      var event := EventOf(Sequenced(st), NodeResumed, wait.nodeID, wait.id, None, 0, at);
      CountAppendAll(observer.events, event);
      var m := Emit(st, observer, NodeResumed, wait.nodeID, wait.id, None, 0, at);
      var started := m.state.(control := Transition(Resumed(m.state.control), RunRunning).value);
      AppendQuiet(nodes, st.control, started.control, observer.events, event, index);
      assert AtNode(nodes, started, m.observer, index);
      ExecuteSettles(env, nodes, index, started, m.observer, Some(command));
    }
  }

  // ---- Whole runs ----

  // One call of the runner: Run without a command, Resume with one.
  datatype Segment<!T> = Segment(env: Env<T>, command: Option<ResumeCommand>)

  // The run as it was created, and the calls made on it since.
  datatype History<!T> = History(initial: WorkflowState<T>, segments: seq<Segment<T>>)

  function Call<T>(nodes: seq<string>, st: WorkflowState<T>, observer: Observer, segment: Segment<T>): Outcome<T> {
    match segment.command
    case None => Run(segment.env, nodes, st, observer)
    case Some(command) => Resume(segment.env, nodes, st, command, observer)
  }

  // Chaining the calls in memory, all reporting to one collector.
  function Chain<T>(nodes: seq<string>, h: History<T>): Outcome<T>
    decreases |h.segments|
  {
    if h.segments == [] then Outcome(h.initial, None, EMPTY_COLLECTOR)
    else
      var last := |h.segments| - 1;
      var before := Chain(nodes, h.(segments := h.segments[..last]));
      Call(nodes, before.state, before.observer, h.segments[last])
  }

  // How the services build a new run.
  ghost predicate NewRun<T>(st: WorkflowState<T>) {
    ValidState(st) && Fresh(st.control) && st.control.eventSequence == 0 && st.control.currentAttempt == 0
  }

  lemma CallSettles<T>(nodes: seq<string>, st: WorkflowState<T>, observer: Observer, segment: Segment<T>)
    requires ValidNodes(nodes) && Fits(observer, st) && Settled(nodes, st, observer.events)
    ensures SettledOutcome(nodes, Call(nodes, st, observer, segment))
  {
    match segment.command
    case None => RunSettles(segment.env, nodes, st, observer);
    case Some(command) => ResumeSettles(segment.env, nodes, st, command, observer);
  }

  // After any chain of Run and Resume calls on a new run, with any nodes' answers,
  // clocks, contexts and commands: the collector took every event, and the state
  // and the log are settled.
  lemma {:induction false} ChainSettled<T>(nodes: seq<string>, h: History<T>)
    requires ValidNodes(nodes) && NewRun(h.initial)
    ensures SettledOutcome(nodes, Chain(nodes, h))
    decreases |h.segments|
  {
    if h.segments != [] {
      var last := |h.segments| - 1;
      var shorter := h.(segments := h.segments[..last]);
      ChainSettled(nodes, shorter);
      var before := Chain(nodes, shorter);
      CallSettles(nodes, before.state, before.observer, h.segments[last]);
    }
  }

  lemma ExecutionIDInjective(run: string, node: string, attempt: nat, node': string, attempt': nat)
    requires ExecutionID(run, node, attempt) == ExecutionID(run, node', attempt')
    ensures node == node' && attempt == attempt'
  {
    var left, right := run + ":" + node, run + ":" + node';
    KeyedInjective(left, attempt, right, attempt');
    assert node == left[|run| + 1..] == right[|run| + 1..] == node';
  }

  // No idempotency key is handed to two executions of a settled run.
  lemma ExecutionIDsDistinct<T>(nodes: seq<string>, st: WorkflowState<T>, events: seq<NodeEvent>, i: int, j: int)
    requires Settled(nodes, st, events)
    requires i != j && Execution(events, i) && Execution(events, j)
    ensures ExecutionID(st.meta.runID, events[i].nodeID, events[i].attempt)
         != ExecutionID(st.meta.runID, events[j].nodeID, events[j].attempt)
  {
    var run := st.meta.runID;
    var p, q := events[i], events[j];
    if ExecutionID(run, p.nodeID, p.attempt) == ExecutionID(run, q.nodeID, q.attempt) {
      ExecutionIDInjective(run, p.nodeID, p.attempt, q.nodeID, q.attempt);
    }
  }
}
