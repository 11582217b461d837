// What a call of the runner comes to, told from the nodes' answers, the clock and the
// context alone: which nodes are called, with what, and what their answers make of the
// run.
module RunnerJourney {
  import opened Basics
  import opened WorkflowCore
  import opened RunnerSpec
  import opened RunnerProofs

  // ---- One node ----

  // The context is live and the deadline has not come.
  ghost predicate Goes<T>(env: Env<T>, index: int, m: Moment, deadline: Time) {
    env.context(index, m).ContextLive? && (deadline == ZERO_TIME || env.now(index, m) < deadline)
  }

  // Otherwise the run ends cancelled or timed out.
  function StopCode<T>(env: Env<T>, index: int, m: Moment): ErrorCode {
    if env.context(index, m).ContextCancelled? then CodeCancelled else CodeTimeout
  }

  // The node's answer is to go on to the next node.
  ghost predicate Continues<T>(env: Env<T>, index: int, input: NodeInput<T>) {
    var answer := env.execute(index, input);
    && Goes(env, index, PreCheck, input.state.budget.deadline) && Goes(env, index, PostCheck, input.state.budget.deadline)
    && answer.NodeOk? && answer.directive.DirectiveContinue? && answer.wait.None?
  }

  // The node's answer is to wait for a human, at a wait of its own.
  ghost predicate Suspends<T>(env: Env<T>, index: int, input: NodeInput<T>) {
    var answer := env.execute(index, input);
    && Goes(env, index, PreCheck, input.state.budget.deadline) && Goes(env, index, PostCheck, input.state.budget.deadline)
    && answer.NodeOk? && answer.directive.DirectiveSuspend? && answer.wait.Some?
    && ValidWait(answer.wait.value, env.now(index, WaitCheck))
    && answer.wait.value.runID == input.state.meta.runID && answer.wait.value.nodeID == input.state.control.currentNode
  }

  // Why an answer that is neither ends the run.
  function RejectCode<T>(env: Env<T>, index: int, input: NodeInput<T>): ErrorCode {
    var deadline := input.state.budget.deadline;
    var answer := env.execute(index, input);
    if !env.context(index, PostCheck).ContextLive? || (deadline != ZERO_TIME && env.now(index, PostCheck) >= deadline) then
      StopCode(env, index, PostCheck)
    else if answer.NodeOk? then CodeInvalidContract
    else
      match answer.error
      case WrapsCancelled => CodeCancelled
      case WrapsDeadline => CodeTimeout
      case WrapsWorkflow(e) => e.code
      case PlainError => CodeNodeFailed
  }

  // ---- The nodes of a call ----

  // Input i was given to node start + i: the first with the data of the run and the
  // command, each further one with the data the node before it answered.
  ghost predicate Given<T>(env: Env<T>, nodes: seq<string>, start: nat, st: WorkflowState<T>, resume: Option<ResumeCommand>,
                           inputs: seq<NodeInput<T>>, i: nat)
    requires i < |inputs| && start + |inputs| <= |nodes|
  {
    var input, node := inputs[i], nodes[start + i];
    var attempt := if i == 0 && st.control.currentNode == node then st.control.currentAttempt + 1 else 1;
    && input.state.meta == st.meta && input.state.budget == st.budget
    && input.state.control.status.RunRunning? && input.state.control.currentNode == node
    && input.state.control.currentAttempt == attempt
    && input.state.control.stepsExecuted == st.control.stepsExecuted + i + 1
    && (st.budget.maxSteps > 0 ==> st.control.stepsExecuted + i < st.budget.maxSteps)
    && input.state.control.completedNodes == st.control.completedNodes + nodes[start..start + i]
    && input.resume == (if i == 0 then resume else None)
    && input.executionID == Keyed(st.meta.runID + ":" + node, if attempt < 0 then 0 else attempt)
    && (i == 0 ==> input.state.data == st.data)
    && (i > 0 ==>
          Continues(env, start + i - 1, inputs[i - 1]) && input.state.data == env.execute(start + i - 1, inputs[i - 1]).data)
  }

  ghost predicate Called<T>(env: Env<T>, nodes: seq<string>, start: nat, st: WorkflowState<T>, resume: Option<ResumeCommand>,
                            inputs: seq<NodeInput<T>>)
  {
    start + |inputs| <= |nodes| && forall i :: 0 <= i < |inputs| ==> Given(env, nodes, start, st, resume, inputs, i)
  }

  // The outcome has the data of the last answer, or the run's own when no node was called.
  ghost predicate AnsweredData<T>(env: Env<T>, start: nat, st: WorkflowState<T>, inputs: seq<NodeInput<T>>, data: T) {
    if inputs == [] then data == st.data
    else
      var answer := env.execute(start + |inputs| - 1, inputs[|inputs| - 1]);
      answer.NodeOk? && data == answer.data
  }

  ghost predicate LastContinues<T>(env: Env<T>, start: nat, inputs: seq<NodeInput<T>>) {
    inputs != [] ==> Continues(env, start + |inputs| - 1, inputs[|inputs| - 1])
  }

  // Every node answered to go on.
  ghost predicate Completes<T>(env: Env<T>, nodes: seq<string>, start: nat, st: WorkflowState<T>, inputs: seq<NodeInput<T>>, o: Outcome<T>) {
    && start + |inputs| == |nodes| && LastContinues(env, start, inputs)
    && o.state.control.status.RunCompleted? && o.error.None?
    && AnsweredData(env, start, st, inputs, o.state.data)
    && o.state.control.completedNodes == st.control.completedNodes + nodes[start..]
  }

  // The last node called suspended the run on the wait it answered.
  ghost predicate Pauses<T>(env: Env<T>, start: nat, st: WorkflowState<T>, inputs: seq<NodeInput<T>>, o: Outcome<T>) {
    && inputs != [] && Suspends(env, start + |inputs| - 1, inputs[|inputs| - 1])
    && o.state.control.status.RunSuspended? && o.error.None?
    && AnsweredData(env, start, st, inputs, o.state.data)
    && o.state.control.pendingWait == env.execute(start + |inputs| - 1, inputs[|inputs| - 1]).wait
    && o.state.control.currentNode == inputs[|inputs| - 1].state.control.currentNode
  }

  ghost predicate EndsWith<T>(o: Outcome<T>, code: ErrorCode) {
    && o.error.Some? && o.error.value.code == code && o.state.control.pendingWait.None?
    && o.state.control.status == (match code case CodeCancelled => RunCancelled case CodeTimeout => RunExpired case _ => RunFailed)
  }

  // Something stopped the run before the next node was called.
  ghost predicate Halts<T>(env: Env<T>, nodes: seq<string>, start: nat, st: WorkflowState<T>, inputs: seq<NodeInput<T>>, o: Outcome<T>) {
    var next := start + |inputs|;
    && next < |nodes| && LastContinues(env, start, inputs)
    && AnsweredData(env, start, st, inputs, o.state.data)
    && if !Goes(env, next, PreCheck, st.budget.deadline) then EndsWith(o, StopCode(env, next, PreCheck))
       else st.budget.maxSteps > 0 && st.control.stepsExecuted + |inputs| >= st.budget.maxSteps && EndsWith(o, CodeStepBudget)
  }

  // The last node called failed, or answered what is neither: its data is dropped.
  ghost predicate Fails<T>(env: Env<T>, start: nat, inputs: seq<NodeInput<T>>, o: Outcome<T>) {
    && inputs != []
    && var index, last := start + |inputs| - 1, inputs[|inputs| - 1];
       && !Continues(env, index, last) && !Suspends(env, index, last)
       && o.state.data == last.state.data
       && EndsWith(o, RejectCode(env, index, last))
  }

  // The observer refused an event; a collector that fits the run never does.
  ghost predicate Unobserved<T>(env: Env<T>, start: nat, st: WorkflowState<T>, inputs: seq<NodeInput<T>>, o: Outcome<T>) {
    && (inputs != [] ==>
          var index, last := start + |inputs| - 1, inputs[|inputs| - 1]; Continues(env, index, last) || Suspends(env, index, last))
    && AnsweredData(env, start, st, inputs, o.state.data)
    && EndsWith(o, CodeObserverFailed)
  }

  // What calling these nodes comes to.
  ghost predicate Journey<T>(env: Env<T>, nodes: seq<string>, start: nat, st: WorkflowState<T>, observer: Observer,
                             resume: Option<ResumeCommand>, inputs: seq<NodeInput<T>>, o: Outcome<T>)
  {
    && Called(env, nodes, start, st, resume, inputs)
    && (|| Completes(env, nodes, start, st, inputs, o)
        || Pauses(env, start, st, inputs, o)
        || Halts(env, nodes, start, st, inputs, o)
        || Fails(env, start, inputs, o)
        || (!Fits(observer, st) && Unobserved(env, start, st, inputs, o)))
  }

  // ---- What the observer is told ----

  ghost predicate Names<T>(e: NodeEvent, input: NodeInput<T>) {
    && e.workflowID == input.state.meta.workflowID && e.runID == input.state.meta.runID
    && e.nodeID == input.state.control.currentNode
    && e.attempt == input.state.control.currentAttempt && e.resumeCount == input.state.control.resumeCount
  }

  ghost predicate TellsStart<T>(env: Env<T>, index: int, input: NodeInput<T>, e: NodeEvent) {
    && Names(e, input) && e.sequence == input.state.control.eventSequence
    && e.kind == NodeStarted && e.status == RunRunning && e.waitID == "" && e.errorCode.None?
    && e.duration == 0 && e.occurredAt == env.now(index, StartedEventAt)
  }

  // The event closing the execution carries its outcome and how long it took.
  ghost predicate TellsEnd<T>(env: Env<T>, index: int, input: NodeInput<T>, e: NodeEvent) {
    var taken := env.now(index, FinishedAt) - env.now(index, StartedAt);
    && Names(e, input) && e.sequence == input.state.control.eventSequence + 1
    && e.duration == (if taken < 0 then 0 else taken) && e.occurredAt == env.now(index, ClosingEventAt)
    && if Continues(env, index, input) then
         e.kind == NodeCompleted && e.status == RunRunning && e.waitID == "" && e.errorCode.None?
       else if Suspends(env, index, input) then
         e.kind == NodeSuspended && e.status == RunSuspended
         && e.waitID == env.execute(index, input).wait.value.id && e.errorCode.None?
       else
         var code := RejectCode(env, index, input);
         && e.kind == NodeFailed && e.waitID == "" && e.errorCode == Some(code)
         && e.status == (match code case CodeCancelled => RunCancelled case CodeTimeout => RunExpired case _ => RunFailed)
  }

  // Two events of each node called, in order, and nothing else.
  ghost predicate Reported<T>(env: Env<T>, start: nat, inputs: seq<NodeInput<T>>, before: seq<NodeEvent>, after: seq<NodeEvent>) {
    && |after| == |before| + 2 * |inputs| && before <= after
    && forall i :: 0 <= i < |inputs| ==>
         && TellsStart(env, start + i, inputs[i], after[|before| + 2 * i])
         && TellsEnd(env, start + i, inputs[i], after[|before| + 2 * i + 1])
  }

  // ---- One loop iteration ----

  // The node is called.
  ghost predicate Enters<T>(env: Env<T>, node: string, index: nat, st: WorkflowState<T>, observer: Observer) {
    && Stopped(env, index, PreCheck, st).None? && !BudgetSpent(st)
    && Emit(st.(control := Begin(st.control, node)), observer, NodeStarted, node, "", None, 0, env.now(index, StartedEventAt)).accepted
  }

  // What the node is given.
  function InputOf<T>(st: WorkflowState<T>, node: string, resume: Option<ResumeCommand>): NodeInput<T> {
    var begun := Sequenced(st.(control := Begin(st.control, node)));
    NodeInput(begun, resume, ExecutionID(st.meta.runID, node, begun.control.currentAttempt))
  }

  ghost predicate Ready<T>(st: WorkflowState<T>) {
    st.control.status.RunRunning? && st.control.pendingWait.None?
  }

  // The iteration leads on from the node's answer.
  ghost predicate LeadsOn<T>(env: Env<T>, node: string, index: nat, st: WorkflowState<T>, input: NodeInput<T>, next: WorkflowState<T>) {
    && Continues(env, index, input) && next.data == env.execute(index, input).data
    && Ready(next) && next.meta == st.meta && next.budget == st.budget
    && next.control.currentNode == node && next.control.stepsExecuted == st.control.stepsExecuted + 1
    && next.control.completedNodes == st.control.completedNodes + [node]
  }

  lemma GivenOne<T>(env: Env<T>, nodes: seq<string>, index: nat, st: WorkflowState<T>, resume: Option<ResumeCommand>)
    requires index < |nodes| && Ready(st) && (st.budget.maxSteps > 0 ==> st.control.stepsExecuted < st.budget.maxSteps)
    ensures Called(env, nodes, index, st, resume, [InputOf(st, nodes[index], resume)])
  {
    assert nodes[index..index] == [];
  }

  lemma IterationTells<T>(env: Env<T>, nodes: seq<string>, index: nat, st: WorkflowState<T>, observer: Observer, resume: Option<ResumeCommand>)
    requires ValidNodes(nodes) && index < |nodes| && Ready(st)
    ensures var input := InputOf(st, nodes[index], resume);
            match Iterate(env, nodes[index], index, st, observer, resume)
            case Next(st', observer') =>
              && Called(env, nodes, index, st, resume, [input]) && LeadsOn(env, nodes[index], index, st, input, st')
              && (Fits(observer, st) ==> Fits(observer', st'))
            case Done(o) =>
              Journey(env, nodes, index, st, observer, resume, if Enters(env, nodes[index], index, st, observer) then [input] else [], o)
  {
    hide Accepts, Observed, ValidWait, Fits, Called, Keyed;
    var node := nodes[index];
    NoneCalled(env, nodes, index, st, resume);
    if Stopped(env, index, PreCheck, st).None? && !BudgetSpent(st) {
      GivenOne(env, nodes, index, st, resume);
      var begun := st.(control := Begin(st.control, node));
      var at := env.now(index, StartedEventAt);
      if Fits(observer, st) {
        BegunFits(st, observer, node);
        EmitFits(begun, observer, NodeStarted, node, "", None, 0, at);
      }
      var m := Emit(begun, observer, NodeStarted, node, "", None, 0, at);
      if m.accepted {
        AnswerTells(env, nodes, index, st, observer, m.observer, resume);
      } else {
        assert Unobserved(env, index, st, [], ObserverFailure(m.state, m.observer, node));
      }
    } else {
      assert Journey(env, nodes, index, st, observer, resume, [], Iterate(env, node, index, st, observer, resume).outcome);
    }
  }

  lemma NoneCalled<T>(env: Env<T>, nodes: seq<string>, index: nat, st: WorkflowState<T>, resume: Option<ResumeCommand>)
    requires index <= |nodes|
    ensures Called(env, nodes, index, st, resume, [])
  {
  }

  lemma BegunFits<T>(st: WorkflowState<T>, observer: Observer, node: string)
    requires Fits(observer, st)
    ensures Fits(observer, st.(control := Begin(st.control, node)))
  {
  }

  lemma AnswerTells<T>(env: Env<T>, nodes: seq<string>, index: nat, st: WorkflowState<T>, before: Observer, observer: Observer,
                       resume: Option<ResumeCommand>)
    requires ValidNodes(nodes) && index < |nodes| && Ready(st)
    requires Goes(env, index, PreCheck, st.budget.deadline)
    requires var input := InputOf(st, nodes[index], resume);
             Called(env, nodes, index, st, resume, [input]) && (Fits(before, st) ==> Fits(observer, input.state))
    ensures var input := InputOf(st, nodes[index], resume);
            match AfterStart(env, nodes[index], index, input.state, observer, resume)
            case Next(st', observer') => LeadsOn(env, nodes[index], index, st, input, st') && (Fits(before, st) ==> Fits(observer', st'))
            case Done(o) => Journey(env, nodes, index, st, before, resume, [input], o)
  {
    hide Accepts, Observed, ValidWait, Fits, Called, Keyed;
    var node := nodes[index];
    var input := InputOf(st, node, resume);
    var output := env.execute(index, input);
    var at, duration := env.now(index, ClosingEventAt), Elapsed(env.now(index, StartedAt), env.now(index, FinishedAt));
    var stop := Stopped(env, index, PostCheck, input.state);
    if stop.Some? {
      RejectionTells(env, nodes, index, st, before, observer, resume, StopAsNodeError(stop.value), duration, at);
    } else if output.NodeErr? {
      RejectionTells(env, nodes, index, st, before, observer, resume, output.error, duration, at);
    } else {
      ClosingTells(env, nodes, index, st, before, observer, resume);
    }
  }

  lemma RejectionTells<T>(env: Env<T>, nodes: seq<string>, index: nat, st: WorkflowState<T>, before: Observer, observer: Observer,
                          resume: Option<ResumeCommand>, cause: NodeError, duration: int, at: Time)
    requires ValidNodes(nodes) && index < |nodes| && Ready(st)
    requires var input := InputOf(st, nodes[index], resume);
             && Called(env, nodes, index, st, resume, [input])
             && !Continues(env, index, input) && !Suspends(env, index, input)
             && Normalize(nodes[index], cause).code == RejectCode(env, index, input)
    ensures var input := InputOf(st, nodes[index], resume);
            Journey(env, nodes, index, st, before, resume, [input], NodeFailure(input.state, observer, nodes[index], cause, duration, at))
  {
    hide Accepts, Observed, Fits, Called, Keyed, Continues, Suspends, RejectCode, Normalize;
    var input := InputOf(st, nodes[index], resume);
    assert Fails(env, index, [input], NodeFailure(input.state, observer, nodes[index], cause, duration, at));
  }

  lemma ClosingTells<T>(env: Env<T>, nodes: seq<string>, index: nat, st: WorkflowState<T>, before: Observer, observer: Observer,
                        resume: Option<ResumeCommand>)
    requires ValidNodes(nodes) && index < |nodes| && Ready(st)
    requires Goes(env, index, PreCheck, st.budget.deadline) && Goes(env, index, PostCheck, st.budget.deadline)
    requires var input := InputOf(st, nodes[index], resume);
             && Called(env, nodes, index, st, resume, [input]) && (Fits(before, st) ==> Fits(observer, input.state))
             && env.execute(index, input).NodeOk?
    ensures var input := InputOf(st, nodes[index], resume);
            match AfterStart(env, nodes[index], index, input.state, observer, resume)
            case Next(st', observer') => LeadsOn(env, nodes[index], index, st, input, st') && (Fits(before, st) ==> Fits(observer', st'))
            case Done(o) => Journey(env, nodes, index, st, before, resume, [input], o)
  {
    hide Accepts, Observed, ValidWait, Fits, Called, Keyed, Normalize, NodeFailure, Goes;
    var node := nodes[index];
    var input := InputOf(st, node, resume);
    StoppedOrGoes(env, index, PostCheck, input.state);
    var output := env.execute(index, input);
    var at, duration := env.now(index, ClosingEventAt), Elapsed(env.now(index, StartedAt), env.now(index, FinishedAt));
    if output.directive.DirectiveContinue? && output.wait.None? {
      if Fits(before, st) {
        CompleteFits(input.state, observer, node, output.data);
        EmitFits(Complete(input.state, node, output.data), observer, NodeCompleted, node, "", None, duration, at);
      }
    } else if output.directive.DirectiveSuspend? && AcceptableWait(input.state, node, output.wait, env.now(index, WaitCheck)) {
      if Fits(before, st) {
        var held := input.state.(data := output.data, control := input.state.control.(pendingWait := output.wait));
        var c := Transition(held.control, RunSuspended).value;
        HeldFits(input.state, held.(control := c), observer);
        EmitFits(held.(control := c), observer, NodeSuspended, node, output.wait.value.id, None, duration, at);
      }
    } else {
      BreachCode(env, index, input, node);
      RejectionTells(env, nodes, index, st, before, observer, resume, ContractBreach(), duration, at);
    }
  }

  lemma StoppedOrGoes<T>(env: Env<T>, index: int, m: Moment, st: WorkflowState<T>)
    ensures Stopped(env, index, m, st).None? <==> Goes(env, index, m, st.budget.deadline)
  {
  }

  lemma BreachCode<T>(env: Env<T>, index: int, input: NodeInput<T>, node: string)
    requires Goes(env, index, PostCheck, input.state.budget.deadline) && env.execute(index, input).NodeOk?
    ensures Normalize(node, ContractBreach()).code == RejectCode(env, index, input)
  {
  }

  lemma CompleteFits<T>(st: WorkflowState<T>, observer: Observer, node: string, data: T)
    requires Fits(observer, st)
    ensures Fits(observer, Complete(st, node, data))
  {
  }

  lemma HeldFits<T>(st: WorkflowState<T>, held: WorkflowState<T>, observer: Observer)
    requires Fits(observer, st) && held.meta == st.meta && held.control.eventSequence == st.control.eventSequence
    ensures Fits(observer, held)
  {
  }

  // ---- The events of one iteration ----

  lemma NothingReported<T>(env: Env<T>, start: nat, events: seq<NodeEvent>)
    ensures Reported<T>(env, start, [], events, events)
  {
  }

  lemma OneReported<T>(env: Env<T>, index: nat, input: NodeInput<T>, before: seq<NodeEvent>, first: NodeEvent, second: NodeEvent)
    requires TellsStart(env, index, input, first) && TellsEnd(env, index, input, second)
    ensures Reported(env, index, [input], before, before + [first] + [second])
  {
    hide TellsStart, TellsEnd;
  }

  lemma ReportedThrough<T>(env: Env<T>, start: nat, input: NodeInput<T>, rest: seq<NodeInput<T>>, before: seq<NodeEvent>,
                           between: seq<NodeEvent>, after: seq<NodeEvent>)
    requires Reported(env, start, [input], before, between) && Reported(env, start + 1, rest, between, after)
    ensures Reported(env, start, [input] + rest, before, after)
  {
    hide TellsStart, TellsEnd;
    var all := [input] + rest;
    forall i | 0 <= i < |all|
      ensures TellsStart(env, start + i, all[i], after[|before| + 2 * i])
      ensures TellsEnd(env, start + i, all[i], after[|before| + 2 * i + 1])
    {
      if i == 0 {
        assert after[|before|] == between[|before|] && after[|before| + 1] == between[|before| + 1];
        assert all[0] == [input][0];
      } else {
        assert all[i] == rest[i - 1];
        assert |before| + 2 * i == |between| + 2 * (i - 1);
      }
    }
  }

  lemma IterationReports<T>(env: Env<T>, nodes: seq<string>, index: nat, st: WorkflowState<T>, observer: Observer, resume: Option<ResumeCommand>)
    requires ValidNodes(nodes) && index < |nodes| && Ready(st) && Fits(observer, st)
    ensures var input := InputOf(st, nodes[index], resume);
            match Iterate(env, nodes[index], index, st, observer, resume)
            case Next(st', observer') => Reported(env, index, [input], observer.events, observer'.events)
            case Done(o) =>
              Reported(env, index, if Enters(env, nodes[index], index, st, observer) then [input] else [], observer.events, o.observer.events)
  {
    hide Accepts, Observed, ValidWait, Keyed, Reported, TellsEnd, Fits, Goes;
    var node := nodes[index];
    NothingReported(env, index, observer.events);
    if Stopped(env, index, PreCheck, st).None? && !BudgetSpent(st) {
      var begun := st.(control := Begin(st.control, node));
      var at := env.now(index, StartedEventAt);
      BegunFits(st, observer, node);
      EmitFits(begun, observer, NodeStarted, node, "", None, 0, at);
      var m := Emit(begun, observer, NodeStarted, node, "", None, 0, at);
      StoppedOrGoes(env, index, PreCheck, st);
      AnswerReported(env, nodes, index, st, observer.events, m.observer, resume);
    }
  }

  lemma AnswerReported<T>(env: Env<T>, nodes: seq<string>, index: nat, st: WorkflowState<T>, before: seq<NodeEvent>, observer: Observer,
                          resume: Option<ResumeCommand>)
    requires ValidNodes(nodes) && index < |nodes| && Ready(st) && Goes(env, index, PreCheck, st.budget.deadline)
    requires var input := InputOf(st, nodes[index], resume);
             && Fits(observer, input.state)
             && observer.events == before + [EventOf(input.state, NodeStarted, nodes[index], "", None, 0, env.now(index, StartedEventAt))]
    ensures var input := InputOf(st, nodes[index], resume);
            match AfterStart(env, nodes[index], index, input.state, observer, resume)
            case Next(st', observer') => Reported(env, index, [input], before, observer'.events)
            case Done(o) => Reported(env, index, [input], before, o.observer.events)
  {
    hide Accepts, Observed, ValidWait, Fits, Keyed, Reported, Goes;
    var node := nodes[index];
    var input := InputOf(st, node, resume);
    var first := EventOf(input.state, NodeStarted, node, "", None, 0, env.now(index, StartedEventAt));
    var output := env.execute(index, input);
    var at, duration := env.now(index, ClosingEventAt), Elapsed(env.now(index, StartedAt), env.now(index, FinishedAt));
    StoppedOrGoes(env, index, PostCheck, input.state);
    var stop := Stopped(env, index, PostCheck, input.state);
    if stop.Some? {
      FailureReported(env, node, index, input, before, first, observer, StopAsNodeError(stop.value), duration, at);
    } else if output.NodeErr? {
      FailureReported(env, node, index, input, before, first, observer, output.error, duration, at);
    } else if output.directive.DirectiveContinue? && output.wait.None? {
      var done := Complete(input.state, node, output.data);
      CompleteFits(input.state, observer, node, output.data);
      EmitFits(done, observer, NodeCompleted, node, "", None, duration, at);
      OneReported(env, index, input, before, first, EventOf(Sequenced(done), NodeCompleted, node, "", None, duration, at));
    } else if output.directive.DirectiveSuspend? && AcceptableWait(input.state, node, output.wait, env.now(index, WaitCheck)) {
      var held := input.state.(data := output.data, control := input.state.control.(pendingWait := output.wait));
      var moved := held.(control := Transition(held.control, RunSuspended).value);
      var waitID := output.wait.value.id;
      HeldFits(input.state, moved, observer);
      EmitFits(moved, observer, NodeSuspended, node, waitID, None, duration, at);
      OneReported(env, index, input, before, first, EventOf(Sequenced(moved), NodeSuspended, node, waitID, None, duration, at));
    } else {
      BreachCode(env, index, input, node);
      FailureReported(env, node, index, input, before, first, observer, ContractBreach(), duration, at);
    }
  }

  lemma FailureReported<T>(env: Env<T>, node: string, index: nat, input: NodeInput<T>, before: seq<NodeEvent>, first: NodeEvent,
                           observer: Observer, cause: NodeError, duration: int, at: Time)
    requires Fits(observer, input.state) && observer.events == before + [first] && TellsStart(env, index, input, first)
    requires ValidIdentifier(node) && input.state.control.status.RunRunning? && input.state.control.currentNode == node
    requires !Continues(env, index, input) && !Suspends(env, index, input)
    requires Normalize(node, cause).code == RejectCode(env, index, input)
    requires duration == Elapsed(env.now(index, StartedAt), env.now(index, FinishedAt)) && at == env.now(index, ClosingEventAt)
    ensures Reported(env, index, [input], before, NodeFailure(input.state, observer, node, cause, duration, at).observer.events)
  {
    hide Accepts, Observed, Fits, Reported, TellsStart, Continues, Suspends, RejectCode, Normalize, ValidIdentifier;
    var code := Normalize(node, cause).code;
    var failed := input.state.(control := Transition(input.state.control, StatusForCode(code)).value);
    HeldFits(input.state, failed, observer);
    EmitFits(failed, observer, NodeFailed, node, "", Some(code), duration, at);
    OneReported(env, index, input, before, first, EventOf(Sequenced(failed), NodeFailed, node, "", Some(code), duration, at));
  }

  // ---- A whole call ----

  lemma DataThrough<T>(env: Env<T>, start: nat, st: WorkflowState<T>, next: WorkflowState<T>, input: NodeInput<T>, rest: seq<NodeInput<T>>, data: T)
    requires Continues(env, start, input) && next.data == env.execute(start, input).data
    requires AnsweredData(env, start + 1, next, rest, data)
    ensures AnsweredData(env, start, st, [input] + rest, data)
  {
    hide Goes;
  }

  // The first node's input followed by those of the rest.
  lemma CalledThrough<T>(env: Env<T>, nodes: seq<string>, start: nat, st: WorkflowState<T>, next: WorkflowState<T>,
                         resume: Option<ResumeCommand>, input: NodeInput<T>, rest: seq<NodeInput<T>>)
    requires ValidNodes(nodes) && start < |nodes|
    requires Called(env, nodes, start, st, resume, [input]) && LeadsOn(env, nodes[start], start, st, input, next)
    requires Called(env, nodes, start + 1, next, None, rest)
    ensures Called(env, nodes, start, st, resume, [input] + rest)
  {
    hide Continues, Keyed, ValidNodes, Ready;
    var all := [input] + rest;
    forall i | 0 <= i < |all|
      ensures Given(env, nodes, start, st, resume, all, i)
    {
      if i == 0 {
        assert Given(env, nodes, start, st, resume, [input], 0);
      } else {
        assert Given(env, nodes, start + 1, next, None, rest, i - 1);
        assert nodes[start..start + i] == [nodes[start]] + nodes[start + 1..start + i];
        OtherNode(nodes, start, start + i);
      }
    }
  }

  lemma OtherNode(nodes: seq<string>, i: nat, j: nat)
    requires ValidNodes(nodes) && i < j < |nodes|
    ensures nodes[i] != nodes[j]
  {
  }

  lemma JourneyThrough<T>(env: Env<T>, nodes: seq<string>, start: nat, st: WorkflowState<T>, next: WorkflowState<T>, observer: Observer,
                          later: Observer, resume: Option<ResumeCommand>, input: NodeInput<T>, rest: seq<NodeInput<T>>, o: Outcome<T>)
    requires ValidNodes(nodes) && start < |nodes|
    requires Called(env, nodes, start, st, resume, [input]) && LeadsOn(env, nodes[start], start, st, input, next)
    requires Fits(observer, st) ==> Fits(later, next)
    requires Journey(env, nodes, start + 1, next, later, None, rest, o)
    ensures Journey(env, nodes, start, st, observer, resume, [input] + rest, o)
  {
    hide Continues, Suspends, Goes, Called, EndsWith, AnsweredData, RejectCode, Fits;
    CalledThrough(env, nodes, start, st, next, resume, input, rest);
    if AnsweredData(env, start + 1, next, rest, o.state.data) {
      DataThrough(env, start, st, next, input, rest, o.state.data);
    }
    assert nodes[start..] == [nodes[start]] + nodes[start + 1..];
  }

  lemma {:induction false} ExecutionTells<T>(env: Env<T>, nodes: seq<string>, start: nat, st: WorkflowState<T>, observer: Observer,
                                             resume: Option<ResumeCommand>) returns (inputs: seq<NodeInput<T>>)
    requires ValidNodes(nodes) && start <= |nodes| && Ready(st)
    ensures var o := ExecuteFrom(env, nodes, start, st, observer, resume);
            && Journey(env, nodes, start, st, observer, resume, inputs, o)
            && (Fits(observer, st) ==> Reported(env, start, inputs, observer.events, o.observer.events))
    decreases |nodes| - start
  {
    hide Iterate, Journey, LeadsOn, Fits, Called, InputOf, Enters, TellsStart, TellsEnd, Reported;
    if start == |nodes| {
      inputs := [];
      NoneLeft(env, nodes, st, observer, resume);
      NothingReported(env, start, observer.events);
    } else {
      IterationTells(env, nodes, start, st, observer, resume);
      if Fits(observer, st) {
        IterationReports(env, nodes, start, st, observer, resume);
      }
      var input := InputOf(st, nodes[start], resume);
      match Iterate(env, nodes[start], start, st, observer, resume)
      case Done(o) =>
        inputs := if Enters(env, nodes[start], start, st, observer) then [input] else [];
      case Next(next, later) =>
        LedReady(env, nodes[start], start, st, input, next);
        var rest := ExecutionTells(env, nodes, start + 1, next, later, None);
        inputs := [input] + rest;
        var o := ExecuteFrom(env, nodes, start + 1, next, later, None);
        JourneyThrough(env, nodes, start, st, next, observer, later, resume, input, rest, o);
        if Fits(observer, st) {
          ReportedThrough(env, start, input, rest, observer.events, later.events, o.observer.events);
        }
    }
  }

  lemma LedReady<T>(env: Env<T>, node: string, index: nat, st: WorkflowState<T>, input: NodeInput<T>, next: WorkflowState<T>)
    requires LeadsOn(env, node, index, st, input, next)
    ensures Ready(next)
  {
  }

  lemma NoneLeft<T>(env: Env<T>, nodes: seq<string>, st: WorkflowState<T>, observer: Observer, resume: Option<ResumeCommand>)
    requires Ready(st)
    ensures Journey(env, nodes, |nodes|, st, observer, resume, [], Finish(st, observer))
  {
    assert Completes(env, nodes, |nodes|, st, [], Finish(st, observer));
  }

  // ---- Run and Resume ----

  // Nothing has been done in the run.
  predicate Untouched(c: Control) {
    c.status.RunPending? && c.pendingWait.None? && c.currentNode == "" && c.completedNodes == [] && c.stepsExecuted == 0 && c.resumeCount == 0
  }

  // Running a new run calls the nodes from the first on, with the run's data; any other
  // state is refused as it is.
  lemma RunTells<T>(env: Env<T>, nodes: seq<string>, st: WorkflowState<T>, observer: Observer) returns (inputs: seq<NodeInput<T>>)
    requires ValidNodes(nodes)
    ensures var o := Run(env, nodes, st, observer);
            if ValidState(st) && Untouched(st.control) then
              && Journey(env, nodes, 0, st, observer, None, inputs, o)
              && (Fits(observer, st) ==> Reported(env, 0, inputs, observer.events, o.observer.events))
            else o.state == st && o.error.Some? && o.observer == observer && inputs == []
  {
    hide Journey, ExecuteFrom, Fits, Reported;
    inputs := [];
    if ValidState(st) && Fresh(st.control) {
      var started := st.(control := Transition(st.control, RunRunning).value);
      RunningFits(st, started, observer);
      inputs := ExecutionTells(env, nodes, 0, started, observer, None);
      SameJourney(env, nodes, 0, st, started, observer, observer, None, inputs, Run(env, nodes, st, observer));
    }
  }

  // A journey tells of the run's data, progress, attempt and budget only.
  lemma SameJourney<T>(env: Env<T>, nodes: seq<string>, start: nat, a: WorkflowState<T>, b: WorkflowState<T>, observer: Observer,
                       later: Observer, resume: Option<ResumeCommand>, inputs: seq<NodeInput<T>>, o: Outcome<T>)
    requires Journey(env, nodes, start, b, later, resume, inputs, o)
    requires a.meta == b.meta && a.budget == b.budget && a.data == b.data && (Fits(observer, a) ==> Fits(later, b))
    requires a.control.currentNode == b.control.currentNode && a.control.currentAttempt == b.control.currentAttempt
    requires a.control.stepsExecuted == b.control.stepsExecuted && a.control.completedNodes == b.control.completedNodes
    ensures Journey(env, nodes, start, a, observer, resume, inputs, o)
  {
    hide Continues, Suspends, Goes, EndsWith, RejectCode, Fits, Keyed;
    forall i | 0 <= i < |inputs|
      ensures Given(env, nodes, start, a, resume, inputs, i)
    {
      assert Given(env, nodes, start, b, resume, inputs, i);
    }
  }

  // When Resume admits a command: the run is suspended at a node of the list on a wait
  // the command answers in time, and no budget is used up.
  ghost predicate Admissible<T>(env: Env<T>, nodes: seq<string>, st: WorkflowState<T>, command: ResumeCommand) {
    var c := st.control;
    && ValidState(st) && c.status.RunSuspended? && c.pendingWait.Some?
    && Goes(env, 0, AdmitCheck, st.budget.deadline)
    && (st.budget.maxResumes > 0 ==> c.resumeCount < st.budget.maxResumes)
    && (st.budget.maxSteps > 0 ==> c.stepsExecuted < st.budget.maxSteps)
    && var wait := c.pendingWait.value;
       && Answers(wait, command, env.now(0, AdmitResume))
       && wait.nodeID in nodes && wait.nodeID == c.currentNode
  }

  ghost predicate Answers(wait: WaitPoint, command: ResumeCommand, now: Time) {
    && now < wait.expiresAt && ValidWait(wait, now)
    && command.runID == wait.runID && command.waitID == wait.id
    && command.version == wait.version && command.contentHash == wait.contentHash
    && command.action in wait.allowedActions && !command.action.UnknownAction?
  }

  // The event of the resume itself.
  function ResumedEvent<T>(env: Env<T>, st: WorkflowState<T>): NodeEvent
    requires st.control.pendingWait.Some?
  {
    var c := st.control;
    NodeEvent(c.eventSequence + 1, st.meta.workflowID, st.meta.runID, c.currentNode, NodeResumed, RunSuspended, c.currentAttempt,
              c.resumeCount, c.pendingWait.value.id, None, 0, env.now(0, ResumedEventAt))
  }

  // Resuming with such a command calls the nodes from the suspended one on, that one
  // with the command; any other is refused, and the state left as it is, as it is when
  // the observer refuses to be told of the resume.
  lemma ResumeTells<T>(env: Env<T>, nodes: seq<string>, st: WorkflowState<T>, command: ResumeCommand, observer: Observer)
    returns (start: nat, inputs: seq<NodeInput<T>>)
    requires ValidNodes(nodes)
    ensures var o := Resume(env, nodes, st, command, observer);
            if Admissible(env, nodes, st, command) then
              || (start < |nodes| && nodes[start] == st.control.currentNode
                  && Journey(env, nodes, start, st, observer, Some(command), inputs, o)
                  && (Fits(observer, st) ==>
                        Reported(env, start, inputs, observer.events + [ResumedEvent(env, st)], o.observer.events)))
              || (!Fits(observer, st) && o.state == st && o.error == Some(WfError(CodeObserverFailed, st.control.currentNode)))
            else o.state == st && o.error.Some? && o.observer == observer
  {
    hide Journey, ExecuteFrom, Fits, ValidWait, Accepts, Observed, ValidState, Reported;
    start, inputs := 0, [];
    AdmittedExactly(env, nodes, st, command);
    if Admissible(env, nodes, st, command) {
      var wait := st.control.pendingWait.value;
      var at := env.now(0, ResumedEventAt);
      start := IndexOf(nodes, wait.nodeID);
      SuspendedNode(st);
      if Fits(observer, st) {
        EmitFits(st, observer, NodeResumed, wait.nodeID, wait.id, None, 0, at);
      }
      var m := Emit(st, observer, NodeResumed, wait.nodeID, wait.id, None, 0, at);
      if m.accepted {
        var running := m.state.(control := Transition(Resumed(m.state.control), RunRunning).value);
        RunningFits(m.state, running, m.observer);
        inputs := ExecutionTells(env, nodes, start, running, m.observer, Some(command));
        SameJourney(env, nodes, start, st, running, observer, m.observer, Some(command), inputs, Resume(env, nodes, st, command, observer));
      }
    }
  }

  lemma RunningFits<T>(st: WorkflowState<T>, running: WorkflowState<T>, observer: Observer)
    requires running.meta == st.meta && running.control.eventSequence == st.control.eventSequence
    ensures Fits(observer, st) ==> Fits(observer, running)
  {
  }

  lemma SuspendedNode<T>(st: WorkflowState<T>)
    requires ValidState(st) && st.control.status.RunSuspended?
    ensures ValidIdentifier(st.control.currentNode)
  {
  }

  lemma AdmittedExactly<T>(env: Env<T>, nodes: seq<string>, st: WorkflowState<T>, command: ResumeCommand)
    ensures Admission(env, nodes, st, command).None? <==> Admissible(env, nodes, st, command)
  {
    hide ValidWait;
  }

  // A wait is valid exactly when it is named, of a known kind, offers known actions, each
  // once, and has not expired.
  lemma ValidExactly(wait: WaitPoint, now: Time)
    ensures ValidWait(wait, now) <==>
              && ValidIdentifier(wait.id) && ValidIdentifier(wait.runID) && ValidIdentifier(wait.nodeID) && ValidIdentifier(wait.contentHash)
              && wait.version >= 1 && !wait.kind.UnknownKind? && wait.allowedActions != []
              && (forall a :: a in wait.allowedActions ==> a in {ActionApprove, ActionReject, ActionSubmitEdit, ActionCancel})
              && (forall i, j :: 0 <= i < |wait.allowedActions| && 0 <= j < |wait.allowedActions| && wait.allowedActions[i] == wait.allowedActions[j] ==> i == j)
              && wait.expiresAt != ZERO_TIME && now < wait.expiresAt
  {
    hide ValidIdentifier;
    ActionsExactly(wait.allowedActions);
  }

  lemma ActionsExactly(actions: seq<HumanAction>)
    ensures DistinctKnownActions(actions) <==>
              && (forall a :: a in actions ==> a in {ActionApprove, ActionReject, ActionSubmitEdit, ActionCancel})
              && (forall i, j :: 0 <= i < |actions| && 0 <= j < |actions| && actions[i] == actions[j] ==> i == j)
  {
    if forall a :: a in actions ==> a in {ActionApprove, ActionReject, ActionSubmitEdit, ActionCancel} {
      forall i | 0 <= i < |actions|
        ensures !actions[i].UnknownAction?
      {
        assert actions[i] in actions;
      }
    }
  }
}
