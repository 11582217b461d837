// What every call of the runner keeps, whatever the nodes, the clock and the
// context do: a committable state, a gap-free and balanced event log, progress
// along the node list, and attempts that never repeat.
module RunnerProofs {
  import opened Basics
  import opened WorkflowCore
  import opened RunnerSpec

  // ---- Outcomes of a call, for any observer ----

  // The call changed nothing, or it left a valid state that is neither pending nor
  // running and whose version is larger.
  ghost predicate Committable<T>(before: WorkflowState<T>, o: Outcome<T>) {
    || (o.state == before && o.error.Some?)
    || Advanced(before, o.state)
  }

  ghost predicate Advanced<T>(before: WorkflowState<T>, after: WorkflowState<T>) {
    && ValidState(after)
    && !after.control.status.RunPending? && !after.control.status.RunRunning?
    && after.control.stateVersion > before.control.stateVersion
    && after.meta == before.meta
    && after.budget == before.budget
  }

  ghost predicate Underway<T>(before: WorkflowState<T>, st: WorkflowState<T>) {
    && ValidState(st)
    && st.control.status.RunRunning?
    && st.control.stateVersion > before.control.stateVersion
    && st.meta == before.meta
    && st.budget == before.budget
  }

  lemma NodeFailureAdvances<T>(before: WorkflowState<T>, st: WorkflowState<T>, observer: Observer, node: string,
                               cause: NodeError, duration: int, at: Time)
    requires Underway(before, st)
    ensures Advanced(before, NodeFailure(st, observer, node, cause, duration, at).state)
  {
  }

  lemma CloseAdvances<T>(before: WorkflowState<T>, env: Env<T>, node: string, index: int, st: WorkflowState<T>,
                         observer: Observer, directive: Directive, wait: Option<WaitPoint>, data: T, duration: int)
    requires Underway(before, st) && st.control.currentNode == node && ValidIdentifier(node)
    ensures match Close(env, node, index, st, observer, directive, wait, data, duration)
            case Next(st', _) => Underway(before, st')
            case Done(o) => Advanced(before, o.state)
  {
    hide Observed, Accepts, ValidWait;
    var at := env.now(index, ClosingEventAt);
    NodeFailureAdvances(before, st, observer, node, ContractBreach(), duration, at);
  }

  lemma IterateAdvances<T>(before: WorkflowState<T>, env: Env<T>, node: string, index: int, st: WorkflowState<T>,
                           observer: Observer, resume: Option<ResumeCommand>)
    requires Underway(before, st) && ValidIdentifier(node)
    ensures match Iterate(env, node, index, st, observer, resume)
            case Next(st', _) => Underway(before, st')
            case Done(o) => Advanced(before, o.state)
  {
    var begun := st.(control := Begin(st.control, node));
    var m := Emit(begun, observer, NodeStarted, node, "", None, 0, env.now(index, StartedEventAt));
    if Stopped(env, index, PreCheck, st).None? && !BudgetSpent(st) && m.accepted {
      assert Underway(before, m.state);
      var input := NodeInput(m.state, resume, ExecutionID(m.state.meta.runID, node, m.state.control.currentAttempt));
      var output := env.execute(index, input);
      var duration := Elapsed(env.now(index, StartedAt), env.now(index, FinishedAt));
      var at := env.now(index, ClosingEventAt);
      var stop := Stopped(env, index, PostCheck, m.state);
      if stop.Some? {
        NodeFailureAdvances(before, m.state, m.observer, node, StopAsNodeError(stop.value), duration, at);
      } else if output.NodeErr? {
        NodeFailureAdvances(before, m.state, m.observer, node, output.error, duration, at);
      } else {
        CloseAdvances(before, env, node, index, m.state, m.observer, output.directive, output.wait, output.data, duration);
      }
    }
  }

  lemma {:induction false} ExecuteAdvances<T>(before: WorkflowState<T>, env: Env<T>, nodes: seq<string>, index: nat,
                                              st: WorkflowState<T>, observer: Observer, resume: Option<ResumeCommand>)
    requires ValidNodes(nodes) && index <= |nodes| && Underway(before, st)
    ensures Advanced(before, ExecuteFrom(env, nodes, index, st, observer, resume).state)
    decreases |nodes| - index
  {
    if index < |nodes| {
      IterateAdvances(before, env, nodes[index], index, st, observer, resume);
      match Iterate(env, nodes[index], index, st, observer, resume)
      case Done(_) =>
      case Next(st', observer') => ExecuteAdvances(before, env, nodes, index + 1, st', observer', None);
    }
  }

  // Whatever the observer answers, Run leaves the state alone or makes it committable;
  // it leaves it alone exactly when it refuses it.
  lemma RunCommittable<T>(env: Env<T>, nodes: seq<string>, st: WorkflowState<T>, observer: Observer)
    requires ValidNodes(nodes)
    ensures Committable(st, Run(env, nodes, st, observer))
    ensures Run(env, nodes, st, observer).state != st <==> ValidState(st) && Fresh(st.control)
  {
    if ValidState(st) && Fresh(st.control) {
      var started := st.(control := Transition(st.control, RunRunning).value);
      ExecuteAdvances(st, env, nodes, 0, started, observer, None);
    }
  }

  lemma ResumeCommittable<T>(env: Env<T>, nodes: seq<string>, st: WorkflowState<T>, command: ResumeCommand,
                             observer: Observer)
    requires ValidNodes(nodes)
    ensures Committable(st, Resume(env, nodes, st, command, observer))
    ensures Admission(env, nodes, st, command).Some? ==> Resume(env, nodes, st, command, observer).state == st
  {
    if Admission(env, nodes, st, command).None? {
      var wait := st.control.pendingWait.value;
      var m := Emit(st, observer, NodeResumed, wait.nodeID, wait.id, None, 0, env.now(0, ResumedEventAt));
      if m.accepted {
        var started := m.state.(control := Transition(Resumed(m.state.control), RunRunning).value);
        ExecuteAdvances(st, env, nodes, IndexOf(nodes, wait.nodeID), started, m.observer, Some(command));
      }
    }
  }

  // ---- The collector ----

  // A collector that has seen nothing of this run beyond the state's event sequence.
  ghost predicate Fits<T>(o: Observer, st: WorkflowState<T>) {
    && o.Collecting?
    && ValidMeta(st.meta)
    && st.control.eventSequence >= 0
    && LastSequence(o.lastByRun, st.meta.runID) <= st.control.eventSequence
  }

  lemma EmitFits<T>(st: WorkflowState<T>, o: Observer, kind: EventType, node: string, waitID: string,
                    code: Option<ErrorCode>, duration: int, at: Time)
    requires Fits(o, st) && ValidIdentifier(node)
    ensures var m := Emit(st, o, kind, node, waitID, code, duration, at);
            && m.accepted
            && Fits(m.observer, m.state)
            && m.observer.events == o.events + [EventOf(Sequenced(st), kind, node, waitID, code, duration, at)]
  {
  }

  // A collector that was handed these events one after the other.
  function Collector(handed: seq<NodeEvent>): Observer {
    if handed == [] then EMPTY_COLLECTOR else Observed(Collector(handed[..|handed| - 1]), handed[|handed| - 1])
  }

  // Whatever a collector was handed, it takes an event exactly when the event is named
  // and numbered behind every one of its run that it has.
  lemma CollectedExactly(handed: seq<NodeEvent>, e: NodeEvent)
    ensures Accepts(Collector(handed), e) <==>
              && ValidIdentifier(e.workflowID) && ValidIdentifier(e.runID) && ValidIdentifier(e.nodeID) && e.sequence >= 1
              && forall known :: known in Collector(handed).events && known.runID == e.runID ==> known.sequence < e.sequence
  {
    hide ValidIdentifier;
    LastIsGreatest(handed, e.runID);
  }

  // The sequence it keeps for a run is that of the run's latest event.
  lemma {:induction false} LastIsGreatest(handed: seq<NodeEvent>, runID: string)
    ensures var o := Collector(handed);
            && o.Collecting? && LastSequence(o.lastByRun, runID) >= 0
            && (forall known :: known in o.events && known.runID == runID ==> 1 <= known.sequence <= LastSequence(o.lastByRun, runID))
            && (LastSequence(o.lastByRun, runID) > 0 ==>
                  exists known :: known in o.events && known.runID == runID && known.sequence == LastSequence(o.lastByRun, runID))
    decreases |handed|
  {
    hide ValidIdentifier;
    if handed != [] {
      LastIsGreatest(handed[..|handed| - 1], runID);
      var before, e := Collector(handed[..|handed| - 1]), handed[|handed| - 1];
      if Accepts(before, e) {
        assert e in Collector(handed).events;
        assert forall known :: known in Collector(handed).events <==> known in before.events || known == e;
      }
    }
  }

  // Two outcomes agree except that their collectors started from different events.
  ghost predicate SameFrom<T>(p: Outcome<T>, q: Outcome<T>, a: Observer, b: Observer) {
    && p.state == q.state
    && p.error == q.error
    && Fits(p.observer, p.state) && Fits(q.observer, q.state)
    && Suffix(a.events, p.observer.events) == Suffix(b.events, q.observer.events)
    && a.events <= p.observer.events && b.events <= q.observer.events
  }

  ghost function Suffix(prefix: seq<NodeEvent>, whole: seq<NodeEvent>): seq<NodeEvent> {
    if prefix <= whole then whole[|prefix|..] else []
  }

  lemma SuffixCompose(a: seq<NodeEvent>, b: seq<NodeEvent>, c: seq<NodeEvent>)
    requires a <= b && b <= c
    ensures a <= c && Suffix(a, c) == Suffix(a, b) + Suffix(b, c)
  {
  }

  lemma NodeFailureSame<T>(st: WorkflowState<T>, a: Observer, b: Observer, node: string, cause: NodeError,
                           duration: int, at: Time)
    requires Fits(a, st) && Fits(b, st) && ValidIdentifier(node)
    ensures SameFrom(NodeFailure(st, a, node, cause, duration, at), NodeFailure(st, b, node, cause, duration, at), a, b)
  {
    var e := Normalize(node, cause);
    var moved := Transition(st.control, StatusForCode(e.code));
    if moved.Some? {
      var st' := st.(control := moved.value);
      EmitFits(st', a, NodeFailed, node, "", Some(e.code), duration, at);
      EmitFits(st', b, NodeFailed, node, "", Some(e.code), duration, at);
    }
  }

  ghost predicate SameIteration<T>(p: Iteration<T>, q: Iteration<T>, a: Observer, b: Observer) {
    match (p, q)
    case (Next(s, o), Next(s', o')) => SameFrom(Outcome(s, None, o), Outcome(s', None, o'), a, b)
    case (Done(o), Done(o')) => SameFrom(o, o', a, b)
    case _ => false
  }

  lemma CloseSame<T>(env: Env<T>, node: string, index: int, st: WorkflowState<T>, a: Observer, b: Observer,
                     directive: Directive, wait: Option<WaitPoint>, data: T, duration: int)
    requires Fits(a, st) && Fits(b, st) && ValidIdentifier(node)
    ensures SameIteration(Close(env, node, index, st, a, directive, wait, data, duration),
                          Close(env, node, index, st, b, directive, wait, data, duration), a, b)
  {
    var at := env.now(index, ClosingEventAt);
    NodeFailureSame(st, a, b, node, ContractBreach(), duration, at);
    if directive.DirectiveContinue? && wait.None? {
      EmitFits(Complete(st, node, data), a, NodeCompleted, node, "", None, duration, at);
      EmitFits(Complete(st, node, data), b, NodeCompleted, node, "", None, duration, at);
    }
    if directive.DirectiveSuspend? && AcceptableWait(st, node, wait, env.now(index, WaitCheck)) {
      var held := st.(data := data, control := st.control.(pendingWait := wait));
      var moved := Transition(held.control, RunSuspended);
      if moved.Some? {
        EmitFits(held.(control := moved.value), a, NodeSuspended, node, wait.value.id, None, duration, at);
        EmitFits(held.(control := moved.value), b, NodeSuspended, node, wait.value.id, None, duration, at);
      }
    }
  }

  lemma AfterStartSame<T>(env: Env<T>, node: string, index: int, st: WorkflowState<T>, a: Observer, b: Observer,
                          resume: Option<ResumeCommand>)
    requires Fits(a, st) && Fits(b, st) && ValidIdentifier(node)
    ensures SameIteration(AfterStart(env, node, index, st, a, resume), AfterStart(env, node, index, st, b, resume), a, b)
  {
    var input := NodeInput(st, resume, ExecutionID(st.meta.runID, node, st.control.currentAttempt));
    var output := env.execute(index, input);
    var duration := Elapsed(env.now(index, StartedAt), env.now(index, FinishedAt));
    var at := env.now(index, ClosingEventAt);
    var stop := Stopped(env, index, PostCheck, st);
    if stop.Some? {
      NodeFailureSame(st, a, b, node, StopAsNodeError(stop.value), duration, at);
    } else if output.NodeErr? {
      NodeFailureSame(st, a, b, node, output.error, duration, at);
    } else {
      CloseSame(env, node, index, st, a, b, output.directive, output.wait, output.data, duration);
    }
  }

  lemma IterateSame<T>(env: Env<T>, node: string, index: int, st: WorkflowState<T>, a: Observer, b: Observer,
                       resume: Option<ResumeCommand>)
    requires Fits(a, st) && Fits(b, st) && ValidIdentifier(node)
    ensures SameIteration(Iterate(env, node, index, st, a, resume), Iterate(env, node, index, st, b, resume), a, b)
  {
    if Stopped(env, index, PreCheck, st).None? && !BudgetSpent(st) {
      var begun := st.(control := Begin(st.control, node));
      var at := env.now(index, StartedEventAt);
      EmitFits(begun, a, NodeStarted, node, "", None, 0, at);
      EmitFits(begun, b, NodeStarted, node, "", None, 0, at);
      var ma := Emit(begun, a, NodeStarted, node, "", None, 0, at);
      var mb := Emit(begun, b, NodeStarted, node, "", None, 0, at);
      AfterStartSame(env, node, index, ma.state, ma.observer, mb.observer, resume);
      var p, q := AfterStart(env, node, index, ma.state, ma.observer, resume), AfterStart(env, node, index, mb.state, mb.observer, resume);
      var pe := if p.Next? then p.observer.events else p.outcome.observer.events;
      var qe := if q.Next? then q.observer.events else q.outcome.observer.events;
      SuffixCompose(a.events, ma.observer.events, pe);
      SuffixCompose(b.events, mb.observer.events, qe);
    }
  }

  lemma {:induction false} ExecuteSame<T>(env: Env<T>, nodes: seq<string>, index: nat, st: WorkflowState<T>,
                                          a: Observer, b: Observer, resume: Option<ResumeCommand>)
    requires ValidNodes(nodes) && index <= |nodes| && Fits(a, st) && Fits(b, st)
    ensures SameFrom(ExecuteFrom(env, nodes, index, st, a, resume), ExecuteFrom(env, nodes, index, st, b, resume), a, b)
    decreases |nodes| - index
  {
    if index < |nodes| {
      IterateSame(env, nodes[index], index, st, a, b, resume);
      var p, q := Iterate(env, nodes[index], index, st, a, resume), Iterate(env, nodes[index], index, st, b, resume);
      if p.Next? {
        ExecuteSame(env, nodes, index + 1, p.state, p.observer, q.observer, None);
        SuffixCompose(a.events, p.observer.events, ExecuteFrom(env, nodes, index, st, a, resume).observer.events);
        SuffixCompose(b.events, q.observer.events, ExecuteFrom(env, nodes, index, st, b, resume).observer.events);
      }
    }
  }

  // A collector that fits is never refused an event, and which events it already
  // holds influences neither the state nor the events of the call.
  lemma RunSame<T>(env: Env<T>, nodes: seq<string>, st: WorkflowState<T>, a: Observer, b: Observer)
    requires ValidNodes(nodes) && Fits(a, st) && Fits(b, st)
    ensures SameFrom(Run(env, nodes, st, a), Run(env, nodes, st, b), a, b)
  {
    if ValidState(st) && Fresh(st.control) {
      ExecuteSame(env, nodes, 0, st.(control := Transition(st.control, RunRunning).value), a, b, None);
    }
  }

  lemma ResumeSame<T>(env: Env<T>, nodes: seq<string>, st: WorkflowState<T>, command: ResumeCommand, a: Observer, b: Observer)
    requires ValidNodes(nodes) && Fits(a, st) && Fits(b, st)
    ensures SameFrom(Resume(env, nodes, st, command, a), Resume(env, nodes, st, command, b), a, b)
  {
    if Admission(env, nodes, st, command).None? {
      var wait := st.control.pendingWait.value;
      var at := env.now(0, ResumedEventAt);
      EmitFits(st, a, NodeResumed, wait.nodeID, wait.id, None, 0, at);
      EmitFits(st, b, NodeResumed, wait.nodeID, wait.id, None, 0, at);
      var ma := Emit(st, a, NodeResumed, wait.nodeID, wait.id, None, 0, at);
      var mb := Emit(st, b, NodeResumed, wait.nodeID, wait.id, None, 0, at);
      var started := ma.state.(control := Transition(Resumed(ma.state.control), RunRunning).value);
      var index := IndexOf(nodes, wait.nodeID);
      ExecuteSame(env, nodes, index, started, ma.observer, mb.observer, Some(command));
      SuffixCompose(a.events, ma.observer.events, Resume(env, nodes, st, command, a).observer.events);
      SuffixCompose(b.events, mb.observer.events, Resume(env, nodes, st, command, b).observer.events);
    }
  }
}
