// The runner as the object the durable runtime builds for each execution: its
// methods compute what RunnerSpec describes, reporting to one collector.
module WorkflowRunner {
  import opened Basics
  import opened WorkflowCore
  import opened RunnerSpec
  import Spec = RunnerSpec

  // The runner with its collector. The node list and the clock are fixed when it is built.
  class Runner<T> {
    const nodes: seq<string>
    const collector: MemoryCollector
    const env: Env<T>

    constructor (nodes: seq<string>, collector: MemoryCollector, env: Env<T>)
      requires ValidNodes(nodes)
      ensures this.nodes == nodes && this.collector == collector && this.env == env
    {
      this.nodes := nodes;
      this.collector := collector;
      this.env := env;
    }

    method Emit(st: WorkflowState<T>, kind: EventType, nodeID: string, waitID: string, code: Option<ErrorCode>,
                duration: int, at: Time) returns (next: WorkflowState<T>, accepted: bool)
      modifies collector
      ensures Emission(next, collector.Contents(), accepted)
           == Spec.Emit(st, old(collector.Contents()), kind, nodeID, waitID, code, duration, at)
    {
      next := st.(control := Touch(st.control.(eventSequence := st.control.eventSequence + 1)));
      accepted := collector.Observe(EventOf(next, kind, nodeID, waitID, code, duration, at));
    }

    method NodeFailure(st: WorkflowState<T>, nodeID: string, cause: NodeError, duration: int, at: Time)
      returns (state: WorkflowState<T>, error: Option<WfError>)
      modifies collector
      ensures Outcome(state, error, collector.Contents())
           == Spec.NodeFailure(st, old(collector.Contents()), nodeID, cause, duration, at)
    {
      var e := Normalize(nodeID, cause);
      var moved := Transition(st.control, StatusForCode(e.code));
      if moved.None? {
        return st, Some(e);
      }
      var accepted: bool;
      state, accepted := Emit(st.(control := moved.value), NodeFailed, nodeID, "", Some(e.code), duration, at);
      error := Some(e);
    }

    method ExecuteFrom(start: nat, initial: WorkflowState<T>, command: Option<ResumeCommand>)
      returns (state: WorkflowState<T>, error: Option<WfError>)
      requires start <= |nodes|
      modifies collector
      ensures Outcome(state, error, collector.Contents())
           == Spec.ExecuteFrom(env, nodes, start, initial, old(collector.Contents()), command)
    {
      state := initial;
      var resume := command;
      var index := start;
      while index < |nodes|
        invariant start <= index <= |nodes|
        invariant Spec.ExecuteFrom(env, nodes, index, state, collector.Contents(), resume)
               == Spec.ExecuteFrom(env, nodes, start, initial, old(collector.Contents()), command)
      {
        var node := nodes[index];
        var finished: bool;
        finished, state, error := ExecuteNode(index, state, resume);
        if finished {
          return;
        }
        resume := None;
        index := index + 1;
      }
      var last := Finish(state, collector.Contents());
      state, error := last.state, last.error;
    }

    // The body of executeFrom's loop.
    method ExecuteNode(index: nat, initial: WorkflowState<T>, resume: Option<ResumeCommand>)
      returns (finished: bool, state: WorkflowState<T>, error: Option<WfError>)
      requires index < |nodes|
      modifies collector
      ensures Iterate(env, nodes[index], index, initial, old(collector.Contents()), resume)
           == if finished then Done(Outcome(state, error, collector.Contents())) else Next(state, collector.Contents())
    {
      var node := nodes[index];
      finished, state, error := true, initial, None;
      var stop := Stopped(env, index, PreCheck, state);
      if stop.None? && BudgetSpent(state) {
        stop := Some(WfError(CodeStepBudget, node));
      }
      if stop.Some? {
        var stopped := StopBeforeNode(state, collector.Contents(), stop.value);
        state, error := stopped.state, stopped.error;
        return;
      }
      state := state.(control := Begin(state.control, node));
      var accepted: bool;
      state, accepted := Emit(state, NodeStarted, node, "", None, 0, env.now(index, StartedEventAt));
      if !accepted {
        var failed := ObserverFailure(state, collector.Contents(), node);
        state, error := failed.state, failed.error;
        return;
      }
      finished, state, error := FinishNode(index, state, resume);
    }

    method FinishNode(index: nat, initial: WorkflowState<T>, resume: Option<ResumeCommand>)
      returns (finished: bool, state: WorkflowState<T>, error: Option<WfError>)
      requires index < |nodes|
      modifies collector
      ensures AfterStart(env, nodes[index], index, initial, old(collector.Contents()), resume)
           == if finished then Done(Outcome(state, error, collector.Contents())) else Next(state, collector.Contents())
    {
      var node := nodes[index];
      finished, state, error := true, initial, None;
      var output := env.execute(index, NodeInput(state, resume, ExecutionID(state.meta.runID, node, state.control.currentAttempt)));
      var duration := Elapsed(env.now(index, StartedAt), env.now(index, FinishedAt));
      var at := env.now(index, ClosingEventAt);
      var stop := Stopped(env, index, PostCheck, state);
      if stop.Some? {
        state, error := NodeFailure(state, node, StopAsNodeError(stop.value), duration, at);
        return;
      }
      if output.NodeErr? {
        state, error := NodeFailure(state, node, output.error, duration, at);
        return;
      }
      var accepted: bool;
      match output.directive {
        case DirectiveContinue =>
          if output.wait.Some? {
            state, error := NodeFailure(state, node, ContractBreach(), duration, at);
            return;
          }
          state := Complete(state, node, output.data);
          state, accepted := Emit(state, NodeCompleted, node, "", None, duration, at);
          finished := !accepted;
        case DirectiveSuspend =>
          if !AcceptableWait(state, node, output.wait, env.now(index, WaitCheck)) {
            state, error := NodeFailure(state, node, ContractBreach(), duration, at);
            return;
          }
          state := state.(data := output.data, control := state.control.(pendingWait := output.wait));
          var held := Transition(state.control, RunSuspended);
          if held.None? {
            error := Some(Fail(CodeInvalidState));
            return;
          }
          state, accepted := Emit(state.(control := held.value), NodeSuspended, node, output.wait.value.id, None, duration, at);
        case UnknownDirective(_) =>
          state, error := NodeFailure(state, node, ContractBreach(), duration, at);
          return;
      }
      if !accepted {
        var failed := ObserverFailure(state, collector.Contents(), node);
        state, error := failed.state, failed.error;
      }
    }

    method Run(initial: WorkflowState<T>) returns (state: WorkflowState<T>, error: Option<WfError>)
      modifies collector
      ensures Outcome(state, error, collector.Contents())
           == Spec.Run(env, nodes, initial, old(collector.Contents()))
    {
      state := initial;
      if !ValidState(state) {
        return state, StateRefusal(state);
      }
      if !Fresh(state.control) {
        return state, Some(Fail(CodeInvalidState));
      }
      var moved := Transition(state.control, RunRunning);
      state, error := ExecuteFrom(0, state.(control := moved.value), None);
    }

    method Resume(initial: WorkflowState<T>, command: ResumeCommand)
      returns (state: WorkflowState<T>, error: Option<WfError>)
      modifies collector
      ensures Outcome(state, error, collector.Contents())
           == Spec.Resume(env, nodes, initial, command, old(collector.Contents()))
    {
      state := initial;
      error := Admission(env, nodes, state, command);
      if error.Some? {
        return;
      }
      var wait := state.control.pendingWait.value;
      var resumed, accepted := Emit(state, NodeResumed, wait.nodeID, wait.id, None, 0, env.now(0, ResumedEventAt));
      if !accepted {
        return state, Some(WfError(CodeObserverFailed, wait.nodeID));
      }
      state := resumed.(control := Resumed(resumed.control));
      var moved := Transition(state.control, RunRunning);
      if moved.None? {
        return state, Some(Fail(CodeInvalidState));
      }
      state, error := ExecuteFrom(IndexOf(nodes, wait.nodeID), state.(control := moved.value), Some(command));
    }
  }
}
