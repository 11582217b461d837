// What holds in every state the durable runtime can reach, and over every run of it.
module WorkflowTheorems {
  import opened Basics
  import opened WorkflowCore
  import opened RunnerSpec
  import opened RunnerProofs
  import opened RunLog
  import opened StoreSpec
  import opened RuntimeSpec
  import opened WorkflowSystem
  import opened WorkflowInvariant

  // ---- Durable execution refines in-memory execution ----

  // Whatever claims, crashes, lease takeovers and refused commits happened in between,
  // a stored run decodes to the state, and its log is the log, of chaining Run and
  // Resume in memory over the executions that were committed.
  lemma DurableRefinesInMemory<T(!new)>(cfg: Config<T>, actions: seq<Action<T>>, id: string)
    requires ValidConfig(cfg) && id in Exec(cfg, Init(), actions).store.runs
    ensures var sys := Exec(cfg, Init(), actions);
            && id in sys.histories
            && var o := Chain(cfg.nodes, sys.histories[id]);
               && DecodeCheckpoint(sys.store.runs[id].checkpoint, cfg.definition, cfg.codec) == Ok(o.state)
               && Events(sys.store, id) == o.observer.events
  {
    hide Chain, DecodeCheckpoint, Exec;
    var sys := Exec(cfg, Init(), actions);
    Reachable(cfg, actions);
    assert RunInv(cfg, sys, id);
    StoredDecodes(cfg, id, sys.store.runs[id].checkpoint, Events(sys.store, id), sys.histories[id]);
  }

  // ---- The event log of a stored run ----

  ghost predicate Conserved(c: Control, budget: Budget, events: seq<NodeEvent>) {
    && |events| == c.eventSequence
    && (forall i :: 0 <= i < |events| ==> events[i].sequence == i + 1)
    && Count(events, NodeStarted) == c.stepsExecuted
    && c.stepsExecuted == Count(events, NodeCompleted) + Count(events, NodeSuspended) + Count(events, NodeFailed)
    && Count(events, NodeResumed) == c.resumeCount
    && Count(events, NodeSuspended) == c.resumeCount + (if c.status.RunSuspended? then 1 else 0)
    && (budget.maxSteps > 0 ==> c.stepsExecuted <= budget.maxSteps)
    && (budget.maxResumes > 0 ==> c.resumeCount <= budget.maxResumes)
  }

  // The nodes done are a prefix of the node list, all of it exactly when completed;
  // a suspended run waits at the next one.
  ghost predicate InProgress(c: Control, nodes: seq<string>) {
    && c.completedNodes <= nodes
    && (c.status.RunCompleted? <==> c.completedNodes == nodes)
    && (c.status.RunSuspended? ==> |c.completedNodes| < |nodes| && c.currentNode == nodes[|c.completedNodes|])
  }

  lemma SettledConserved<T>(nodes: seq<string>, st: WorkflowState<T>, events: seq<NodeEvent>)
    requires Settled(nodes, st, events)
    ensures Conserved(st.control, st.budget, events) && InProgress(st.control, nodes) && AttemptsDistinct(events)
  {
    hide Count;
  }

  lemma StoredLogConserved<T(!new)>(cfg: Config<T>, actions: seq<Action<T>>, id: string)
    requires ValidConfig(cfg) && id in Exec(cfg, Init(), actions).store.runs
    ensures var sys := Exec(cfg, Init(), actions);
            var run := sys.store.runs[id];
            && Conserved(run.checkpoint.control, run.checkpoint.budget, Events(sys.store, id))
            && InProgress(run.checkpoint.control, cfg.nodes)
            && AttemptsDistinct(Events(sys.store, id))
  {
    hide Exec, Settled, Conserved, InProgress, Chain, Coupled, HolderInv, ValidState;
    var sys := Exec(cfg, Init(), actions);
    Reachable(cfg, actions);
    assert RunInv(cfg, sys, id);
    var h := sys.histories[id];
    ChainSettled(cfg.nodes, h);
    var o := Chain(cfg.nodes, h);
    SettledConserved(cfg.nodes, o.state, o.observer.events);
  }

  // The execution ids handed to nodes, which they use as idempotency keys, never
  // repeat among the committed executions of a run.
  lemma CommittedExecutionIDsDistinct<T(!new)>(cfg: Config<T>, actions: seq<Action<T>>, id: string, i: int, j: int)
    requires ValidConfig(cfg) && id in Exec(cfg, Init(), actions).store.runs
    requires var log := Events(Exec(cfg, Init(), actions).store, id);
             i != j && Execution(log, i) && Execution(log, j)
    ensures var log := Events(Exec(cfg, Init(), actions).store, id);
            ExecutionID(id, log[i].nodeID, log[i].attempt) != ExecutionID(id, log[j].nodeID, log[j].attempt)
  {
    hide Chain, Exec, Count;
    var sys := Exec(cfg, Init(), actions);
    Reachable(cfg, actions);
    assert RunInv(cfg, sys, id);
    var h := sys.histories[id];
    ChainSettled(cfg.nodes, h);
    ChainKeepsMeta(cfg.nodes, h);
    ExecutionIDsDistinct(cfg.nodes, Chain(cfg.nodes, h).state, Events(sys.store, id), i, j);
  }

  // ---- Runs, waits and claims ----

  // A run is suspended exactly when its last wait is open, and then on that wait; every
  // earlier wait is resolved; a suspended run is claimed exactly when that wait is
  // processing, under the same token and lease; a finished run is never claimed.
  lemma RunWaitClaimCoupled<T(!new)>(cfg: Config<T>, actions: seq<Action<T>>, id: string)
    requires ValidConfig(cfg) && id in Exec(cfg, Init(), actions).store.runs
    ensures var sys := Exec(cfg, Init(), actions);
            Aligned(sys.store.runs[id], Waits(sys.store, id))
  {
    hide Exec, Coupled, Refines, HolderInv;
    var sys := Exec(cfg, Init(), actions);
    Reachable(cfg, actions);
    assert RunInv(cfg, sys, id);
    CoupledAligned(sys.store.runs[id], Waits(sys.store, id));
  }

  ghost predicate Aligned(run: StoredWorkflow, waits: seq<StoredWait>) {
    var c := run.checkpoint.control;
    && (c.status.RunSuspended? <==> waits != [] && !waits[|waits| - 1].status.Terminal())
    && (forall i :: 0 <= i < |waits| - 1 ==> waits[i].status.WaitResolved?)
    && (c.status.RunSuspended? ==>
         && c.pendingWait == Some(waits[|waits| - 1].point)
         && run.claim == waits[|waits| - 1].claim
         && (run.claim.Some? <==> waits[|waits| - 1].status.WaitProcessing?))
    && (c.status.Terminal() ==> run.claim.None?)
    && !c.status.RunRunning?
  }

  lemma CoupledAligned(run: StoredWorkflow, waits: seq<StoredWait>)
    requires Coupled(run, waits)
    ensures Aligned(run, waits)
  {
  }

  // ---- When a commit is accepted ----

  // The runner got past Resume's admission checks; Run always does.
  ghost predicate Admitted<T>(cfg: Config<T>, w: Worker<T>, env: Env<T>) {
    match w.command
    case None => true
    case Some(command) => Admission(env, cfg.nodes, w.state, command).None?
  }

  // The runner suspended the run again under the wait id it was resumed with.
  ghost predicate RepeatsWaitID<T>(cfg: Config<T>, w: Worker<T>, env: Env<T>) {
    var c := Executed(cfg, w, env).state.control;
    && w.command.Some?
    && c.status.RunSuspended?
    && c.pendingWait.Some? && c.pendingWait.value.id == w.command.value.waitID
  }

  ghost predicate Encodes<T>(cfg: Config<T>, data: T) {
    cfg.codec.encode(data).Ok? && 0 < |cfg.codec.encode(data).value| <= CheckpointLimit(cfg.maxCheckpointBytes)
  }

  // A worker whose claim is still the run's: its commit is accepted exactly when the
  // runner was admitted, the resulting data encodes, the lease is live and a new wait
  // has a new id. In particular the runner's events are always the contiguous batch
  // the store asks for, and its state always makes a valid checkpoint.
  lemma CommitAcceptance<T(!new)>(cfg: Config<T>, sys: System<T>, token: string, env: Env<T>, now: Time)
    requires ValidConfig(cfg) && Inv(cfg, sys) && token in sys.workers
    requires var id := sys.workers[token].state.meta.runID;
             id in sys.store.runs && HeldBy(sys.store.runs[id].claim, token) && ValidIdentifier(token)
    ensures var w := sys.workers[token];
            var built := WorkerRequest(cfg, w, env, now);
            (built.Ok? && CommitRefusal(sys.store, built.value).None?) <==>
              && Admitted(cfg, w, env)
              && Encodes(cfg, Executed(cfg, w, env).state.data)
              && now != ZERO_TIME && Live(sys.store.runs[w.state.meta.runID].claim, now)
              && !RepeatsWaitID(cfg, w, env)
  {
    hide Chain, Executed, Coupled, Contiguous, Holder, ValidState, Refines;
    var w := sys.workers[token];
    var id := w.state.meta.runID;
    assert RunInv(cfg, sys, id);
    assert HolderInv(cfg, sys, id, token);
    HeldExecution(cfg, sys.store.runs[id], Waits(sys.store, id), Events(sys.store, id), sys.histories[id], w, env, now);
  }

  // The facts about the runner's outcome that decide a commit.
  lemma HeldExecution<T(!new)>(cfg: Config<T>, run: StoredWorkflow, waits: seq<StoredWait>, events: seq<NodeEvent>,
                               h: History<T>, w: Worker<T>, env: Env<T>, now: Time)
    requires ValidConfig(cfg) && Refines(cfg, w.state.meta.runID, run.checkpoint, events, h) && Coupled(run, waits)
    requires Holder(run, Chain(cfg.nodes, h).state, w) && HeldBy(run.claim, w.token)
    ensures var o := Executed(cfg, w, env);
            var built := WorkerRequest(cfg, w, env, now);
            && w.owner == run.owner
            && w.state.control == run.checkpoint.control
            && (built.Ok? <==> Encodes(cfg, o.state.data))
            && (built.Ok? ==>
                 && ValidEnvelope(built.value.checkpoint)
                 && built.value.checkpoint.meta.runID == w.state.meta.runID
                 && built.value.checkpoint.control == o.state.control
                 && built.value.runID == w.state.meta.runID && built.value.now == now && built.value.token == w.token
                 && built.value.owner == w.owner && built.value.expectedVersion == w.state.control.stateVersion
                 && Contiguous(run.checkpoint.control.eventSequence, o.state.control.eventSequence, w.state.meta.runID, built.value.events)
                 && (CommittedWaits(waits, built.value).Ok? <==> !RepeatsWaitID(cfg, w, env)))
            && (o.state.control.stateVersion > w.state.control.stateVersion <==> Admitted(cfg, w, env))
  {
    hide Chain, Call, Contiguous, DecodeCheckpoint;
    StoredDecodes(cfg, w.state.meta.runID, run.checkpoint, events, h);
    ExecutedExtendsChain(cfg, h, w, env);
    AdmittedAdvances(cfg, h, w, env);
    var o := Executed(cfg, w, env);
    EncodeRefusal(o.state, cfg.codec, cfg.maxCheckpointBytes);
    EncodeRefusal(w.state, cfg.codec, cfg.maxCheckpointBytes);
    var built := WorkerRequest(cfg, w, env, now);
    if built.Ok? {
      HeldWaits(run, waits, w, built.value);
    }
  }

  lemma HeldWaits<T>(run: StoredWorkflow, waits: seq<StoredWait>, w: Worker<T>, r: CommitRequest)
    requires Coupled(run, waits) && Holder(run, w.state, w) && HeldBy(run.claim, w.token)
    requires r.token == w.token
    requires r.resolvedWaitID == (if w.command.Some? then w.command.value.waitID else "")
    requires r.actor == (if w.command.Some? then Some(w.actor) else None)
    requires ValidControl(r.checkpoint.control)
    ensures CommittedWaits(waits, r).Ok? <==>
              !(w.command.Some? && r.checkpoint.control.status.RunSuspended?
                && r.checkpoint.control.pendingWait.value.id == w.command.value.waitID)
  {
  }

  lemma AdmittedAdvances<T>(cfg: Config<T>, h: History<T>, w: Worker<T>, env: Env<T>)
    requires ValidNodes(cfg.nodes) && NewRun(h.initial) && w.state == Chain(cfg.nodes, h).state
    requires w.command.None? ==> w.state.control.status.RunPending?
    ensures var o := Executed(cfg, w, env);
            && (o.state.control.stateVersion > w.state.control.stateVersion <==> Admitted(cfg, w, env))
            && ValidState(o.state) && o.state.meta == w.state.meta
  {
    hide Chain, Run, RunnerSpec.Resume, Observed, Balanced, AttemptsBefore, AttemptsDistinct;
    ChainSettled(cfg.nodes, h);
    match w.command
    case None => RunCommittable(env, cfg.nodes, w.state, EMPTY_COLLECTOR);
    case Some(command) =>
      ResumeCommittable(env, cfg.nodes, w.state, command, EMPTY_COLLECTOR);
      if Admission(env, cfg.nodes, w.state, command).None? {
        AdmittedResumes(env, cfg.nodes, w.state, command);
      }
  }

  lemma AdmittedResumes<T>(env: Env<T>, nodes: seq<string>, st: WorkflowState<T>, command: ResumeCommand)
    requires ValidNodes(nodes) && Admission(env, nodes, st, command).None?
    ensures Advanced(st, RunnerSpec.Resume(env, nodes, st, command, EMPTY_COLLECTOR).state)
  {
    hide ExecuteFrom;
    var wait := st.control.pendingWait.value;
    var m := Emit(st, EMPTY_COLLECTOR, NodeResumed, wait.nodeID, wait.id, None, 0, env.now(0, ResumedEventAt));
    EmitFits(st, EMPTY_COLLECTOR, NodeResumed, wait.nodeID, wait.id, None, 0, env.now(0, ResumedEventAt));
    var started := m.state.(control := Transition(Resumed(m.state.control), RunRunning).value);
    ExecuteAdvances(st, env, nodes, IndexOf(nodes, wait.nodeID), started, m.observer, Some(command));
  }

  // ---- Fencing ----

  ghost predicate Accepted<T>(cfg: Config<T>, sys: System<T>, a: Action<T>, id: string) {
    && a.Committing? && a.token in sys.workers
    && var built := WorkerRequest(cfg, sys.workers[a.token], a.env, a.now);
       built.Ok? && built.value.runID == id && CommitRefusal(sys.store, built.value).None?
  }

  ghost predicate SameOrLater(before: Envelope, after: Envelope) {
    || after == before
    || (after.control.stateVersion > before.control.stateVersion && !before.control.status.Terminal())
  }

  // A store operation other than a commit leaves every checkpoint as it is.
  ghost predicate SameCheckpoints(before: Store, after: Store) {
    forall id :: id in before.runs ==> id in after.runs && after.runs[id].checkpoint == before.runs[id].checkpoint
  }

  lemma OtherStepsKeepCheckpoints<T>(cfg: Config<T>, sys: System<T>, a: Action<T>)
    requires !a.Committing?
    ensures SameCheckpoints(sys.store, Step(cfg, sys, a).store)
  {
    hide SameCheckpoints, CreateRun, ClaimRun, ClaimWait, RenewClaim, DecodeCheckpoint, StartRefusal, NewStored, NewRun, SameKey;
    SameItself(sys.store);
    if Enabled(cfg, sys, a) {
      match a
      case Create(input, found, now) => CreateKeepsCheckpoints(sys.store, NewStored(cfg, input, now), found);
      case Claiming(owner, runID, version, token, now) =>
        ClaimKeepsCheckpoints(sys.store, ClaimRunRequest(owner, runID, version, LeaseOf(cfg, token, now), now));
      case ClaimingWait(owner, runID, version, command, actor, token, now) =>
        WaitClaimKeepsCheckpoints(sys.store, ClaimWaitRequest(owner, runID, version, command, actor, LeaseOf(cfg, token, now), now));
      case Renewing(owner, runID, token, now) =>
        RenewalKeepsCheckpoints(sys.store, RenewRequest(owner, runID, token, now + cfg.leaseDuration, now));
    }
  }

  lemma SameItself(s: Store)
    ensures SameCheckpoints(s, s)
  {
  }

  lemma CreateKeepsCheckpoints(s: Store, run: StoredWorkflow, found: Option<string>)
    requires found.Some? ==> found.value in s.runs
    ensures SameCheckpoints(s, CreateRun(s, run, found).0)
  {
    hide RunRefusal, SameStartRequest;
  }

  lemma ClaimKeepsCheckpoints(s: Store, r: ClaimRunRequest)
    ensures SameCheckpoints(s, ClaimRun(s, r).0)
  {
  }

  lemma WaitClaimKeepsCheckpoints(s: Store, r: ClaimWaitRequest)
    ensures SameCheckpoints(s, ClaimWait(s, r).0)
  {
  }

  lemma RenewalKeepsCheckpoints(s: Store, r: RenewRequest)
    ensures SameCheckpoints(s, RenewClaim(s, r).0)
  {
  }

  lemma StepFences<T(!new)>(cfg: Config<T>, sys: System<T>, a: Action<T>, id: string)
    requires ValidConfig(cfg) && Inv(cfg, sys) && id in sys.store.runs
    ensures var next := Step(cfg, sys, a);
            && id in next.store.runs
            && SameOrLater(sys.store.runs[id].checkpoint, next.store.runs[id].checkpoint)
            && (Accepted(cfg, sys, a, id) ==>
                 next.store.runs[id].checkpoint.control.stateVersion > sys.store.runs[id].checkpoint.control.stateVersion)
  {
    hide Refines, EncodeCheckpoint, Executed, CommittedWaits, HolderInv, Contiguous, ValidEnvelope;
    assert RunInv(cfg, sys, id);
    if !a.Committing? {
      OtherStepsKeepCheckpoints(cfg, sys, a);
    }
  }

  lemma {:induction false} ExecAppend<T>(cfg: Config<T>, sys: System<T>, first: seq<Action<T>>, more: seq<Action<T>>)
    ensures Exec(cfg, sys, first + more) == Exec(cfg, Exec(cfg, sys, first), more)
    decreases |more|
  {
    hide Step;
    if more == [] {
      assert first + more == first;
    } else {
      var last := |more| - 1;
      ExecAppend(cfg, sys, first, more[..last]);
      assert (first + more)[..|first| + last] == first + more[..last];
    }
  }

  // Over any further steps a stored checkpoint only ever gives way to one of a larger
  // version, and a terminal one to none.
  lemma {:induction false} Fenced<T(!new)>(cfg: Config<T>, sys: System<T>, actions: seq<Action<T>>, id: string)
    requires ValidConfig(cfg) && Inv(cfg, sys) && id in sys.store.runs
    ensures var next := Exec(cfg, sys, actions);
            && Inv(cfg, next) && id in next.store.runs
            && SameOrLater(sys.store.runs[id].checkpoint, next.store.runs[id].checkpoint)
    decreases |actions|
  {
    hide Inv, Step;
    if actions != [] {
      var last := |actions| - 1;
      Fenced(cfg, sys, actions[..last], id);
      var before := Exec(cfg, sys, actions[..last]);
      StepKeepsInv(cfg, before, actions[last]);
      StepFences(cfg, before, actions[last], id);
    }
  }

  // Two commits accepted for one run happened at different, increasing versions: no
  // state version is ever committed over twice.
  lemma OneCommitPerVersion<T(!new)>(cfg: Config<T>, actions: seq<Action<T>>, i: nat, j: nat, id: string)
    requires ValidConfig(cfg) && i < j < |actions|
    requires Accepted(cfg, Exec(cfg, Init(), actions[..i]), actions[i], id)
    requires Accepted(cfg, Exec(cfg, Init(), actions[..j]), actions[j], id)
    ensures var before, after := Exec(cfg, Init(), actions[..i]), Exec(cfg, Init(), actions[..j]);
            && id in before.store.runs && id in after.store.runs
            && before.store.runs[id].checkpoint.control.stateVersion < after.store.runs[id].checkpoint.control.stateVersion
  {
    hide Inv, Exec, Step, WorkerRequest;
    var before := Exec(cfg, Init(), actions[..i]);
    Reachable(cfg, actions[..i]);
    StepKeepsInv(cfg, before, actions[i]);
    StepFences(cfg, before, actions[i], id);
    var next := Step(cfg, before, actions[i]);
    Fenced(cfg, next, actions[i + 1..j], id);
    assert actions[..i + 1] == actions[..i] + [actions[i]];
    ExecOne(cfg, before, actions[i]);
    ExecAppend(cfg, Init(), actions[..i], [actions[i]]);
    assert actions[..j] == actions[..i + 1] + actions[i + 1..j];
    ExecAppend(cfg, Init(), actions[..i + 1], actions[i + 1..j]);
  }

  lemma ExecOne<T>(cfg: Config<T>, sys: System<T>, a: Action<T>)
    ensures Exec(cfg, sys, [a]) == Step(cfg, sys, a)
  {
  }

  // A run that has finished is never touched again.
  lemma TerminalIsFinal<T(!new)>(cfg: Config<T>, actions: seq<Action<T>>, more: seq<Action<T>>, id: string)
    requires ValidConfig(cfg) && id in Exec(cfg, Init(), actions).store.runs
    requires Exec(cfg, Init(), actions).store.runs[id].checkpoint.control.status.Terminal()
    ensures id in Exec(cfg, Init(), actions + more).store.runs
    ensures Exec(cfg, Init(), actions + more).store.runs[id].checkpoint
         == Exec(cfg, Init(), actions).store.runs[id].checkpoint
  {
    hide Inv, Exec;
    Reachable(cfg, actions);
    Fenced(cfg, Exec(cfg, Init(), actions), more, id);
    ExecAppend(cfg, Init(), actions, more);
  }
}
