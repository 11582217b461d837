// Every step of the system keeps the invariant, whatever the interleaving.
module WorkflowInvariant {
  import opened Basics
  import opened WorkflowCore
  import opened RunnerSpec
  import opened RunnerProofs
  import opened RunLog
  import opened StoreSpec
  import opened RuntimeSpec
  import opened WorkflowSystem

  lemma {:induction false} ChainKeepsMeta<T>(nodes: seq<string>, h: History<T>)
    requires ValidNodes(nodes)
    ensures Chain(nodes, h).state.meta == h.initial.meta && Chain(nodes, h).state.budget == h.initial.budget
    decreases |h.segments|
  {
    if h.segments != [] {
      var last := |h.segments| - 1;
      var shorter := h.(segments := h.segments[..last]);
      ChainKeepsMeta(nodes, shorter);
      var before := Chain(nodes, shorter);
      CallCommittable(nodes, before.state, before.observer, h.segments[last]);
    }
  }

  lemma CallCommittable<T>(nodes: seq<string>, st: WorkflowState<T>, observer: Observer, segment: Segment<T>)
    requires ValidNodes(nodes)
    ensures Committable(st, Call(nodes, st, observer, segment))
  {
    match segment.command
    case None => RunCommittable(segment.env, nodes, st, observer);
    case Some(command) => ResumeCommittable(segment.env, nodes, st, command, observer);
  }

  lemma CallSame<T>(nodes: seq<string>, st: WorkflowState<T>, a: Observer, b: Observer, segment: Segment<T>)
    requires ValidNodes(nodes) && Fits(a, st) && Fits(b, st)
    ensures SameFrom(Call(nodes, st, a, segment), Call(nodes, st, b, segment), a, b)
  {
    match segment.command
    case None => RunSame(segment.env, nodes, st, a, b);
    case Some(command) => ResumeSame(segment.env, nodes, st, command, a, b);
  }

  lemma ChainExtend<T>(nodes: seq<string>, h: History<T>, segment: Segment<T>)
    ensures var before := Chain(nodes, h);
            Chain(nodes, h.(segments := h.segments + [segment])) == Call(nodes, before.state, before.observer, segment)
  {
  }

  // A worker that executes a run's stored state, with a collector of its own, does
  // exactly what continuing the in-memory chain does.
  lemma ExecutedExtendsChain<T>(cfg: Config<T>, h: History<T>, w: Worker<T>, env: Env<T>)
    requires ValidNodes(cfg.nodes) && NewRun(h.initial) && w.state == Chain(cfg.nodes, h).state
    ensures var o := Executed(cfg, w, env);
            var longer := Chain(cfg.nodes, h.(segments := h.segments + [Segment(env, w.command)]));
            && longer.state == o.state && longer.error == o.error
            && longer.observer.events == Chain(cfg.nodes, h).observer.events + o.observer.events
            && Contiguous(w.state.control.eventSequence, o.state.control.eventSequence, w.state.meta.runID, o.observer.events)
  {
    hide Chain, Call, Observed, Balanced, WithinBudget, AttemptsBefore, AttemptsDistinct, NaturalAttempts, ValidState;
    var before := Chain(cfg.nodes, h);
    var segment := Segment(env, w.command);
    ChainSettled(cfg.nodes, h);
    ChainExtend(cfg.nodes, h, segment);
    CallSame(cfg.nodes, w.state, before.observer, EMPTY_COLLECTOR, segment);
    CallCommittable(cfg.nodes, w.state, before.observer, segment);
    var longer := Chain(cfg.nodes, h.(segments := h.segments + [segment]));
    ChainSettled(cfg.nodes, h.(segments := h.segments + [segment]));
    var o := Executed(cfg, w, env);
    var batch := o.observer.events;
    assert batch == Suffix([], batch) == Suffix(before.observer.events, longer.observer.events);
    assert longer.observer.events == before.observer.events + batch;
    forall i | 0 <= i < |batch|
      ensures EventInPlace(batch[i], w.state.meta.runID, w.state.control.eventSequence + i + 1)
    {
      assert batch[i] == longer.observer.events[|before.observer.events| + i];
    }
  }

  // What a stored run decodes to.
  lemma StoredDecodes<T(!new)>(cfg: Config<T>, id: string, checkpoint: Envelope, events: seq<NodeEvent>, h: History<T>)
    requires ValidConfig(cfg) && Refines(cfg, id, checkpoint, events, h)
    ensures DecodeCheckpoint(checkpoint, cfg.definition, cfg.codec) == Ok(Chain(cfg.nodes, h).state)
    ensures Chain(cfg.nodes, h).state.meta.runID == id
    ensures Chain(cfg.nodes, h).state.control == checkpoint.control
  {
    hide Chain;
    ChainKeepsMeta(cfg.nodes, h);
    CheckpointRoundTrip(Chain(cfg.nodes, h).state, cfg.codec, cfg.maxCheckpointBytes);
  }

  // ---- Frames ----

  // Nothing but the run `id` changed, and no worker that was there changed.
  ghost predicate OnlyRun<T>(a: System<T>, b: System<T>, id: string) {
    && a.store.runs.Keys - {id} == b.store.runs.Keys - {id}
    && a.issued <= b.issued
    && forall other :: other in a.store.runs && other != id ==>
         && other in b.store.runs && a.store.runs[other] == b.store.runs[other]
         && Waits(a.store, other) == Waits(b.store, other)
         && Events(a.store, other) == Events(b.store, other)
         && (other in a.histories ==> other in b.histories && a.histories[other] == b.histories[other])
  }

  lemma OthersKeepInv<T>(cfg: Config<T>, a: System<T>, b: System<T>, id: string, other: string)
    requires Inv(cfg, a) && OnlyRun(a, b, id)
    requires other in b.store.runs && other != id
    ensures RunInv(cfg, b, other)
    ensures forall token :: token in a.workers && token in b.workers && a.workers[token] == b.workers[token] ==>
              HolderInv(cfg, b, other, token)
  {
    hide Refines, Coupled, Chain, Holder, Waits, Events;
    assert other in b.store.runs.Keys - {id};
    assert RunInv(cfg, a, other);
    forall token | token in a.workers && token in b.workers && a.workers[token] == b.workers[token]
      ensures HolderInv(cfg, b, other, token)
    {
      assert HolderInv(cfg, a, other, token);
    }
  }

  // The invariant of the whole from the invariant of the one run that changed.
  lemma OneRunKeepsInv<T>(cfg: Config<T>, a: System<T>, b: System<T>, id: string)
    requires Inv(cfg, a) && OnlyRun(a, b, id)
    requires id in b.store.runs && RunInv(cfg, b, id)
    requires b.store.waits.Keys <= b.store.runs.Keys && b.store.events.Keys <= b.store.runs.Keys
    requires b.workers == a.workers
    requires forall token :: token in a.workers ==> HolderInv(cfg, b, id, token)
    ensures Inv(cfg, b)
  {
    assert a.issued <= b.issued;
    hide RunInv, HolderInv, OnlyRun;
    forall other | other in b.store.runs
      ensures RunInv(cfg, b, other)
      ensures forall token :: token in b.workers ==> HolderInv(cfg, b, other, token)
    {
      if other != id {
        OthersKeepInv(cfg, a, b, id, other);
      }
    }
  }

  // ---- Create ----

  lemma CreateStep<T(!new)>(cfg: Config<T>, sys: System<T>, input: StartInput<T>, found: Option<string>, now: Time)
    requires ValidConfig(cfg) && Inv(cfg, sys) && Enabled(cfg, sys, Create(input, found, now))
    ensures Inv(cfg, Step(cfg, sys, Create(input, found, now)))
  {
    hide Chain, EncodeCheckpoint, RunRefusal, NewRun, RunInv, HolderInv, StartRefusal, NewStored, OnlyRun, SameKey, SameStartRequest;
    var next := Step(cfg, sys, Create(input, found, now));
    var run := NewStored(cfg, input, now);
    var id := run.checkpoint.meta.runID;
    if RunRefusal(run).None? && found.None? && id !in sys.store.runs {
      NewRunInv(cfg, next, input, now);
      CreatedOnly(sys, run, History(input.state, []));
      OneRunKeepsInv(cfg, sys, next, id);
    }
  }

  lemma CreatedOnly<T>(sys: System<T>, run: StoredWorkflow, h: History<T>)
    requires run.checkpoint.meta.runID !in sys.store.runs
    ensures var id := run.checkpoint.meta.runID;
            OnlyRun(sys, sys.(store := sys.store.(runs := sys.store.runs[id := run]), histories := sys.histories[id := h]), id)
  {
  }

  lemma NewRunInv<T(!new)>(cfg: Config<T>, next: System<T>, input: StartInput<T>, now: Time)
    requires StartRefusal(cfg, input).None? && NewRun(input.state)
    requires var run := NewStored(cfg, input, now);
             var id := run.checkpoint.meta.runID;
             && id in next.store.runs && next.store.runs[id] == run
             && id !in next.store.waits && id !in next.store.events
             && id in next.histories && next.histories[id] == History(input.state, [])
    ensures var id := NewStored(cfg, input, now).checkpoint.meta.runID;
            RunInv(cfg, next, id) && forall token :: token in next.workers ==> HolderInv(cfg, next, id, token)
  {
  }

  // ---- Claims ----

  ghost predicate MayHold(run: StoredWorkflow, command: Option<ResumeCommand>, actor: Actor) {
    match command
    case None => run.checkpoint.control.status.RunPending?
    case Some(c) =>
      && run.checkpoint.control.status.RunSuspended?
      && run.checkpoint.control.pendingWait.Some?
      && c.waitID == run.checkpoint.control.pendingWait.value.id
      && ValidIdentifier(c.waitID) && ValidActor(actor)
  }

  lemma ClaimKeepsInv<T(!new)>(cfg: Config<T>, sys: System<T>, store: Store, id: string, owner: Owner, token: string,
                               command: Option<ResumeCommand>, actor: Actor)
    requires ValidConfig(cfg) && Inv(cfg, sys) && token !in sys.issued
    requires id in sys.store.runs && store.runs.Keys == sys.store.runs.Keys
    requires store.waits.Keys <= store.runs.Keys && store.events == sys.store.events
    requires OnlyRun(sys, sys.(store := store), id)
    requires store.runs[id].checkpoint == sys.store.runs[id].checkpoint
    requires store.runs[id].owner == owner
    requires HeldBy(store.runs[id].claim, token)
    requires Coupled(store.runs[id], Waits(store, id))
    requires MayHold(store.runs[id], command, actor)
    ensures Inv(cfg, Joined(cfg, sys, store, store.runs[id], owner, token, command, actor))
  {
    hide Refines, Coupled, Chain, DecodeCheckpoint, Waits;
    var next := Joined(cfg, sys, store, store.runs[id], owner, token, command, actor);
    var base := sys.(store := store, issued := sys.issued + {token});
    assert RunInv(cfg, sys, id);
    StoredDecodes(cfg, id, store.runs[id].checkpoint, Events(store, id), sys.histories[id]);
    OneRunKeepsInv(cfg, sys, base, id);
    forall other, t | other in next.store.runs && t in next.workers
      ensures HolderInv(cfg, next, other, t)
    {
      if t == token {
        if other != id {
          assert RunInv(cfg, sys, other);
        }
      } else {
        assert HolderInv(cfg, base, other, t);
      }
    }
    forall other | other in next.store.runs
      ensures RunInv(cfg, next, other)
    {
      assert RunInv(cfg, base, other);
    }
  }

  lemma ClaimedRunOnlyRun<T>(sys: System<T>, r: ClaimRunRequest)
    ensures OnlyRun(sys, sys.(store := ClaimRun(sys.store, r).0), r.runID)
  {
    hide ClaimRefusal;
  }

  lemma ClaimingStep<T(!new)>(cfg: Config<T>, sys: System<T>, owner: Owner, runID: string, version: int, token: string, now: Time)
    requires ValidConfig(cfg) && Inv(cfg, sys) && Enabled(cfg, sys, Claiming(owner, runID, version, token, now))
    ensures Inv(cfg, Step(cfg, sys, Claiming(owner, runID, version, token, now)))
  {
    hide Chain, Refines, DecodeCheckpoint, HolderInv, ClaimRefusal, OnlyRun;
    var request := ClaimRunRequest(owner, runID, version, LeaseOf(cfg, token, now), now);
    if ClaimRunRefusal(sys.store, request).None? {
      assert RunInv(cfg, sys, runID);
      ClaimedRunOnlyRun(sys, request);
      ClaimKeepsInv(cfg, sys, ClaimRun(sys.store, request).0, runID, owner, token, None, Actor("", ""));
    }
  }

  lemma ClaimedWaitOnlyRun<T>(sys: System<T>, r: ClaimWaitRequest)
    ensures OnlyRun(sys, sys.(store := ClaimWait(sys.store, r).0), r.runID)
  {
    hide ClaimRefusal, ResumeRefusal;
  }

  lemma ClaimedWaitCoupled(s: Store, r: ClaimWaitRequest)
    requires ClaimWaitRefusal(s, r).None? && Coupled(s.runs[r.runID], Waits(s, r.runID))
    ensures var next := ClaimWait(s, r).0;
            && Coupled(next.runs[r.runID], Waits(next, r.runID))
            && MayHold(next.runs[r.runID], Some(r.command), r.actor)
  {
  }

  lemma ClaimingWaitStep<T(!new)>(cfg: Config<T>, sys: System<T>, owner: Owner, runID: string, version: int,
                                  command: ResumeCommand, actor: Actor, token: string, now: Time)
    requires ValidConfig(cfg) && Inv(cfg, sys)
    requires Enabled(cfg, sys, ClaimingWait(owner, runID, version, command, actor, token, now))
    ensures Inv(cfg, Step(cfg, sys, ClaimingWait(owner, runID, version, command, actor, token, now)))
  {
    hide Chain, Refines, DecodeCheckpoint, HolderInv, ClaimRefusal, ResumeRefusal, Coupled, MayHold, OnlyRun;
    var request := ClaimWaitRequest(owner, runID, version, command, actor, LeaseOf(cfg, token, now), now);
    if ClaimWaitRefusal(sys.store, request).None? {
      assert RunInv(cfg, sys, runID);
      ClaimedWaitCoupled(sys.store, request);
      ClaimedWaitOnlyRun(sys, request);
      ClaimKeepsInv(cfg, sys, ClaimWait(sys.store, request).0, runID, owner, token, Some(command), actor);
    }
  }

  // ---- Renewal ----

  lemma RenewedCoupled(s: Store, r: RenewRequest)
    requires RenewRefusal(s, r).None? && Coupled(s.runs[r.runID], Waits(s, r.runID))
    ensures var next := RenewClaim(s, r).0;
            Coupled(next.runs[r.runID], Waits(next, r.runID))
  {
  }

  lemma RenewedOnlyRun<T>(sys: System<T>, r: RenewRequest)
    ensures OnlyRun(sys, sys.(store := RenewClaim(sys.store, r).0), r.runID)
  {
    hide RenewRefusal, LastHeldBy;
  }

  lemma RenewedRunInv<T>(cfg: Config<T>, sys: System<T>, r: RenewRequest)
    requires Inv(cfg, sys) && RenewRefusal(sys.store, r).None?
    ensures RunInv(cfg, sys.(store := RenewClaim(sys.store, r).0), r.runID)
  {
    hide Chain, Refines, Coupled, LastHeldBy, HolderInv;
    assert RunInv(cfg, sys, r.runID);
    RenewedCoupled(sys.store, r);
  }

  lemma RenewingStep<T(!new)>(cfg: Config<T>, sys: System<T>, owner: Owner, runID: string, token: string, now: Time)
    requires ValidConfig(cfg) && Inv(cfg, sys)
    ensures Inv(cfg, Step(cfg, sys, Renewing(owner, runID, token, now)))
  {
    hide Chain, Refines, Coupled, LastHeldBy, Live, RunInv, OnlyRun, Waits, Events;
    var next := Step(cfg, sys, Renewing(owner, runID, token, now));
    var request := RenewRequest(owner, runID, token, now + cfg.leaseDuration, now);
    if RenewRefusal(sys.store, request).None? {
      RenewedRunInv(cfg, sys, request);
      RenewedOnlyRun(sys, request);
      forall t | t in sys.workers
        ensures HolderInv(cfg, next, runID, t)
      {
        assert HolderInv(cfg, sys, runID, t);
      }
      OneRunKeepsInv(cfg, sys, next, runID);
    }
  }

  // ---- Commit ----

  // The waits a commit leaves behind fit the checkpoint it stores.
  lemma CommitCoupled(run: StoredWorkflow, waits: seq<StoredWait>, r: CommitRequest)
    requires Coupled(run, waits) && CommittedWaits(waits, r).Ok?
    requires if r.resolvedWaitID == "" then run.checkpoint.control.status.RunPending?
             else run.checkpoint.control.status.RunSuspended?
    requires r.checkpoint.control.status.RunSuspended? || r.checkpoint.control.status.Terminal()
    ensures Coupled(run.(checkpoint := r.checkpoint, claim := None, updatedAt := r.now), CommittedWaits(waits, r).value)
  {
  }

  lemma CommitRunInv<T(!new)>(cfg: Config<T>, id: string, run: StoredWorkflow, waits: seq<StoredWait>,
                              events: seq<NodeEvent>, h: History<T>, w: Worker<T>, env: Env<T>, request: CommitRequest)
    requires ValidConfig(cfg) && Refines(cfg, id, run.checkpoint, events, h) && Coupled(run, waits)
    requires Holder(run, Chain(cfg.nodes, h).state, w)
    requires WorkerRequest(cfg, w, env, request.now) == Ok(request) && CommittedWaits(waits, request).Ok?
    requires request.checkpoint.control.stateVersion > w.state.control.stateVersion
    ensures Refines(cfg, id, request.checkpoint, events + request.events, h.(segments := h.segments + [Segment(env, w.command)]))
    ensures Coupled(run.(checkpoint := request.checkpoint, claim := None, updatedAt := request.now),
                    CommittedWaits(waits, request).value)
  {
    hide Chain, Call, Coupled, CommittedWaits, ValidState, Advanced, Contiguous;
    ExecutedExtendsChain(cfg, h, w, env);
    ExecutedAdvances(cfg, w, env);
    CommitCoupled(run, waits, request);
  }

  lemma ExecutedAdvances<T>(cfg: Config<T>, w: Worker<T>, env: Env<T>)
    requires ValidNodes(cfg.nodes)
    ensures var o := Executed(cfg, w, env);
            o.state.control.stateVersion > w.state.control.stateVersion ==>
              o.state.control.status.RunSuspended? || o.state.control.status.Terminal()
  {
    hide Call, ValidState;
    CallCommittable(cfg.nodes, w.state, EMPTY_COLLECTOR, Segment(env, w.command));
  }

  lemma CommitOnlyRun<T>(sys: System<T>, r: CommitRequest, w: Worker<T>, env: Env<T>)
    requires r.runID == w.state.meta.runID
    ensures OnlyRun(sys, Committed(sys, Commit(sys.store, r).0, w, env), r.runID)
  {
    hide CommittedWaits, Contiguous, ValidEnvelope;
  }

  lemma CommitStep<T(!new)>(cfg: Config<T>, sys: System<T>, token: string, env: Env<T>, now: Time)
    requires ValidConfig(cfg) && Inv(cfg, sys) && token in sys.workers
    ensures Inv(cfg, Step(cfg, sys, Committing(token, env, now)))
  {
    hide Chain, Refines, Coupled, CommittedWaits, Contiguous, ValidEnvelope, Holder, EncodeCheckpoint, Executed, Live, OnlyRun;
    var next := Step(cfg, sys, Committing(token, env, now));
    var w := sys.workers[token];
    var built := WorkerRequest(cfg, w, env, now);
    if built.Ok? && CommitRefusal(sys.store, built.value).None? {
      var request := built.value;
      var id := request.runID;
      var run := sys.store.runs[id];
      assert RunInv(cfg, sys, id);
      assert HolderInv(cfg, sys, id, token);
      CommitRunInv(cfg, id, run, Waits(sys.store, id), Events(sys.store, id), sys.histories[id], w, env, request);
      CommitOnlyRun(sys, request, w, env);
      OneRunKeepsInv(cfg, sys, next, id);
    }
  }

  lemma StepKeepsInv<T(!new)>(cfg: Config<T>, sys: System<T>, a: Action<T>)
    requires ValidConfig(cfg) && Inv(cfg, sys)
    ensures Inv(cfg, Step(cfg, sys, a))
  {
    if Enabled(cfg, sys, a) {
      match a
      case Create(input, found, now) => CreateStep(cfg, sys, input, found, now);
      case Claiming(owner, runID, version, token, now) => ClaimingStep(cfg, sys, owner, runID, version, token, now);
      case ClaimingWait(owner, runID, version, command, actor, token, now) =>
        ClaimingWaitStep(cfg, sys, owner, runID, version, command, actor, token, now);
      case Renewing(owner, runID, token, now) => RenewingStep(cfg, sys, owner, runID, token, now);
      case Committing(token, env, now) => CommitStep(cfg, sys, token, env, now);
    }
  }

  // The invariant holds after any sequence of steps from the empty store.
  lemma {:induction false} Reachable<T(!new)>(cfg: Config<T>, actions: seq<Action<T>>)
    requires ValidConfig(cfg)
    ensures Inv(cfg, Exec(cfg, Init(), actions))
    decreases |actions|
  {
    if actions != [] {
      var last := |actions| - 1;
      Reachable(cfg, actions[..last]);
      StepKeepsInv(cfg, Exec(cfg, Init(), actions[..last]), actions[last]);
    }
  }
}
