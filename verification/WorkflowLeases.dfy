// Who may work on a run: what a granted claim excludes, when one is granted, and what
// an accepted commit leaves.
module WorkflowLeases {
  import opened Basics
  import opened WorkflowCore
  import opened RunnerSpec
  import opened RunnerProofs
  import opened RunnerJourney
  import opened RunLog
  import opened StoreSpec
  import opened RuntimeSpec
  import opened WorkflowSystem
  import opened WorkflowInvariant
  import opened WorkflowTheorems

  // ---- Claims and renewals, by what the store answers ----

  // A claim of the run, by either operation.
  predicate Claims<T>(a: Action<T>, id: string) {
    (a.Claiming? || a.ClaimingWait?) && a.runID == id
  }

  ghost predicate Granted<T>(cfg: Config<T>, sys: System<T>, a: Action<T>, id: string) {
    && Claims(a, id) && Enabled(cfg, sys, a)
    && if a.Claiming? then ClaimRun(sys.store, ClaimRunRequest(a.owner, id, a.version, LeaseOf(cfg, a.token, a.now), a.now)).1.Ok?
       else ClaimWait(sys.store, ClaimWaitRequest(a.owner, id, a.version, a.command, a.actor, LeaseOf(cfg, a.token, a.now), a.now)).1.Ok?
  }

  predicate Renewed<T>(cfg: Config<T>, sys: System<T>, a: Action<T>, id: string, token: string) {
    && a.Renewing? && a.runID == id && a.token == token
    && RenewClaim(sys.store, RenewRequest(a.owner, id, token, a.now + cfg.leaseDuration, a.now)).1.None?
  }

  // When the lease ends: at `until`, or as the last accepted renewal said.
  ghost function LeaseEnd<T>(cfg: Config<T>, sys: System<T>, actions: seq<Action<T>>, id: string, token: string, until: Time): Time
    decreases |actions|
  {
    if actions == [] then until
    else
      var last := |actions| - 1;
      if Renewed(cfg, Exec(cfg, sys, actions[..last]), actions[last], id, token) then actions[last].now + cfg.leaseDuration
      else LeaseEnd(cfg, sys, actions[..last], id, token, until)
  }

  // ---- The store, operation by operation ----

  ghost predicate Holds(s: Store, id: string, token: string, until: Time) {
    id in s.runs && s.runs[id].claim == Some(Claim(token, until))
  }

  ghost predicate SameClaim(before: Store, after: Store, id: string) {
    id in before.runs ==> id in after.runs && after.runs[id].claim == before.runs[id].claim
  }

  lemma ClaimExcluded<T>(cfg: Config<T>, sys: System<T>, a: Action<T>, id: string)
    requires Inv(cfg, sys) && Claims(a, id) && id in sys.store.runs && sys.store.runs[id].claim.Some?
    requires a.now < sys.store.runs[id].claim.value.leaseUntil
    ensures !Granted(cfg, sys, a, id)
  {
    hide Refines, HolderInv, ResumeRefusal, ClaimRefusal;
    assert RunInv(cfg, sys, id);
  }

  lemma OtherClaims<T>(cfg: Config<T>, sys: System<T>, a: Action<T>, id: string)
    requires (a.Claiming? || a.ClaimingWait?) && !Granted(cfg, sys, a, id)
    ensures SameClaim(sys.store, Step(cfg, sys, a).store, id)
  {
    hide ClaimRunRefusal, ClaimWaitRefusal, DecodeCheckpoint;
  }

  lemma OtherCreates<T>(cfg: Config<T>, sys: System<T>, a: Action<T>, id: string)
    requires a.Create?
    ensures SameClaim(sys.store, Step(cfg, sys, a).store, id)
  {
    hide NewStored, StartRefusal, RunRefusal, NewRun, SameKey, SameStartRequest;
  }

  lemma OtherCommits<T>(cfg: Config<T>, sys: System<T>, a: Action<T>, id: string)
    requires a.Committing? && !Accepted(cfg, sys, a, id)
    ensures SameClaim(sys.store, Step(cfg, sys, a).store, id)
  {
    hide WorkerRequest, CommitRefusal, CommittedWaits;
  }

  lemma Renewals<T>(cfg: Config<T>, sys: System<T>, a: Action<T>, id: string, token: string, until: Time)
    requires a.Renewing? && Holds(sys.store, id, token, until)
    ensures Holds(Step(cfg, sys, a).store, id, token, if Renewed(cfg, sys, a, id, token) then a.now + cfg.leaseDuration else until)
  {
    hide LastHeldBy;
  }

  // ---- Single flight ----

  lemma StepHolds<T(!new)>(cfg: Config<T>, sys: System<T>, a: Action<T>, id: string, token: string, until: Time)
    requires Inv(cfg, sys) && Holds(sys.store, id, token, until)
    requires !Accepted(cfg, sys, a, id) && (Claims(a, id) ==> a.now < until)
    ensures Holds(Step(cfg, sys, a).store, id, token, if Renewed(cfg, sys, a, id, token) then a.now + cfg.leaseDuration else until)
  {
    hide Inv, Step, Accepted, Granted;
    match a
    case Create(_, _, _) => OtherCreates(cfg, sys, a, id);
    case Claiming(_, runID, _, _, _) =>
      if runID == id { ClaimExcluded(cfg, sys, a, id); }
      NotOther(cfg, sys, a, id);
      OtherClaims(cfg, sys, a, id);
    case ClaimingWait(_, runID, _, _, _, _, _) =>
      if runID == id { ClaimExcluded(cfg, sys, a, id); }
      NotOther(cfg, sys, a, id);
      OtherClaims(cfg, sys, a, id);
    case Renewing(_, _, _, _) => Renewals(cfg, sys, a, id, token, until);
    case Committing(_, _, _) => OtherCommits(cfg, sys, a, id);
  }

  lemma NotOther<T>(cfg: Config<T>, sys: System<T>, a: Action<T>, id: string)
    ensures !Claims(a, id) ==> !Granted(cfg, sys, a, id)
  {
  }

  // Neither a commit of the run nor a claim of it at a reading past the lease.
  ghost predicate Quiet<T>(cfg: Config<T>, sys: System<T>, before: seq<Action<T>>, a: Action<T>, id: string, token: string, until: Time) {
    && !Accepted(cfg, Exec(cfg, sys, before), a, id)
    && (Claims(a, id) ==> a.now < LeaseEnd(cfg, sys, before, id, token, until))
  }

  ghost predicate AllQuiet<T>(cfg: Config<T>, sys: System<T>, actions: seq<Action<T>>, id: string, token: string, until: Time) {
    forall k :: 0 <= k < |actions| ==> Quiet(cfg, sys, actions[..k], actions[k], id, token, until)
  }

  lemma QuietBefore<T>(cfg: Config<T>, sys: System<T>, actions: seq<Action<T>>, id: string, token: string, until: Time)
    requires actions != [] && AllQuiet(cfg, sys, actions, id, token, until)
    ensures AllQuiet(cfg, sys, actions[..|actions| - 1], id, token, until)
    ensures Quiet(cfg, sys, actions[..|actions| - 1], actions[|actions| - 1], id, token, until)
  {
    hide Quiet;
    var before := actions[..|actions| - 1];
    assert forall k :: 0 <= k < |before| ==> before[k] == actions[k] && before[..k] == actions[..k];
  }

  lemma {:induction false} HeldThroughout<T(!new)>(cfg: Config<T>, sys: System<T>, actions: seq<Action<T>>, id: string, token: string, until: Time)
    requires ValidConfig(cfg) && Inv(cfg, sys) && Holds(sys.store, id, token, until)
    requires AllQuiet(cfg, sys, actions, id, token, until)
    ensures Inv(cfg, Exec(cfg, sys, actions))
    ensures Holds(Exec(cfg, sys, actions).store, id, token, LeaseEnd(cfg, sys, actions, id, token, until))
    decreases |actions|
  {
    hide Inv, Step, Accepted, Renewed, Holds, Claims, AllQuiet;
    if actions != [] {
      var last := |actions| - 1;
      QuietBefore(cfg, sys, actions, id, token, until);
      HeldThroughout(cfg, sys, actions[..last], id, token, until);
      var next := Exec(cfg, sys, actions[..last]);
      StepHolds(cfg, next, actions[last], id, token, LeaseEnd(cfg, sys, actions[..last], id, token, until));
      StepKeepsInv(cfg, next, actions[last]);
    }
  }

  lemma GrantHolds<T>(cfg: Config<T>, sys: System<T>, a: Action<T>, id: string)
    requires Granted(cfg, sys, a, id)
    ensures Holds(Step(cfg, sys, a).store, id, a.token, a.now + cfg.leaseDuration)
  {
    hide ClaimRunRefusal, ClaimWaitRefusal, DecodeCheckpoint;
    GrantOwned(cfg, sys, a, id);
  }

  lemma GrantOwned<T>(cfg: Config<T>, sys: System<T>, a: Action<T>, id: string)
    requires Granted(cfg, sys, a, id)
    ensures id in sys.store.runs && (a.ClaimingWait? ==> Waits(sys.store, id) != [])
  {
    hide ResumeRefusal, ClaimRefusal;
  }

  // After a claim of a run was granted, no later claim of it at a reading before its
  // lease ends, as renewed, is granted, unless a commit of the run was accepted in
  // between; whatever anybody does meanwhile, and by whichever operation.
  lemma SingleFlight<T(!new)>(cfg: Config<T>, before: seq<Action<T>>, a: Action<T>, actions: seq<Action<T>>, later: Action<T>, id: string)
    requires ValidConfig(cfg) && Granted(cfg, Exec(cfg, Init(), before), a, id)
    requires var sys := Step(cfg, Exec(cfg, Init(), before), a);
             && AllQuiet(cfg, sys, actions, id, a.token, a.now + cfg.leaseDuration)
             && (Claims(later, id) ==> later.now < LeaseEnd(cfg, sys, actions, id, a.token, a.now + cfg.leaseDuration))
    ensures !Granted(cfg, Exec(cfg, Step(cfg, Exec(cfg, Init(), before), a), actions), later, id)
  {
    hide Inv, Step, Exec, AllQuiet;
    var sys := Exec(cfg, Init(), before);
    Reachable(cfg, before);
    StepKeepsInv(cfg, sys, a);
    GrantHolds(cfg, sys, a, id);
    HeldThroughout(cfg, Step(cfg, sys, a), actions, id, a.token, a.now + cfg.leaseDuration);
    var end := Exec(cfg, Step(cfg, sys, a), actions);
    if Claims(later, id) {
      ClaimExcluded(cfg, end, later, id);
    }
  }

  // ---- When a claim is granted ----

  // Nobody's lease is running.
  predicate Unclaimed(run: StoredWorkflow, now: Time) {
    run.claim.None? || run.claim.value.leaseUntil <= now
  }

  // What the run must be waiting for, and with what the caller comes.
  ghost predicate Awaits<T>(run: StoredWorkflow, a: Action<T>)
    requires a.Claiming? || a.ClaimingWait?
  {
    var c := run.checkpoint.control;
    if a.Claiming? then c.status.RunPending?
    else
      && c.status.RunSuspended? && c.pendingWait.Some? && RunnerJourney.Answers(c.pendingWait.value, a.command, a.now)
      && ValidIdentifier(a.actor.kind) && ValidIdentifier(a.actor.id)
  }

  // In every reachable state: a claim under a new token is granted exactly to the owner
  // of a run that is pending, or suspended on a wait the command answers in time, at
  // its current version and while no lease of the run is running. So a worker that
  // died never keeps a run for longer than its lease.
  lemma GrantedExactly<T(!new)>(cfg: Config<T>, actions: seq<Action<T>>, a: Action<T>, id: string)
    requires ValidConfig(cfg) && Claims(a, id) && a.token !in Exec(cfg, Init(), actions).issued
    ensures var s := Exec(cfg, Init(), actions).store;
            Granted(cfg, Exec(cfg, Init(), actions), a, id) <==>
              && a.owner.tenantID != 0 && a.owner.ownerID != 0 && a.now != ZERO_TIME && ValidIdentifier(a.token)
              && id in s.runs && s.runs[id].owner == a.owner
              && s.runs[id].checkpoint.control.stateVersion == a.version
              && Awaits(s.runs[id], a) && Unclaimed(s.runs[id], a.now)
  {
    hide Exec, Inv, Answers, ResumeRefusal, RunInv;
    var sys := Exec(cfg, Init(), actions);
    Reachable(cfg, actions);
    if id in sys.store.runs {
      RunCoupled(cfg, sys, id);
    }
    if a.ClaimingWait? {
      var waits := StoreSpec.Waits(sys.store, id);
      if waits != [] {
        AnswersExactly(waits[|waits| - 1].point, a.command, a.now);
      }
    }
  }

  lemma RunCoupled<T>(cfg: Config<T>, sys: System<T>, id: string)
    requires Inv(cfg, sys) && id in sys.store.runs
    ensures Coupled(sys.store.runs[id], Waits(sys.store, id))
  {
    assert RunInv(cfg, sys, id);
  }

  // The wait a caller is given to answer is there exactly while the run is suspended, and
  // is the one it is suspended on.
  lemma CurrentIsPending<T(!new)>(cfg: Config<T>, actions: seq<Action<T>>, id: string)
    requires ValidConfig(cfg) && id in Exec(cfg, Init(), actions).store.runs
    ensures var s := Exec(cfg, Init(), actions).store;
            var current, control := CurrentWait(StoreSpec.Waits(s, id)), s.runs[id].checkpoint.control;
            && (current.Some? <==> control.status.RunSuspended?)
            && (current.Some? ==> control.pendingWait == Some(current.value.point) && !current.value.status.Terminal())
  {
    hide Exec;
    RunWaitClaimCoupled(cfg, actions, id);
    var waits := StoreSpec.Waits(Exec(cfg, Init(), actions).store, id);
    if waits != [] {
      NoneOpen(waits[..|waits| - 1]);
    }
  }

  lemma {:induction false} NoneOpen(waits: seq<StoredWait>)
    requires forall i :: 0 <= i < |waits| ==> waits[i].status.Terminal()
    ensures CurrentWait(waits).None?
  {
    if waits != [] {
      NoneOpen(waits[..|waits| - 1]);
    }
  }

  lemma AnswersExactly(wait: WaitPoint, command: ResumeCommand, now: Time)
    ensures ResumeRefusal(wait, command, now).None? <==> Answers(wait, command, now)
  {
    hide ValidWait;
  }

  // A renewal is accepted exactly from the owner with the token of a claim whose lease
  // is still running.
  lemma RenewedExactly<T(!new)>(cfg: Config<T>, sys: System<T>, a: Action<T>, id: string)
    requires ValidConfig(cfg) && a.Renewing? && a.runID == id
    ensures Renewed(cfg, sys, a, id, a.token) <==>
              && id in sys.store.runs && sys.store.runs[id].owner == a.owner
              && sys.store.runs[id].claim.Some? && sys.store.runs[id].claim.value.token == a.token
              && a.now < sys.store.runs[id].claim.value.leaseUntil
  {
    hide LastHeldBy;
  }

  // ---- What an accepted commit leaves ----

  // The wait the command answered is resolved as it says, by whom it says.
  ghost predicate Answered(before: StoredWait, after: StoredWait, command: ResumeCommand, actor: Actor, now: Time) {
    && after.point == before.point && after.point.id == command.waitID
    && after.status.WaitResolved? && after.claim.None?
    && after.resolvedAction == Some(command.action) && after.resolvedBy == Some(actor) && after.resolvedAt == now
  }

  ghost predicate WaitsMove<T>(before: seq<StoredWait>, after: seq<StoredWait>, w: Worker<T>, c: Control, now: Time) {
    var waiting := c.status.RunSuspended?;
    && |after| == |before| + (if waiting then 1 else 0)
    && (forall i :: 0 <= i < |before| - 1 ==> after[i] == before[i])
    && (before != [] ==>
          if w.command.Some? then Answered(before[|before| - 1], after[|before| - 1], w.command.value, w.actor, now)
          else after[|before| - 1] == before[|before| - 1])
    && (w.command.Some? ==> before != [])
    && (waiting ==>
          var last := after[|before|];
          c.pendingWait == Some(last.point) && last.status.WaitPending? && last.claim.None? && last.resolvedAction.None?)
  }

  // An accepted commit stores what the worker's execution came to: its state, its events
  // behind those before, and its waits; it ends the claim and touches no other run.
  lemma CommitLeaves<T(!new)>(cfg: Config<T>, actions: seq<Action<T>>, a: Action<T>, id: string)
    requires ValidConfig(cfg) && Accepted(cfg, Exec(cfg, Init(), actions), a, id)
    ensures var sys := Exec(cfg, Init(), actions);
            var s, t := sys.store, Step(cfg, sys, a).store;
            var w := sys.workers[a.token];
            var o := Executed(cfg, w, a.env);
            && id in s.runs && t.runs.Keys == s.runs.Keys
            && DecodeCheckpoint(t.runs[id].checkpoint, cfg.definition, cfg.codec) == Ok(o.state)
            && t.runs[id] == s.runs[id].(checkpoint := t.runs[id].checkpoint, claim := None, updatedAt := a.now)
            && Events(t, id) == Events(s, id) + o.observer.events
            && WaitsMove(Waits(s, id), Waits(t, id), w, o.state.control, a.now)
            && forall other :: other in s.runs && other != id ==>
                 t.runs[other] == s.runs[other] && Events(t, other) == Events(s, other) && Waits(t, other) == Waits(s, other)
  {
    hide Exec, Executed, DecodeCheckpoint, EncodeCheckpoint, Refines, Coupled, CommittedWaits, WaitsMove, Contiguous, ValidEnvelope, Holder, HolderInv, Live;
    var sys := Exec(cfg, Init(), actions);
    Reachable(cfg, actions);
    var w := sys.workers[a.token];
    var r := WorkerRequest(cfg, w, a.env, a.now).value;
    assert RunInv(cfg, sys, id);
    assert HolderInv(cfg, sys, id, a.token);
    HeldCommit(cfg, sys.store.runs[id], Waits(sys.store, id), Events(sys.store, id), sys.histories[id], sys, w, a, r);
  }

  lemma HeldCommit<T(!new)>(cfg: Config<T>, run: StoredWorkflow, waits: seq<StoredWait>, events: seq<NodeEvent>, h: History<T>,
                            sys: System<T>, w: Worker<T>, a: Action<T>, r: CommitRequest)
    requires ValidConfig(cfg) && a.Committing? && a.token in sys.workers && w == sys.workers[a.token] && w.token == a.token
    requires WorkerRequest(cfg, w, a.env, a.now) == Ok(r) && CommittedWaits(waits, r).Ok?
    requires w.state.meta.runID in sys.store.runs && sys.store.runs[w.state.meta.runID] == run && w.state.meta.runID in sys.histories
    requires sys.histories[w.state.meta.runID] == h && HeldBy(run.claim, w.token)
    requires Refines(cfg, w.state.meta.runID, run.checkpoint, events, h) && Coupled(run, waits)
    requires HolderInv(cfg, sys, w.state.meta.runID, a.token)
    ensures var o := Executed(cfg, w, a.env);
            && DecodeCheckpoint(r.checkpoint, cfg.definition, cfg.codec) == Ok(o.state)
            && r.checkpoint.control == o.state.control && r.events == o.observer.events
            && WaitsMove(waits, CommittedWaits(waits, r).value, w, o.state.control, a.now)
  {
    hide Chain, Call, DecodeCheckpoint, ValidState, Advanced, CommittedWaits;
    var o := Executed(cfg, w, a.env);
    ChainKeepsMeta(cfg.nodes, h);
    CallCommittable(cfg.nodes, w.state, EMPTY_COLLECTOR, Segment(a.env, w.command));
    ExecutedKeepsMeta(cfg, w, a.env);
    CheckpointRoundTrip(o.state, cfg.codec, cfg.maxCheckpointBytes);
    HeldWaitsMove(run, waits, w, r);
  }

  lemma ExecutedKeepsMeta<T>(cfg: Config<T>, w: Worker<T>, env: Env<T>)
    requires ValidNodes(cfg.nodes)
    ensures Executed(cfg, w, env).state.meta == w.state.meta
  {
    hide Call, ValidState;
    CallCommittable(cfg.nodes, w.state, EMPTY_COLLECTOR, Segment(env, w.command));
  }

  lemma HeldWaitsMove<T>(run: StoredWorkflow, waits: seq<StoredWait>, w: Worker<T>, r: CommitRequest)
    requires Coupled(run, waits) && Holder(run, w.state, w) && HeldBy(run.claim, w.token)
    requires r.token == w.token && CommittedWaits(waits, r).Ok?
    requires r.resolvedWaitID == (if w.command.Some? then w.command.value.waitID else "")
    requires r.resolvedAction == (if w.command.Some? then Some(w.command.value.action) else None)
    requires r.actor == (if w.command.Some? then Some(w.actor) else None)
    ensures WaitsMove(waits, CommittedWaits(waits, r).value, w, r.checkpoint.control, r.now)
  {
  }

  // ---- One run for a key ----

  // What identifies a run to whoever starts it.
  ghost predicate SameStarter(a: StoredWorkflow, b: StoredWorkflow) {
    a.owner == b.owner && a.idempotencyKey == b.idempotencyKey && a.checkpoint.meta.workflowID == b.checkpoint.meta.workflowID
  }

  ghost predicate OneForKey(s: Store) {
    forall a, b :: a in s.runs && b in s.runs && SameStarter(s.runs[a], s.runs[b]) ==> a == b
  }

  // The runs that were there, as they were started.
  ghost predicate SameStarters(before: Store, after: Store) {
    forall id :: id in before.runs ==> id in after.runs && SameStarter(before.runs[id], after.runs[id])
  }

  lemma ClaimKeepsStarters(s: Store, r: ClaimRunRequest)
    ensures SameStarters(s, ClaimRun(s, r).0) && ClaimRun(s, r).0.runs.Keys == s.runs.Keys
  {
    hide ClaimRefusal;
  }

  lemma WaitClaimKeepsStarters(s: Store, r: ClaimWaitRequest)
    ensures SameStarters(s, ClaimWait(s, r).0) && ClaimWait(s, r).0.runs.Keys == s.runs.Keys
  {
    hide ClaimRefusal, ResumeRefusal;
  }

  lemma RenewalKeepsStarters(s: Store, r: RenewRequest)
    ensures SameStarters(s, RenewClaim(s, r).0) && RenewClaim(s, r).0.runs.Keys == s.runs.Keys
  {
    hide LastHeldBy;
  }

  lemma CommitKeepsStarters(s: Store, r: CommitRequest)
    requires CommitRefusal(s, r).None? ==> r.checkpoint.meta == s.runs[r.runID].checkpoint.meta
    ensures SameStarters(s, Commit(s, r).0) && Commit(s, r).0.runs.Keys == s.runs.Keys
  {
    hide CommittedWaits, Contiguous, ValidEnvelope;
  }

  // A created run has a key of its own, and the others stay.
  lemma CreateKeepsStarters(s: Store, run: StoredWorkflow, found: Option<string>)
    requires Match(s, run, found)
    ensures var t := CreateRun(s, run, found).0;
            && SameStarters(s, t)
            && forall id, other :: id in t.runs && id !in s.runs && other in t.runs && other != id ==>
                 other in s.runs && !SameStarter(t.runs[id], t.runs[other]) && !SameStarter(t.runs[other], t.runs[id])
  {
    hide RunRefusal, SameStartRequest;
  }

  lemma StepKeepsStarters<T(!new)>(cfg: Config<T>, sys: System<T>, a: Action<T>)
    requires ValidConfig(cfg) && Inv(cfg, sys)
    ensures var t := Step(cfg, sys, a).store;
            && SameStarters(sys.store, t)
            && forall id, other :: id in t.runs && id !in sys.store.runs && other in t.runs && other != id ==>
                 other in sys.store.runs && !SameStarter(t.runs[id], t.runs[other]) && !SameStarter(t.runs[other], t.runs[id])
  {
    hide Inv, SameStarters, SameStarter, CreateRun, ClaimRun, ClaimWait, RenewClaim, Commit, DecodeCheckpoint, StartRefusal, NewStored, NewRun, Match,
         WorkerRequest, CommitRefusal;
    TheyStay(sys.store);
    if Enabled(cfg, sys, a) {
      match a
      case Create(input, found, now) => CreateKeepsStarters(sys.store, NewStored(cfg, input, now), found);
      case Claiming(owner, runID, version, token, now) =>
        ClaimKeepsStarters(sys.store, ClaimRunRequest(owner, runID, version, LeaseOf(cfg, token, now), now));
      case ClaimingWait(owner, runID, version, command, actor, token, now) =>
        WaitClaimKeepsStarters(sys.store, ClaimWaitRequest(owner, runID, version, command, actor, LeaseOf(cfg, token, now), now));
      case Renewing(owner, runID, token, now) =>
        RenewalKeepsStarters(sys.store, RenewRequest(owner, runID, token, now + cfg.leaseDuration, now));
      case Committing(token, env, now) =>
        var built := WorkerRequest(cfg, sys.workers[token], env, now);
        if built.Ok? {
          if CommitRefusal(sys.store, built.value).None? {
            CommitKeepsMeta(cfg, sys, a, built.value);
          }
          CommitKeepsStarters(sys.store, built.value);
        }
    }
  }

  lemma TheyStay(s: Store)
    ensures SameStarters(s, s)
  {
  }

  lemma CommitKeepsMeta<T(!new)>(cfg: Config<T>, sys: System<T>, a: Action<T>, r: CommitRequest)
    requires ValidConfig(cfg) && Inv(cfg, sys) && a.Committing? && a.token in sys.workers
    requires WorkerRequest(cfg, sys.workers[a.token], a.env, a.now) == Ok(r) && CommitRefusal(sys.store, r).None?
    ensures r.checkpoint.meta == sys.store.runs[r.runID].checkpoint.meta
  {
    hide Executed, Coupled, CommittedWaits, Contiguous, ValidEnvelope, Chain, ValidState;
    assert RunInv(cfg, sys, r.runID) && HolderInv(cfg, sys, r.runID, a.token);
    ExecutedKeepsMeta(cfg, sys.workers[a.token], a.env);
  }

  // At most one run in every reachable state has a given owner, workflow and key.
  lemma {:induction false} StartedOnce<T(!new)>(cfg: Config<T>, actions: seq<Action<T>>)
    requires ValidConfig(cfg)
    ensures OneForKey(Exec(cfg, Init(), actions).store)
    decreases |actions|
  {
    hide Inv, Step, Enabled;
    if actions != [] {
      var last := |actions| - 1;
      StartedOnce(cfg, actions[..last]);
      Reachable(cfg, actions[..last]);
      var sys := Exec(cfg, Init(), actions[..last]);
      StepKeepsStarters(cfg, sys, actions[last]);
    }
  }

  // A creation makes a run of the caller's that decodes to the state it was given, has
  // no claim, no event and no wait, and leaves the others alone; or it finds the one
  // run started under the key, or is refused, and changes nothing.
  lemma CreateLeaves<T(!new)>(cfg: Config<T>, actions: seq<Action<T>>, input: StartInput<T>, found: Option<string>, now: Time)
    requires ValidConfig(cfg) && Enabled(cfg, Exec(cfg, Init(), actions), Create(input, found, now))
    ensures var s := Exec(cfg, Init(), actions).store;
            var id := input.state.meta.runID;
            var (t, r) := CreateRun(s, NewStored(cfg, input, now), found);
            if r.Ok? && r.value.created then
              && id !in s.runs && t.runs == s.runs[id := r.value.run] && t.waits == s.waits && t.events == s.events
              && r.value.run.owner == input.owner && r.value.run.idempotencyKey == input.idempotencyKey && r.value.run.claim.None?
              && DecodeCheckpoint(r.value.run.checkpoint, cfg.definition, cfg.codec) == Ok(input.state)
              && Waits(t, id) == [] && Events(t, id) == []
            else
              && t == s
              && (r.Ok? ==> found.Some? && found.value in s.runs && r.value.run == s.runs[found.value] && r.value.run.owner == input.owner
                            && r.value.run.idempotencyKey == input.idempotencyKey
                            && r.value.run.checkpoint.meta.workflowID == input.state.meta.workflowID
                            && r.value.run.checkpoint.data == EncodeCheckpoint(input.state, cfg.codec, cfg.maxCheckpointBytes).value.data)
  {
    hide Exec, RunInv, HolderInv, ValidState, DecodeCheckpoint;
    Reachable(cfg, actions);
    CheckpointRoundTrip(input.state, cfg.codec, cfg.maxCheckpointBytes);
  }

  // Whatever run is to be created: it is made exactly when it names an owner and a key,
  // is dated and valid, and neither its key nor its id is taken; where the key is taken,
  // the run there is given back exactly when the two were to be started alike.
  lemma CreatedExactly(s: Store, run: StoredWorkflow, found: Option<string>)
    requires Match(s, run, found)
    ensures var r := CreateRun(s, run, found).1;
            var a := run.checkpoint;
            && var sound := run.owner.tenantID != 0 && run.owner.ownerID != 0 && ValidIdentifier(run.idempotencyKey)
                            && run.createdAt != ZERO_TIME && run.updatedAt != ZERO_TIME && ValidEnvelope(a);
               && (r.Ok? && r.value.created <==> sound && found.None? && a.meta.runID !in s.runs)
               && (r.Ok? && !r.value.created <==>
                     && sound && found.Some?
                     && var b := s.runs[found.value].checkpoint;
                        && a.definitionVersion == b.definitionVersion && a.schemaID == b.schemaID && a.schemaVersion == b.schemaVersion
                        && a.data == b.data && a.budget == b.budget && a.meta.source == b.meta.source)
  {
    hide ValidEnvelope;
  }

  // ---- Starting again under the same key ----

  // The run is there as it was started, and how it was started is on record.
  ghost predicate StartedAs<T>(sys: System<T>, id: string, input: StartInput<T>) {
    && id in sys.store.runs && id in sys.histories && sys.histories[id].initial == input.state
    && sys.store.runs[id].owner == input.owner && sys.store.runs[id].idempotencyKey == input.idempotencyKey
  }

  lemma StepKeepsStart<T(!new)>(cfg: Config<T>, sys: System<T>, a: Action<T>, id: string, input: StartInput<T>)
    requires ValidConfig(cfg) && Inv(cfg, sys) && StartedAs(sys, id, input)
    ensures StartedAs(Step(cfg, sys, a), id, input)
  {
    hide Inv, Step;
    StepKeepsStarters(cfg, sys, a);
    StepKeepsInitial(cfg, sys, a, id);
  }

  lemma StepKeepsInitial<T>(cfg: Config<T>, sys: System<T>, a: Action<T>, id: string)
    requires id in sys.store.runs && id in sys.histories
    ensures id in Step(cfg, sys, a).histories && Step(cfg, sys, a).histories[id].initial == sys.histories[id].initial
  {
    hide WorkerRequest, CommitRefusal, ClaimRunRefusal, ClaimWaitRefusal, RenewRefusal, RunRefusal, StartRefusal, NewStored, NewRun, SameKey,
         SameStartRequest, DecodeCheckpoint;
    if a.Create? && Enabled(cfg, sys, a) {
      NewStoredID(cfg, a.input, a.now);
    }
  }

  lemma NewStoredID<T>(cfg: Config<T>, input: StartInput<T>, now: Time)
    requires StartRefusal(cfg, input).None?
    ensures NewStored(cfg, input, now).checkpoint.meta == input.state.meta
  {
  }

  lemma {:induction false} StaysStarted<T(!new)>(cfg: Config<T>, sys: System<T>, actions: seq<Action<T>>, id: string, input: StartInput<T>)
    requires ValidConfig(cfg) && Inv(cfg, sys) && StartedAs(sys, id, input)
    ensures Inv(cfg, Exec(cfg, sys, actions)) && StartedAs(Exec(cfg, sys, actions), id, input)
    decreases |actions|
  {
    hide Inv, Step, StartedAs;
    if actions != [] {
      var last := |actions| - 1;
      StaysStarted(cfg, sys, actions[..last], id, input);
      StepKeepsStart(cfg, Exec(cfg, sys, actions[..last]), actions[last], id, input);
      StepKeepsInv(cfg, Exec(cfg, sys, actions[..last]), actions[last]);
    }
  }

  // A start repeated with the same input, at any later time, never makes a second run:
  // it finds the first exactly as long as that run's stored data is what it was started
  // with, and is refused as a conflict once an execution has changed it.
  lemma StartRepeated<T(!new)>(cfg: Config<T>, actions: seq<Action<T>>, input: StartInput<T>, found: Option<string>, now: Time,
                               more: seq<Action<T>>, again: Option<string>, later: Time)
    requires ValidConfig(cfg) && Enabled(cfg, Exec(cfg, Init(), actions), Create(input, found, now)) && later != ZERO_TIME
    requires var r := CreateRun(Exec(cfg, Init(), actions).store, NewStored(cfg, input, now), found).1; r.Ok? && r.value.created
    requires Enabled(cfg, Exec(cfg, Init(), actions + [Create(input, found, now)] + more), Create(input, again, later))
    ensures var s := Exec(cfg, Init(), actions + [Create(input, found, now)] + more).store;
            var id := input.state.meta.runID;
            var (t, r) := CreateRun(s, NewStored(cfg, input, later), again);
            && t == s && id in s.runs
            && (if s.runs[id].checkpoint.data == NewStored(cfg, input, now).checkpoint.data then r == Ok(Created(s.runs[id], false))
                else r.Err? && r.error.code.CodeIdempotencyConflict?)
  {
    hide Exec, Inv, StartedAs, Match, OneForKey, NewStored, CreateRun, EncodeCheckpoint, StartRefusal, NewRun;
    var sys := Exec(cfg, Init(), actions);
    var a := Create(input, found, now);
    Reachable(cfg, actions);
    StepKeepsInv(cfg, sys, a);
    CreateStarts(cfg, sys, input, found, now);
    ExecAppend(cfg, Init(), actions, [a]);
    ExecOne(cfg, sys, a);
    ExecAppend(cfg, Init(), actions + [a], more);
    var id := input.state.meta.runID;
    StaysStarted(cfg, Step(cfg, sys, a), more, id, input);
    StartedOnce(cfg, actions + [a] + more);
    FoundAgain(cfg, Exec(cfg, Step(cfg, sys, a), more), input, again, now, later);
  }

  lemma CreateStarts<T>(cfg: Config<T>, sys: System<T>, input: StartInput<T>, found: Option<string>, now: Time)
    requires Enabled(cfg, sys, Create(input, found, now))
    requires var r := CreateRun(sys.store, NewStored(cfg, input, now), found).1; r.Ok? && r.value.created
    ensures StartedAs(Step(cfg, sys, Create(input, found, now)), input.state.meta.runID, input)
  {
    hide RunRefusal, SameStartRequest, NewRun, SameKey;
  }

  lemma FoundAgain<T(!new)>(cfg: Config<T>, sys: System<T>, input: StartInput<T>, again: Option<string>, now: Time, later: Time)
    requires ValidConfig(cfg) && Inv(cfg, sys) && OneForKey(sys.store) && later != ZERO_TIME
    requires StartedAs(sys, input.state.meta.runID, input) && Enabled(cfg, sys, Create(input, again, later))
    ensures var s := sys.store;
            var id := input.state.meta.runID;
            var (t, r) := CreateRun(s, NewStored(cfg, input, later), again);
            && t == s && id in s.runs
            && (if s.runs[id].checkpoint.data == NewStored(cfg, input, now).checkpoint.data then r == Ok(Created(s.runs[id], false))
                else r.Err? && r.error.code.CodeIdempotencyConflict?)
  {
    hide Coupled, Chain, HolderInv, ValidState, ValidIdentifier;
    var id := input.state.meta.runID;
    var h := sys.histories[id];
    assert RunInv(cfg, sys, id);
    ChainKeepsMeta(cfg.nodes, h);
    StoredAsChained(cfg, id, sys.store.runs[id].checkpoint, Events(sys.store, id), h);
    assert again == Some(id) by {
      OwnKey(cfg, sys, input, again, later);
    }
    ChecksPass(cfg, input, later);
  }

  lemma StoredAsChained<T>(cfg: Config<T>, id: string, checkpoint: Envelope, events: seq<NodeEvent>, h: History<T>)
    requires ValidNodes(cfg.nodes) && Refines(cfg, id, checkpoint, events, h)
    ensures checkpoint.meta == h.initial.meta && checkpoint.budget == h.initial.budget
    ensures checkpoint.schemaID == cfg.codec.schemaID && checkpoint.schemaVersion == cfg.codec.schemaVersion
    ensures checkpoint.definitionVersion == cfg.definition
  {
    hide Chain, ValidState;
    ChainKeepsMeta(cfg.nodes, h);
  }

  lemma OwnKey<T>(cfg: Config<T>, sys: System<T>, input: StartInput<T>, again: Option<string>, later: Time)
    requires OneForKey(sys.store) && StartedAs(sys, input.state.meta.runID, input)
    requires sys.store.runs[input.state.meta.runID].checkpoint.meta == input.state.meta
    requires Enabled(cfg, sys, Create(input, again, later))
    ensures again == Some(input.state.meta.runID)
  {
    hide ValidState, NewRun;
    assert SameKey(sys.store.runs[input.state.meta.runID], NewStored(cfg, input, later));
  }

  lemma ChecksPass<T>(cfg: Config<T>, input: StartInput<T>, now: Time)
    requires StartRefusal(cfg, input).None? && now != ZERO_TIME
    ensures RunRefusal(NewStored(cfg, input, now)).None?
  {
    hide ValidState;
  }

  // ---- Any commit ----

  // The event is the run's and has this number.
  predicate Numbers(e: NodeEvent, runID: string, n: int) {
    e.runID == runID && e.sequence == n && ValidIdentifier(e.workflowID) && ValidIdentifier(e.nodeID)
  }

  // Whoever asks for it with whatever request: a commit is accepted exactly for a valid
  // checkpoint of a larger version from the owner and the holder of a running lease, at
  // the stored version, with the events numbered on from the stored ones, and, where it
  // answers a wait, for the wait the run was claimed with by a known actor and not for
  // a further wait under the same id.
  lemma CommitAcceptedExactly<T(!new)>(cfg: Config<T>, actions: seq<Action<T>>, r: CommitRequest)
    requires ValidConfig(cfg) && r.runID in Exec(cfg, Init(), actions).store.runs
    ensures var s := Exec(cfg, Init(), actions).store;
            var run := s.runs[r.runID];
            var before, after := run.checkpoint.control, r.checkpoint.control;
            CommitRefusal(s, r).None? <==>
              && r.now != ZERO_TIME && ValidIdentifier(r.token) && ValidEnvelope(r.checkpoint) && r.checkpoint.meta.runID == r.runID
              && run.owner == r.owner && run.claim.Some? && run.claim.value.token == r.token && r.now < run.claim.value.leaseUntil
              && before.stateVersion == r.expectedVersion < after.stateVersion
              && |r.events| == after.eventSequence - before.eventSequence
              && (forall i :: 0 <= i < |r.events| ==> Numbers(r.events[i], r.runID, before.eventSequence + i + 1))
              && (r.resolvedWaitID != "" ==>
                    && before.status.RunSuspended? && before.pendingWait.Some? && before.pendingWait.value.id == r.resolvedWaitID
                    && r.actor.Some? && ValidIdentifier(r.actor.value.kind) && ValidIdentifier(r.actor.value.id))
              && (after.status.RunSuspended? ==>
                    var waits := Waits(s, r.runID); waits != [] ==> after.pendingWait.value.id != waits[|waits| - 1].point.id)
  {
    hide Exec, Inv, RunInv, ValidEnvelope, CommittedWaits, Coupled;
    var sys := Exec(cfg, Init(), actions);
    Reachable(cfg, actions);
    RunCoupled(cfg, sys, r.runID);
    NumberedOn(sys.store.runs[r.runID].checkpoint.control.eventSequence, r.checkpoint.control.eventSequence, r.runID, r.events);
    if ValidEnvelope(r.checkpoint) {
      EnvelopeControl(r.checkpoint);
      if sys.store.runs[r.runID].claim.Some? && sys.store.runs[r.runID].claim.value.token == r.token {
        WaitsCommitted(sys.store.runs[r.runID], Waits(sys.store, r.runID), r);
      }
    }
  }

  lemma NumberedOn(previous: int, final: int, runID: string, events: seq<NodeEvent>)
    ensures Contiguous(previous, final, runID, events) <==>
              |events| == final - previous && forall i :: 0 <= i < |events| ==> Numbers(events[i], runID, previous + i + 1)
  {
  }

  lemma EnvelopeControl(e: Envelope)
    requires ValidEnvelope(e)
    ensures e.control.status.RunSuspended? ==> e.control.pendingWait.Some?
  {
  }

  lemma WaitsCommitted(run: StoredWorkflow, waits: seq<StoredWait>, r: CommitRequest)
    requires Coupled(run, waits) && HeldBy(run.claim, r.token)
    requires r.checkpoint.control.status.RunSuspended? ==> r.checkpoint.control.pendingWait.Some?
    ensures var before, after := run.checkpoint.control, r.checkpoint.control;
            CommittedWaits(waits, r).Ok? <==>
              && (r.resolvedWaitID != "" ==>
                    && before.status.RunSuspended? && before.pendingWait.Some? && before.pendingWait.value.id == r.resolvedWaitID
                    && r.actor.Some? && ValidIdentifier(r.actor.value.kind) && ValidIdentifier(r.actor.value.id))
              && (after.status.RunSuspended? ==> waits != [] ==> after.pendingWait.value.id != waits[|waits| - 1].point.id)
  {
  }
}
