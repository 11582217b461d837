// The runtime's calls are sequences of the system's atomic steps, so what holds in
// every reachable state holds around them too.
module WorkflowCalls {
  import opened Basics
  import opened WorkflowCore
  import opened RunnerSpec
  import opened RunLog
  import opened StoreSpec
  import opened RuntimeSpec
  import opened WorkflowSystem
  import opened WorkflowInvariant
  import opened WorkflowTheorems

  // Start creates; it goes on to claim and commit only a new or still pending run.
  ghost function StartSteps<T>(cfg: Config<T>, s: Store, input: StartInput<T>, found: Option<string>, token: string,
                               env: Env<T>, now: Time, at: Time): seq<Action<T>>
    requires StartRefusal(cfg, input).None? && Match(s, NewStored(cfg, input, now), found)
  {
    var create := Create(input, found, now);
    match CreateRun(s, NewStored(cfg, input, now), found)
    case (_, Err(_)) => [create]
    case (_, Ok(Created(run, created))) =>
      if created || run.checkpoint.control.status.RunPending? then
        [create,
         Claiming(input.owner, run.checkpoint.meta.runID, run.checkpoint.control.stateVersion, token, now),
         Committing(token, env, at)]
      else [create]
  }

  ghost function Exec2<T>(cfg: Config<T>, sys: System<T>, a: Action<T>, b: Action<T>): System<T> {
    Step(cfg, Step(cfg, sys, a), b)
  }

  lemma ExecThree<T>(cfg: Config<T>, sys: System<T>, a: Action<T>, b: Action<T>, c: Action<T>)
    ensures Exec(cfg, sys, [a]) == Step(cfg, sys, a)
    ensures Exec(cfg, sys, [a, b]) == Exec2(cfg, sys, a, b)
    ensures Exec(cfg, sys, [a, b, c]) == Step(cfg, Exec2(cfg, sys, a, b), c)
  {
    hide Step;
    ExecOne(cfg, sys, a);
    assert [a, b][..1] == [a];
    assert [a, b, c][..2] == [a, b];
  }

  // The commit step of the worker that holds `token` does what Execute does.
  lemma CommittingExecutes<T>(cfg: Config<T>, sys: System<T>, token: string, env: Env<T>, at: Time)
    requires token in sys.workers && sys.workers[token].token == token
    ensures Step(cfg, sys, Committing(token, env, at)).store == Execute(cfg, sys.store, sys.workers[token], env, at).store
  {
    hide CommitRefusal, EncodeCheckpoint, Executed;
  }

  lemma ClaimingThenCommitting<T>(cfg: Config<T>, sys: System<T>, input: StartInput<T>, stored: StoredWorkflow,
                                  token: string, env: Env<T>, now: Time, at: Time)
    requires MIN_LEASE <= cfg.leaseDuration <= MAX_LEASE && token !in sys.issued && sys.workers.Keys <= sys.issued
    ensures var claim := Claiming(input.owner, stored.checkpoint.meta.runID, stored.checkpoint.control.stateVersion, token, now);
            Exec2(cfg, sys, claim, Committing(token, env, at)).store
            == ClaimAndExecute(cfg, sys.store, input, stored, token, env, now, at).store
  {
    hide CommitRefusal, EncodeCheckpoint, Executed, DecodeCheckpoint, Execute;
    var claim := Claiming(input.owner, stored.checkpoint.meta.runID, stored.checkpoint.control.stateVersion, token, now);
    var next := Step(cfg, sys, claim);
    if token in next.workers {
      CommittingExecutes(cfg, next, token, env, at);
    }
  }

  lemma StartIsSteps<T(!new)>(cfg: Config<T>, sys: System<T>, input: StartInput<T>, found: Option<string>, token: string,
                              env: Env<T>, now: Time, at: Time)
    requires ValidConfig(cfg) && Inv(cfg, sys) && token !in sys.issued
    requires StartRefusal(cfg, input).None? && NewRun(input.state) && Match(sys.store, NewStored(cfg, input, now), found)
    ensures Exec(cfg, sys, StartSteps(cfg, sys.store, input, found, token, env, now, at)).store
         == Start(cfg, sys.store, input, found, token, env, now, at).store
  {
    hide EncodeCheckpoint, DecodeCheckpoint, ClaimAndExecute, RunRefusal, SameStartRequest, Chain, Inv, StartRefusal, NewStored, Exec;
    var run := NewStored(cfg, input, now);
    var create := Create(input, found, now);
    ExecOne(cfg, sys, create);
    var next := Step(cfg, sys, create);
    CreateStep(cfg, sys, input, found, now);
    var made := CreateRun(sys.store, run, found).1;
    if made.Ok? {
      var stored := made.value.run;
      StoredInCreate(cfg, sys, next, run, found);
      if made.value.created || stored.checkpoint.control.status.RunPending? {
        ClaimingThenCommitting(cfg, next, input, stored, token, env, now, at);
        ExecThree(cfg, sys, create,
          Claiming(input.owner, stored.checkpoint.meta.runID, stored.checkpoint.control.stateVersion, token, now),
          Committing(token, env, at));
      }
    }
  }

  // A replayed Start gets a stored run back, which decodes with its own status.
  lemma StoredInCreate<T(!new)>(cfg: Config<T>, sys: System<T>, next: System<T>, run: StoredWorkflow, found: Option<string>)
    requires ValidConfig(cfg) && Inv(cfg, sys) && Match(sys.store, run, found)
    requires Inv(cfg, next)
    ensures CreateRun(sys.store, run, found).1.Ok? && found.Some? ==>
              var d := DecodeCheckpoint(sys.store.runs[found.value].checkpoint, cfg.definition, cfg.codec);
              d.Ok? && d.value.control == sys.store.runs[found.value].checkpoint.control
    ensures next.workers.Keys <= next.issued
  {
    hide Chain, EncodeCheckpoint, DecodeCheckpoint, HolderInv, Coupled;
    if found.Some? {
      var id := found.value;
      assert RunInv(cfg, sys, id);
      StoredDecodes(cfg, id, sys.store.runs[id].checkpoint, Events(sys.store, id), sys.histories[id]);
    }
  }

  // Resume checks the stored run first and claims its wait only when that passes.
  ghost function ResumeSteps<T>(cfg: Config<T>, s: Store, owner: Owner, actor: Actor, runID: string,
                                command: ResumeCommand, token: string, env: Env<T>, now: Time, at: Time): seq<Action<T>>
  {
    if !Owned(s, runID, owner) then []
    else
      var c := s.runs[runID].checkpoint.control;
      if !c.status.RunSuspended? || c.pendingWait.None? || ResumeRefusal(c.pendingWait.value, command, now).Some? || !ValidActor(actor) then []
      else [ClaimingWait(owner, runID, c.stateVersion, command, actor, token, now), Committing(token, env, at)]
  }

  lemma ResumeIsSteps<T(!new)>(cfg: Config<T>, sys: System<T>, owner: Owner, actor: Actor, runID: string,
                               command: ResumeCommand, token: string, env: Env<T>, now: Time, at: Time)
    requires ValidConfig(cfg) && Inv(cfg, sys) && token !in sys.issued
    ensures Exec(cfg, sys, ResumeSteps(cfg, sys.store, owner, actor, runID, command, token, env, now, at)).store
         == RuntimeSpec.Resume(cfg, sys.store, owner, actor, runID, command, token, env, now, at).store
  {
    hide EncodeCheckpoint, DecodeCheckpoint, ResumeRefusal, Chain, HolderInv, Coupled, Execute, Executed, CommitRefusal, Exec, Refines;
    if Owned(sys.store, runID, owner) {
      assert RunInv(cfg, sys, runID);
      StoredDecodes(cfg, runID, sys.store.runs[runID].checkpoint, Events(sys.store, runID), sys.histories[runID]);
      var c := sys.store.runs[runID].checkpoint.control;
      var claim := ClaimingWait(owner, runID, c.stateVersion, command, actor, token, now);
      var next := Step(cfg, sys, claim);
      ExecThree(cfg, sys, claim, Committing(token, env, at), claim);
      if token in next.workers {
        CommittingExecutes(cfg, next, token, env, at);
      }
    }
    assert Exec(cfg, sys, []) == sys by { ExecNone(cfg, sys); }
  }

  lemma ExecNone<T>(cfg: Config<T>, sys: System<T>)
    ensures Exec(cfg, sys, []) == sys
  {
  }

  // A resume goes on exactly when its caller owns the run, the run is suspended, the
  // command answers its wait in time, the actor is known and the wait can be claimed;
  // otherwise nothing changes, not even a claim.
  ghost predicate GoesOn<T>(cfg: Config<T>, s: Store, owner: Owner, actor: Actor, runID: string, command: ResumeCommand, token: string, now: Time) {
    && runID in s.runs && s.runs[runID].owner == owner
    && DecodeCheckpoint(s.runs[runID].checkpoint, cfg.definition, cfg.codec).Ok?
    && var c := s.runs[runID].checkpoint.control;
       && c.status.RunSuspended? && c.pendingWait.Some? && ResumeRefusal(c.pendingWait.value, command, now).None?
       && ValidIdentifier(actor.kind) && ValidIdentifier(actor.id)
       && NewClaim(cfg, token, now).Ok?
       && ClaimWait(s, ClaimWaitRequest(owner, runID, c.stateVersion, command, actor, NewClaim(cfg, token, now).value, now)).1.Ok?
  }

  lemma ResumeRefused<T>(cfg: Config<T>, s: Store, owner: Owner, actor: Actor, runID: string, command: ResumeCommand,
                         token: string, env: Env<T>, now: Time, at: Time)
    requires !GoesOn(cfg, s, owner, actor, runID, command, token, now)
    ensures var r := RuntimeSpec.Resume(cfg, s, owner, actor, runID, command, token, env, now, at);
            r.store == s && r.error.Some?
  {
    hide Execute, ResumeRefusal, ClaimWaitRefusal, ValidIdentifier, ValidEnvelope;
  }
}
