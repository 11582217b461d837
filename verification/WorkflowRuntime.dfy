// The durable runtime as an object over the store.
module WorkflowRuntime {
  import opened Basics
  import opened WorkflowCore
  import opened RunnerSpec
  import opened WorkflowRunner
  import opened StoreSpec
  import opened WorkflowStore
  import opened RuntimeSpec
  import Spec = RuntimeSpec

  class DurableRuntime<T> {
    const store: MemoryDurableStore
    const cfg: Config<T>

    constructor (store: MemoryDurableStore, cfg: Config<T>)
      requires ValidNodes(cfg.nodes) && ValidIdentifier(cfg.definition)
      requires MIN_LEASE <= cfg.leaseDuration <= MAX_LEASE
      ensures this.store == store && this.cfg == cfg
    {
      this.store := store;
      this.cfg := cfg;
    }

    method Execute(w: Worker<T>, env: Env<T>, at: Time) returns (state: Option<WorkflowState<T>>, error: Option<WfError>)
      requires ValidNodes(cfg.nodes)
      modifies store
      ensures CallResult(store.Contents(), state, error) == Spec.Execute(cfg, old(store.Contents()), w, env, at)
    {
      var collector := new MemoryCollector();
      var runner := new Runner(cfg.nodes, collector, env);
      var after: WorkflowState<T>;
      if w.command.None? {
        after, error := runner.Run(w.state);
      } else {
        after, error := runner.Resume(w.state, w.command.value);
      }
      state := Some(after);
      var encoded := EncodeCheckpoint(after, cfg.codec, cfg.maxCheckpointBytes);
      if encoded.Err? {
        return state, Some(encoded.error);
      }
      var outcome := Outcome(after, error, collector.Contents());
      var refusal := store.CommitExecution(RequestOf(w, outcome, encoded.value, at));
      if refusal.Some? {
        return state, refusal;
      }
    }

    method ClaimAndExecute(input: StartInput<T>, stored: StoredWorkflow, token: string, env: Env<T>, now: Time, at: Time)
      returns (state: Option<WorkflowState<T>>, error: Option<WfError>)
      requires ValidNodes(cfg.nodes)
      modifies store
      ensures CallResult(store.Contents(), state, error)
           == Spec.ClaimAndExecute(cfg, old(store.Contents()), input, stored, token, env, now, at)
    {
      state := Some(input.state);
      var claim := NewClaim(cfg, token, now);
      if claim.Err? {
        return state, Some(claim.error);
      }
      var claimed := store.ClaimRun(ClaimRunRequest(
        input.owner, stored.checkpoint.meta.runID, stored.checkpoint.control.stateVersion, claim.value, now));
      if claimed.Err? {
        return state, Some(claimed.error);
      }
      var decoded := DecodeCheckpoint(claimed.value.checkpoint, cfg.definition, cfg.codec);
      if decoded.Err? {
        return state, Some(decoded.error);
      }
      state, error := Execute(Worker(input.owner, token, decoded.value, None, Actor("", "")), env, at);
    }

    method Start(input: StartInput<T>, token: string, env: Env<T>, now: Time, at: Time)
      returns (state: Option<WorkflowState<T>>, error: Option<WfError>)
      requires ValidNodes(cfg.nodes)
      modifies store
      ensures StartRefusal(cfg, input).Some? ==>
                store.Contents() == old(store.Contents()) && state == Some(input.state) && error == StartRefusal(cfg, input)
      ensures StartRefusal(cfg, input).None? ==>
                exists found :: Match(old(store.Contents()), NewStored(cfg, input, now), found)
                  && CallResult(store.Contents(), state, error)
                     == Spec.Start(cfg, old(store.Contents()), input, found, token, env, now, at)
    {
      state := Some(input.state);
      error := StartRefusal(cfg, input);
      if error.Some? {
        return;
      }
      ghost var before := store.Contents();
      var newRun := NewStored(cfg, input, now);
      var created := store.CreateRun(newRun);
      ghost var found :| Match(before, newRun, found) && (store.Contents(), created) == CreateRun(before, newRun, found);
      if created.Err? {
        error := Some(created.error);
      } else if created.value.created {
        state, error := ClaimAndExecute(input, created.value.run, token, env, now, at);
      } else {
        var decoded := DecodeCheckpoint(created.value.run.checkpoint, cfg.definition, cfg.codec);
        if decoded.Err? {
          state, error := None, Some(decoded.error);
        } else if decoded.value.control.status != RunPending {
          state, error := Some(decoded.value), None;
        } else {
          state, error := ClaimAndExecute(input, created.value.run, token, env, now, at);
        }
      }
      assert CallResult(store.Contents(), state, error) == Spec.Start(cfg, before, input, found, token, env, now, at);
    }

    method Resume(owner: Owner, actor: Actor, runID: string, command: ResumeCommand, token: string, env: Env<T>,
                  now: Time, at: Time)
      returns (state: Option<WorkflowState<T>>, error: Option<WfError>)
      requires ValidNodes(cfg.nodes)
      modifies store
      ensures CallResult(store.Contents(), state, error)
           == Spec.Resume(cfg, old(store.Contents()), owner, actor, runID, command, token, env, now, at)
    {
      state := None;
      var stored := store.GetRun(owner, runID);
      if stored.Err? {
        return state, Some(stored.error);
      }
      var decoded := DecodeCheckpoint(stored.value.checkpoint, cfg.definition, cfg.codec);
      if decoded.Err? {
        return state, Some(decoded.error);
      }
      var st := decoded.value;
      state := Some(st);
      if st.control.status != RunSuspended || st.control.pendingWait.None? {
        return state, Some(Fail(CodeInvalidState));
      }
      error := ValidateResume(st.control.pendingWait.value, command, now);
      if error.Some? {
        return;
      }
      if !ValidActor(actor) {
        return state, Some(Fail(CodeInvalidContract));
      }
      var claim := NewClaim(cfg, token, now);
      if claim.Err? {
        return state, Some(claim.error);
      }
      var claimed := store.ClaimWait(ClaimWaitRequest(owner, runID, st.control.stateVersion, command, actor, claim.value, now));
      if claimed.Err? {
        return state, Some(claimed.error);
      }
      var again := DecodeCheckpoint(claimed.value.checkpoint, cfg.definition, cfg.codec);
      if again.Err? {
        return state, Some(again.error);
      }
      state, error := Execute(Worker(owner, token, again.value, Some(command), actor), env, at);
    }

    method Renew(owner: Owner, runID: string, token: string, now: Time) returns (error: Option<WfError>)
      modifies store
      ensures (store.Contents(), error)
           == RenewClaim(old(store.Contents()), RenewRequest(owner, runID, token, now + cfg.leaseDuration, now))
    {
      error := store.RenewClaim(RenewRequest(owner, runID, token, now + cfg.leaseDuration, now));
    }
  }
}
