// Any number of workers over one store: every store operation is one atomic step,
// workers crash by taking no further step, leases expire because every step reads
// its own clock. A claim's token is new each time (issued tokens are never reused).
module WorkflowSystem {
  import opened Basics
  import opened WorkflowCore
  import opened RunnerSpec
  import opened RunnerProofs
  import opened RunLog
  import opened StoreSpec
  import opened RuntimeSpec

  // `histories` records, for each run, how it was created and which executions were
  // committed; nothing reads it.
  datatype System<!T> = System(
    store: Store,
    workers: map<string, Worker<T>>,
    issued: set<string>,
    histories: map<string, History<T>>)

  datatype Action<!T> =
    | Create(input: StartInput<T>, found: Option<string>, now: Time)
    | Claiming(owner: Owner, runID: string, version: int, token: string, now: Time)
    | ClaimingWait(owner: Owner, runID: string, version: int, command: ResumeCommand, actor: Actor, token: string, now: Time)
    | Renewing(owner: Owner, runID: string, token: string, now: Time)
    | Committing(token: string, env: Env<T>, now: Time)

  ghost predicate Enabled<T>(cfg: Config<T>, sys: System<T>, a: Action<T>) {
    match a
    case Create(input, found, now) =>
      && StartRefusal(cfg, input).None?
      && NewRun(input.state)
      && Match(sys.store, NewStored(cfg, input, now), found)
    case Claiming(_, _, _, token, _) => token !in sys.issued
    case ClaimingWait(_, _, _, _, _, token, _) => token !in sys.issued
    case Renewing(_, _, _, _) => true
    case Committing(token, _, _) => token in sys.workers
  }

  function LeaseOf<T>(cfg: Config<T>, token: string, now: Time): Claim {
    Claim(token, now + cfg.leaseDuration)
  }

  // The worker that got `claimed` back from the store; a checkpoint it cannot decode
  // ends the call.
  function Joined<T>(cfg: Config<T>, sys: System<T>, store: Store, claimed: StoredWorkflow, owner: Owner, token: string,
                     command: Option<ResumeCommand>, actor: Actor): System<T>
  {
    var base := sys.(store := store, issued := sys.issued + {token});
    match DecodeCheckpoint(claimed.checkpoint, cfg.definition, cfg.codec)
    case Err(_) => base
    case Ok(st) => base.(workers := sys.workers[token := Worker(owner, token, st, command, actor)])
  }

  function WorkerRequest<T>(cfg: Config<T>, w: Worker<T>, env: Env<T>, at: Time): Result<CommitRequest> {
    var o := Executed(cfg, w, env);
    match EncodeCheckpoint(o.state, cfg.codec, cfg.maxCheckpointBytes)
    case Err(e) => Err(e)
    case Ok(checkpoint) => Ok(RequestOf(w, o, checkpoint, at))
  }

  ghost function Step<T>(cfg: Config<T>, sys: System<T>, a: Action<T>): System<T> {
    if !Enabled(cfg, sys, a) then sys
    else
      match a
      case Create(input, found, now) =>
        (match CreateRun(sys.store, NewStored(cfg, input, now), found)
         case (store, Ok(Created(run, true))) =>
           sys.(store := store, histories := sys.histories[run.checkpoint.meta.runID := History(input.state, [])])
         case (store, _) => sys.(store := store))
      case Claiming(owner, runID, version, token, now) =>
        (match ClaimRun(sys.store, ClaimRunRequest(owner, runID, version, LeaseOf(cfg, token, now), now))
         case (store, Ok(claimed)) => Joined(cfg, sys, store, claimed, owner, token, None, Actor("", ""))
         case (store, _) => sys.(store := store))
      case ClaimingWait(owner, runID, version, command, actor, token, now) =>
        (match ClaimWait(sys.store, ClaimWaitRequest(owner, runID, version, command, actor, LeaseOf(cfg, token, now), now))
         case (store, Ok(claimed)) => Joined(cfg, sys, store, claimed, owner, token, Some(command), actor)
         case (store, _) => sys.(store := store))
      case Renewing(owner, runID, token, now) =>
        sys.(store := RenewClaim(sys.store, RenewRequest(owner, runID, token, now + cfg.leaseDuration, now)).0)
      case Committing(token, env, now) =>
        var w := sys.workers[token];
        (match WorkerRequest(cfg, w, env, now)
         case Err(_) => sys
         case Ok(request) =>
           match Commit(sys.store, request)
           case (store, Some(_)) => sys.(store := store)
           case (store, None) => Committed(sys, store, w, env))
  }

  ghost function Committed<T>(sys: System<T>, store: Store, w: Worker<T>, env: Env<T>): System<T> {
    var id := w.state.meta.runID;
    if id !in sys.histories then sys.(store := store)
    else
      var h := sys.histories[id];
      sys.(store := store, histories := sys.histories[id := h.(segments := h.segments + [Segment(env, w.command)])])
  }

  ghost function Init<T>(): System<T> {
    System(EMPTY_STORE, map[], {}, map[])
  }

  ghost function Exec<T>(cfg: Config<T>, sys: System<T>, actions: seq<Action<T>>): System<T>
    decreases |actions|
  {
    if actions == [] then sys
    else
      var last := |actions| - 1;
      Step(cfg, Exec(cfg, sys, actions[..last]), actions[last])
  }

  // ---- The invariant ----

  ghost predicate AllResolved(waits: seq<StoredWait>) {
    forall i :: 0 <= i < |waits| ==> waits[i].status.WaitResolved?
  }

  // How a run's status, its waits and its claim go together.
  ghost predicate Coupled(run: StoredWorkflow, waits: seq<StoredWait>) {
    var c := run.checkpoint.control;
    if c.status.RunPending? then waits == []
    else if c.status.RunSuspended? then
      && waits != []
      && AllResolved(waits[..|waits| - 1])
      && var last := waits[|waits| - 1];
         && (last.status.WaitPending? || last.status.WaitProcessing?)
         && c.pendingWait == Some(last.point)
         && run.claim == last.claim
         && (run.claim.Some? <==> last.status.WaitProcessing?)
    else c.status.Terminal() && run.claim.None? && AllResolved(waits)
  }

  // The stored checkpoint and log are what the history gives when chained in memory.
  ghost predicate Refines<T>(cfg: Config<T>, id: string, checkpoint: Envelope, events: seq<NodeEvent>, h: History<T>) {
    var o := Chain(cfg.nodes, h);
    && NewRun(h.initial)
    && h.initial.meta.runID == id
    && h.initial.meta.definitionVersion == cfg.definition
    && EncodeCheckpoint(o.state, cfg.codec, cfg.maxCheckpointBytes) == Ok(checkpoint)
    && events == o.observer.events
  }

  ghost predicate Issued(claim: Option<Claim>, issued: set<string>) {
    claim.Some? ==> claim.value.token in issued
  }

  ghost predicate RunInv<T>(cfg: Config<T>, sys: System<T>, id: string)
    requires id in sys.store.runs
  {
    && id in sys.histories
    && Refines(cfg, id, sys.store.runs[id].checkpoint, Events(sys.store, id), sys.histories[id])
    && Coupled(sys.store.runs[id], Waits(sys.store, id))
    && Issued(sys.store.runs[id].claim, sys.issued)
  }

  // A worker that holds the run's token executes the run's state, with the command
  // the wait was claimed with.
  ghost predicate Holder<T>(run: StoredWorkflow, current: WorkflowState<T>, w: Worker<T>) {
    && w.owner == run.owner
    && w.state == current
    && match w.command
       case None => run.checkpoint.control.status.RunPending?
       case Some(command) =>
         && run.checkpoint.control.status.RunSuspended?
         && run.checkpoint.control.pendingWait.Some?
         && command.waitID == run.checkpoint.control.pendingWait.value.id
         && ValidIdentifier(command.waitID)
         && ValidActor(w.actor)
  }

  ghost predicate HolderInv<T>(cfg: Config<T>, sys: System<T>, id: string, token: string)
    requires id in sys.store.runs && token in sys.workers
  {
    HeldBy(sys.store.runs[id].claim, token) ==>
      id in sys.histories && Holder(sys.store.runs[id], Chain(cfg.nodes, sys.histories[id]).state, sys.workers[token])
  }

  ghost predicate Inv<T>(cfg: Config<T>, sys: System<T>) {
    && sys.store.waits.Keys <= sys.store.runs.Keys
    && sys.store.events.Keys <= sys.store.runs.Keys
    && sys.workers.Keys <= sys.issued
    && (forall id :: id in sys.store.runs ==> RunInv(cfg, sys, id))
    && (forall token :: token in sys.workers ==> sys.workers[token].token == token)
    && (forall id, token :: id in sys.store.runs && token in sys.workers ==> HolderInv(cfg, sys, id, token))
  }
}
