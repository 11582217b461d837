// The durable runtime: encoding a state into a checkpoint and back, and the three
// store steps of one call - claim, execute, commit.
module RuntimeSpec {
  import opened Basics
  import opened WorkflowCore
  import opened RunnerSpec
  import opened RunLog
  import opened StoreSpec

  const DEFAULT_CHECKPOINT_SIZE := 0x10_0000

  datatype Codec<!T> = Codec(
    schemaID: string,
    schemaVersion: nat,
    encode: T -> Result<string>,
    decode: string -> Result<T>)

  // What the runtime assumes of a codec: what it wrote, it reads back.
  ghost predicate RoundTrips<T(!new)>(codec: Codec<T>) {
    forall data: T :: codec.encode(data).Ok? ==> codec.decode(codec.encode(data).value) == Ok(data)
  }

  datatype Config<!T> = Config(
    nodes: seq<string>,
    definition: string,
    codec: Codec<T>,
    leaseDuration: int,
    maxCheckpointBytes: int)

  // NewDurableRuntime's checks, and the codec assumption.
  ghost predicate ValidConfig<T(!new)>(cfg: Config<T>) {
    && ValidNodes(cfg.nodes)
    && ValidIdentifier(cfg.definition)
    && MIN_LEASE <= cfg.leaseDuration <= MAX_LEASE
    && RoundTrips(cfg.codec)
  }

  function CheckpointLimit(maxBytes: int): int {
    if maxBytes <= 0 then DEFAULT_CHECKPOINT_SIZE else maxBytes
  }

  function EnvelopeOf<T>(st: WorkflowState<T>, codec: Codec<T>, raw: string): Envelope {
    Envelope(codec.schemaID, codec.schemaVersion, st.meta.definitionVersion, st.meta, st.control, st.budget, raw)
  }

  function EncodeCheckpoint<T>(st: WorkflowState<T>, codec: Codec<T>, maxBytes: int): Result<Envelope> {
    if !ValidIdentifier(codec.schemaID) || codec.schemaVersion == 0 then Err(Fail(CodeCodecIncompatible))
    else if !ValidState(st) then Err(StateRefusal(st).value)
    else
      match codec.encode(st.data)
      case Err(e) => Err(e)
      case Ok(raw) =>
        if |raw| > CheckpointLimit(maxBytes) then Err(Fail(CodeCheckpointTooLarge))
        else if !ValidEnvelope(EnvelopeOf(st, codec, raw)) then Err(Fail(CodeCodecIncompatible))
        else Ok(EnvelopeOf(st, codec, raw))
  }

  function DecodeCheckpoint<T>(e: Envelope, definition: string, codec: Codec<T>): Result<WorkflowState<T>> {
    if !ValidEnvelope(e) then Err(Fail(CodeCodecIncompatible))
    else if e.schemaID != codec.schemaID || e.schemaVersion != codec.schemaVersion || e.definitionVersion != definition then
      Err(Fail(CodeCodecIncompatible))
    else
      match codec.decode(e.data)
      case Err(err) => Err(err)
      case Ok(data) => Ok(WorkflowState(e.meta, e.control, e.budget, data))
  }

  // A checkpoint that was written decodes to the state it was written from.
  lemma CheckpointRoundTrip<T(!new)>(st: WorkflowState<T>, codec: Codec<T>, maxBytes: int)
    requires RoundTrips(codec) && EncodeCheckpoint(st, codec, maxBytes).Ok?
    ensures DecodeCheckpoint(EncodeCheckpoint(st, codec, maxBytes).value, st.meta.definitionVersion, codec) == Ok(st)
  {
  }

  // Encoding a valid state fails for the codec's reasons only.
  lemma EncodeRefusal<T>(st: WorkflowState<T>, codec: Codec<T>, maxBytes: int)
    requires ValidState(st)
    ensures EncodeCheckpoint(st, codec, maxBytes).Ok? <==>
              && ValidIdentifier(codec.schemaID) && codec.schemaVersion != 0
              && codec.encode(st.data).Ok?
              && 0 < |codec.encode(st.data).value| <= (if maxBytes <= 0 then DEFAULT_CHECKPOINT_SIZE else maxBytes)
  {
  }

  // A checkpoint is read exactly when it is valid, of the codec's schema and of the
  // runtime's definition, and the codec reads its data.
  lemma DecodeExactly<T>(e: Envelope, definition: string, codec: Codec<T>)
    ensures DecodeCheckpoint(e, definition, codec).Ok? <==>
              && ValidEnvelope(e) && e.schemaID == codec.schemaID && e.schemaVersion == codec.schemaVersion
              && e.definitionVersion == definition && codec.decode(e.data).Ok?
    ensures DecodeCheckpoint(e, definition, codec).Ok? ==>
              DecodeCheckpoint(e, definition, codec).value == WorkflowState(e.meta, e.control, e.budget, codec.decode(e.data).value)
  {
    hide ValidEnvelope;
  }

  // ---- One call of the runtime ----

  // What a worker holds between its claim and its commit.
  datatype Worker<T> = Worker(
    owner: Owner,
    token: string,
    state: WorkflowState<T>,
    command: Option<ResumeCommand>,
    actor: Actor)

  function Executed<T>(cfg: Config<T>, w: Worker<T>, env: Env<T>): Outcome<T> {
    Call(cfg.nodes, w.state, EMPTY_COLLECTOR, Segment(env, w.command))
  }

  // The commit request that `execute` builds from the outcome.
  function RequestOf<T>(w: Worker<T>, o: Outcome<T>, checkpoint: Envelope, at: Time): CommitRequest {
    CommitRequest(
      w.owner, w.state.meta.runID, w.token, w.state.control.stateVersion, checkpoint, o.observer.events,
      if w.command.Some? then w.command.value.waitID else "",
      if w.command.Some? then Some(w.command.value.action) else None,
      if w.command.Some? then Some(w.actor) else None,
      at)
  }

  datatype CallResult<T> = CallResult(store: Store, state: Option<WorkflowState<T>>, error: Option<WfError>)

  function Execute<T>(cfg: Config<T>, s: Store, w: Worker<T>, env: Env<T>, at: Time): CallResult<T> {
    var o := Executed(cfg, w, env);
    match EncodeCheckpoint(o.state, cfg.codec, cfg.maxCheckpointBytes)
    case Err(e) => CallResult(s, Some(o.state), Some(e))
    case Ok(checkpoint) =>
      var (s', refusal) := Commit(s, RequestOf(w, o, checkpoint, at));
      CallResult(s', Some(o.state), if refusal.Some? then refusal else o.error)
  }

  function NewClaim<T>(cfg: Config<T>, token: string, now: Time): Result<Claim> {
    var claim := Claim(token, now + cfg.leaseDuration);
    if ValidClaim(claim, now) then Ok(claim) else Err(Fail(CodeInvalidContract))
  }

  datatype StartInput<T> = StartInput(owner: Owner, idempotencyKey: string, state: WorkflowState<T>)

  function StartRefusal<T>(cfg: Config<T>, input: StartInput<T>): Option<WfError> {
    if !ValidOwner(input.owner) || !ValidIdentifier(input.idempotencyKey) then Some(Fail(CodeInvalidContract))
    else if input.state.meta.definitionVersion != cfg.definition then Some(Fail(CodeCodecIncompatible))
    else
      match EncodeCheckpoint(input.state, cfg.codec, cfg.maxCheckpointBytes)
      case Err(e) => Some(e)
      case Ok(_) => None
  }

  function NewStored<T>(cfg: Config<T>, input: StartInput<T>, now: Time): StoredWorkflow
    requires StartRefusal(cfg, input).None?
  {
    var checkpoint := EncodeCheckpoint(input.state, cfg.codec, cfg.maxCheckpointBytes).value;
    StoredWorkflow(input.owner, input.idempotencyKey, checkpoint, None, now, now)
  }

  function ClaimAndExecute<T>(cfg: Config<T>, s: Store, input: StartInput<T>, stored: StoredWorkflow, token: string,
                              env: Env<T>, now: Time, at: Time): CallResult<T>
  {
    match NewClaim(cfg, token, now)
    case Err(e) => CallResult(s, Some(input.state), Some(e))
    case Ok(claim) =>
      var request := ClaimRunRequest(input.owner, stored.checkpoint.meta.runID, stored.checkpoint.control.stateVersion, claim, now);
      match ClaimRun(s, request)
      case (s', Err(e)) => CallResult(s', Some(input.state), Some(e))
      case (s', Ok(claimed)) =>
        match DecodeCheckpoint(claimed.checkpoint, cfg.definition, cfg.codec)
        case Err(e) => CallResult(s', Some(input.state), Some(e))
        case Ok(st) => Execute(cfg, s', Worker(input.owner, token, st, None, Actor("", "")), env, at)
  }

  // Start, when no other call interleaves with its steps.
  function Start<T>(cfg: Config<T>, s: Store, input: StartInput<T>, found: Option<string>, token: string,
                    env: Env<T>, now: Time, at: Time): CallResult<T>
    requires found.Some? ==> found.value in s.runs
  {
    if StartRefusal(cfg, input).Some? then CallResult(s, Some(input.state), StartRefusal(cfg, input))
    else
      match CreateRun(s, NewStored(cfg, input, now), found)
      case (s', Err(e)) => CallResult(s', Some(input.state), Some(e))
      case (s', Ok(Created(run, created))) =>
        if created then ClaimAndExecute(cfg, s', input, run, token, env, now, at)
        else
          match DecodeCheckpoint(run.checkpoint, cfg.definition, cfg.codec)
          case Err(e) => CallResult(s', None, Some(e))
          case Ok(st) =>
            if !st.control.status.RunPending? then CallResult(s', Some(st), None)
            else ClaimAndExecute(cfg, s', input, run, token, env, now, at)
  }

  // Resume, when no other call interleaves with its steps.
  function Resume<T>(cfg: Config<T>, s: Store, owner: Owner, actor: Actor, runID: string, command: ResumeCommand,
                     token: string, env: Env<T>, now: Time, at: Time): CallResult<T>
  {
    if !Owned(s, runID, owner) then CallResult(s, None, Some(Fail(CodeNotFound)))
    else
      match DecodeCheckpoint(s.runs[runID].checkpoint, cfg.definition, cfg.codec)
      case Err(e) => CallResult(s, None, Some(e))
      case Ok(st) =>
        if !st.control.status.RunSuspended? || st.control.pendingWait.None? then
          CallResult(s, Some(st), Some(Fail(CodeInvalidState)))
        else if ResumeRefusal(st.control.pendingWait.value, command, now).Some? then
          CallResult(s, Some(st), ResumeRefusal(st.control.pendingWait.value, command, now))
        else if !ValidActor(actor) then CallResult(s, Some(st), Some(Fail(CodeInvalidContract)))
        else
          match NewClaim(cfg, token, now)
          case Err(e) => CallResult(s, Some(st), Some(e))
          case Ok(claim) =>
            match ClaimWait(s, ClaimWaitRequest(owner, runID, st.control.stateVersion, command, actor, claim, now))
            case (s', Err(e)) => CallResult(s', Some(st), Some(e))
            case (s', Ok(claimed)) =>
              match DecodeCheckpoint(claimed.checkpoint, cfg.definition, cfg.codec)
              case Err(e) => CallResult(s', Some(st), Some(e))
              case Ok(claimedState) => Execute(cfg, s', Worker(owner, token, claimedState, Some(command), actor), env, at)
  }
}
