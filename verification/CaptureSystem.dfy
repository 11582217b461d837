// Capture runs over a shared store: workers claim a run's checkpoint, look at the store,
// execute the nodes and commit the new checkpoint if the old one still stands. Workers
// may crash at any point and be overtaken; anyone else may change the store in between.
module CaptureSystem {
  import opened Basics
  import opened MemorySpec
  import opened MemorySystem
  import opened CaptureSpec
  import W = WorkflowCore

  // A committed checkpoint. `trail` are the candidates put up for review so far.
  datatype Run = Run(data: Data, trail: seq<string>, pending: Option<W.WaitPoint>, done: bool)

  // Executing the review node, executing the commit node, or ready to commit.
  datatype Phase = Fresh | Decided(data: Data) | Finished(run: Run)

  // `view` is the store as the worker last read it.
  datatype Worker = Worker(runID: string, base: Run, command: Option<W.ResumeCommand>, view: Option<Repo>, phase: Phase)

  datatype System = System(repo: Repo, runs: map<string, Run>, workers: map<nat, Worker>, accepted: set<W.ResumeCommand>)

  const INIT := System(EMPTY_REPO, map[], map[], {})

  datatype Event =
    | Storing(a: Action)
    | Starting(runID: string, data: Data)
    | ClaimingRun(id: nat, runID: string, command: Option<W.ResumeCommand>, now: Time)
    | Looking(id: nat)
    | Reviewing(id: nat, ttl: int, world: World)
    | Deciding(id: nat, world: World)
    | Checkpointing(id: nat)

  // Others do not use a capture run's idempotency keys.
  ghost predicate ForeignKey(key: string) {
    forall runID, n :: key != EditKey(runID, n)
  }

  predicate KeyedAction(a: Action) {
    a.Committing? || a.Transitioning? || a.Activating?
  }

  function KeyOf(a: Action): string
    requires KeyedAction(a)
  {
    match a
    case Committing(m, _) => m.idempotencyKey
    case Transitioning(m) => m.idempotencyKey
    case Activating(m, _) => m.idempotencyKey
  }

  ghost predicate Allowed(sys: System, e: Event) {
    match e
    case Storing(a) => KeyedAction(a) ==> ForeignKey(KeyOf(a))
    case Starting(runID, data) => runID !in sys.runs && data.review.None?
    case ClaimingRun(id, runID, command, now) =>
      && id !in sys.workers && runID in sys.runs && !sys.runs[runID].done
      && (match sys.runs[runID].pending
          case None => command.None?
          case Some(wait) => command.Some? && W.ResumeRefusal(wait, command.value, now).None?)
    case Looking(id) => id in sys.workers
    case Reviewing(id, _, _) => id in sys.workers && sys.workers[id].phase.Fresh? && sys.workers[id].view.Some?
    case Deciding(id, _) => id in sys.workers && sys.workers[id].phase.Decided? && sys.workers[id].view.Some?
    case Checkpointing(id) => id in sys.workers && sys.workers[id].phase.Finished?
  }

  function ReviewOf(c: Config, s: Repo, w: Worker, ttl: int, world: World): (Repo, Output)
    requires w.view.Some?
  {
    match w.command
    case None => ReviewFirst(c, w.view.value, s, w.runID, w.base.data, ttl, world)
    case Some(command) => ReviewResumed(c, w.view.value, s, w.runID, |w.base.trail|, w.base.data, command, ttl, world)
  }

  // A suspension is checked by the runner before it is kept.
  function AfterReview(base: Run, out: Output, now: Time): Phase {
    match out
    case Failed => Finished(base.(pending := None, done := true))
    case Continues(data) => Decided(data)
    case Suspends(data, review, wait) =>
      if !W.ValidWait(wait, now) then Finished(base.(pending := None, done := true))
      else Finished(Run(data, base.trail + [review.candidate.id], Some(wait), false))
  }

  function AfterDecision(base: Run, data: Data, out: Output): Phase {
    Finished(Run(if out.Continues? then out.data else data, base.trail, None, true))
  }

  ghost function Next(c: Config, sys: System, e: Event): System {
    if !Allowed(sys, e) then sys
    else
      match e
      case Storing(a) => sys.(repo := Step(c, sys.repo, a))
      case Starting(runID, data) => sys.(runs := sys.runs[runID := Run(data, [], None, false)])
      case ClaimingRun(id, runID, command, _) =>
        sys.(workers := sys.workers[id := Worker(runID, sys.runs[runID], command, None, Fresh)],
             accepted := if command.Some? then sys.accepted + {command.value} else sys.accepted)
      case Looking(id) => sys.(workers := sys.workers[id := sys.workers[id].(view := Some(sys.repo))])
      case Reviewing(id, ttl, world) =>
        var w := sys.workers[id];
        var (t, out) := ReviewOf(c, sys.repo, w, ttl, world);
        sys.(repo := t, workers := sys.workers[id := w.(phase := AfterReview(w.base, out, world.now))])
      case Deciding(id, world) =>
        var w := sys.workers[id];
        var (t, out) := CommitDecision(c, w.view.value, sys.repo, w.runID, w.phase.data, world);
        sys.(repo := t, workers := sys.workers[id := w.(phase := AfterDecision(w.base, w.phase.data, out))])
      case Checkpointing(id) =>
        var w := sys.workers[id];
        sys.(runs := if w.runID in sys.runs && sys.runs[w.runID] == w.base then sys.runs[w.runID := w.phase.run] else sys.runs,
             workers := sys.workers - {id})
  }

  ghost function RunAll(c: Config, sys: System, events: seq<Event>): System
    decreases |events|
  {
    if events == [] then sys
    else Next(c, RunAll(c, sys, events[..|events| - 1]), events[|events| - 1])
  }
}
