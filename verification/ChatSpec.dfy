// The chat run log: sessions, their runs and messages, and the numbered events of each
// run. A refused operation changes nothing.
module ChatSpec {
  import opened Basics

  datatype Owner = Owner(userID: nat, tenantID: nat)

  datatype ChatError = NotFound | ActiveRun | InvalidState

  datatype Result<+T> = Ok(value: T) | Err(error: ChatError)

  datatype RunStatus = RunQueued | RunRunning | RunCompleted | RunFailed | RunCancelled | RunTimedOut | RunInterrupted

  predicate Terminal(s: RunStatus) {
    !s.RunQueued? && !s.RunRunning?
  }

  datatype Session = Session(id: string, owner: Owner, title: string, createdAt: Time, updatedAt: Time)

  datatype Message = Message(id: string, sessionID: string, runID: string, sequence: nat, role: string, content: string, createdAt: Time)

  datatype Run = Run(
    id: string,
    sessionID: string,
    status: RunStatus,
    model: string,
    idempotencyKey: string,
    errorCode: string,
    errorMessage: string,
    createdAt: Time,
    startedAt: Option<Time>,
    completedAt: Option<Time>)

  // The run a missing map entry reads as.
  const NO_RUN := Run("", "", RunQueued, "", "", "", "", ZERO_TIME, None, None)

  datatype Event = Event(runID: string, sequence: nat, name: string, data: string, createdAt: Time)

  datatype Repo = Repo(
    sessions: map<string, Session>,
    messages: map<string, seq<Message>>,
    runs: map<string, Run>,
    events: map<string, seq<Event>>,
    idem: map<string, string>)

  const EMPTY_REPO := Repo(map[], map[], map[], map[], map[])

  function Log(r: Repo, runID: string): seq<Event> {
    if runID in r.events then r.events[runID] else []
  }

  function Messages(r: Repo, sessionID: string): seq<Message> {
    if sessionID in r.messages then r.messages[sessionID] else []
  }

  function Append(r: Repo, e: Event): Repo {
    var log := Log(r, e.runID);
    r.(events := r.events[e.runID := log + [e.(sequence := |log| + 1)]])
  }

  function Say(r: Repo, m: Message): Repo {
    var said := Messages(r, m.sessionID);
    r.(messages := r.messages[m.sessionID := said + [m.(sequence := |said| + 1)]])
  }

  predicate OwnsSession(r: Repo, owner: Owner, sessionID: string) {
    sessionID in r.sessions && r.sessions[sessionID].owner == owner
  }

  predicate HasActive(r: Repo, sessionID: string) {
    exists id :: id in r.runs && r.runs[id].sessionID == sessionID && !Terminal(r.runs[id].status)
  }

  datatype Created = Created(run: Run, isNew: bool)

  function IdemKey(sessionID: string, key: string): string {
    sessionID + "\0" + key
  }

  function SetSession(r: Repo, id: string, s: Session): Repo {
    r.(sessions := r.sessions[id := s])
  }

  function CreateSession(r: Repo, s: Session): Repo {
    SetSession(r, s.id, s)
  }

  // A new run begins its log with the queued event.
  function Begin(r: Repo, run: Run, idemKey: string, queued: Event): Repo {
    r.(runs := r.runs[run.id := run], idem := r.idem[idemKey := run.id],
       events := r.events[run.id := Log(r, run.id) + [queued.(sequence := 1)]])
  }

  function CreateRun(r: Repo, owner: Owner, sessionID: string, key: string, run: Run, message: Message, queued: Event): (Repo, Result<Created>) {
    var idemKey := IdemKey(sessionID, key);
    if !OwnsSession(r, owner, sessionID) then (r, Err(NotFound))
    else if idemKey in r.idem then
      (r, Ok(Created(if r.idem[idemKey] in r.runs then r.runs[r.idem[idemKey]] else NO_RUN, false)))
    else if HasActive(r, sessionID) then (r, Err(ActiveRun))
    else
      var said := Say(r, message.(sessionID := sessionID));
      var t := Begin(SetSession(said, sessionID, r.sessions[sessionID].(updatedAt := message.createdAt)), run, idemKey, queued);
      (t, Ok(Created(run, true)))
  }

  function GetRun(r: Repo, owner: Owner, id: string): Result<Run> {
    if id !in r.runs || !OwnsSession(r, owner, r.runs[id].sessionID) then Err(NotFound) else Ok(r.runs[id])
  }

  function SetRun(r: Repo, id: string, run: Run): Repo {
    r.(runs := r.runs[id := run])
  }

  function StartRun(r: Repo, id: string, e: Event): (Repo, Option<ChatError>) {
    if id !in r.runs then (r, Some(NotFound))
    else if !r.runs[id].status.RunQueued? then (r, Some(InvalidState))
    else (Append(SetRun(r, id, r.runs[id].(status := RunRunning, startedAt := Some(e.createdAt))), e), None)
  }

  function AppendEvent(r: Repo, e: Event): (Repo, Option<ChatError>) {
    if e.runID !in r.runs then (r, Some(NotFound)) else (Append(r, e), None)
  }

  function CompleteRun(r: Repo, id: string, assistant: Message, e: Event): (Repo, Option<ChatError>) {
    if id !in r.runs then (r, Some(NotFound))
    else if !r.runs[id].status.RunRunning? then (r, Some(InvalidState))
    else
      var run := r.runs[id];
      (Append(SetRun(Say(r, assistant.(sessionID := run.sessionID)), id,
                     run.(status := RunCompleted, completedAt := Some(e.createdAt))), e), None)
  }

  function FailRun(r: Repo, id: string, status: RunStatus, code: string, text: string, e: Event): (Repo, Option<ChatError>) {
    if id !in r.runs then (r, Some(NotFound))
    else if Terminal(r.runs[id].status) then (r, Some(InvalidState))
    else
      (Append(SetRun(r, id, r.runs[id].(status := status, errorCode := code, errorMessage := text,
                                        completedAt := Some(e.createdAt))), e), None)
  }

  function CancelRun(r: Repo, owner: Owner, id: string, e: Event): (Repo, Option<ChatError>) {
    if id !in r.runs || !OwnsSession(r, owner, r.runs[id].sessionID) then (r, Some(NotFound))
    else if Terminal(r.runs[id].status) then (r, Some(InvalidState))
    else (Append(SetRun(r, id, r.runs[id].(status := RunCancelled, completedAt := Some(e.createdAt))), e), None)
  }

  // Starting the service interrupts every run that has not ended, one event each.
  function InterruptedEvent(id: string, now: Time): Event {
    Event(id, 0, "run.interrupted", "interrupted", now)
  }

  function Interrupt(r: Repo, id: string, now: Time): Repo
    requires id in r.runs
  {
    Append(SetRun(r, id, r.runs[id].(status := RunInterrupted, completedAt := Some(now))), InterruptedEvent(id, now))
  }

  // ---- Reading the log ----

  // The events numbered after a given one, oldest first.
  function Newer(log: seq<Event>, after: nat): seq<Event> {
    if log == [] then []
    else if log[|log| - 1].sequence > after then Newer(log[..|log| - 1], after) + [log[|log| - 1]]
    else Newer(log[..|log| - 1], after)
  }

  // A limit of zero or less is no limit.
  function Take<T>(s: seq<T>, limit: int): seq<T> {
    if limit <= 0 || |s| <= limit then s else s[..limit]
  }

  function ListEvents(r: Repo, owner: Owner, id: string, after: nat, limit: int): Result<seq<Event>> {
    if id !in r.runs || !OwnsSession(r, owner, r.runs[id].sessionID) then Err(NotFound)
    else Ok(Take(Newer(Log(r, id), after), limit))
  }

  ghost predicate Numbered(log: seq<Event>) {
    forall i :: 0 <= i < |log| ==> log[i].sequence == i + 1
  }

  // On a numbered log the page after `after` is the stretch right behind it.
  lemma {:induction false} NewerIsSuffix(log: seq<Event>, after: nat)
    requires Numbered(log)
    ensures Newer(log, after) == if after < |log| then log[after..] else []
  {
    if log != [] {
      NewerIsSuffix(log[..|log| - 1], after);
    }
  }

  // ---- What every operation keeps ----

  // A run's log is its own and numbered from one.
  ghost predicate LogInv(log: seq<Event>, id: string) {
    log != [] && Numbered(log) && forall i :: 0 <= i < |log| ==> log[i].runID == id
  }

  ghost predicate RunInv(r: Repo, id: string)
    requires id in r.runs
  {
    && r.runs[id].id == id
    && r.runs[id].sessionID in r.sessions
    && id in r.events && LogInv(r.events[id], id)
  }

  ghost predicate OneActive(r: Repo) {
    forall a, b ::
      (a in r.runs && b in r.runs && r.runs[a].sessionID == r.runs[b].sessionID
       && !Terminal(r.runs[a].status) && !Terminal(r.runs[b].status)) ==> a == b
  }

  ghost predicate MessagesNumbered(r: Repo) {
    forall id, i :: id in r.messages && 0 <= i < |r.messages[id]| ==> r.messages[id][i].sequence == i + 1
  }

  ghost predicate RepoInv(r: Repo) {
    && r.events.Keys == r.runs.Keys
    && (forall id :: id in r.runs ==> RunInv(r, id))
    && (forall key :: key in r.idem ==> r.idem[key] in r.runs)
    && OneActive(r)
    && MessagesNumbered(r)
  }
}
