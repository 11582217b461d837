// The chat service at work: writers that append and then notify, stream readers that
// subscribe before they read, and clients that reconnect at the last number they
// received, in any interleaving. Every step is one atomic action of the code.
module ChatSystem {
  import opened Basics
  import opened ChatSpec
  import opened ChatNotifierSpec

  const PAGE := 100

  // ---- Writers ----

  // One call of the service that appends an event. Run ids are fresh.
  datatype Write =
    | Creating(owner: Owner, sessionID: string, key: string, run: Run, message: Message, queued: Event)
    | Starting(e: Event)
    | Appending(e: Event)
    | Completing(assistant: Message, e: Event)
    | Failing(status: RunStatus, code: string, text: string, e: Event)
    | Cancelling(owner: Owner, e: Event)

  function RunIDOf(w: Write): string {
    if w.Creating? then w.run.id else w.e.runID
  }

  predicate Shaped(r: Repo, w: Write) {
    match w
    case Creating(_, sessionID, _, run, _, queued) =>
      run.id !in r.runs && run.sessionID == sessionID && run.status.RunQueued? && queued.runID == run.id
    case Failing(status, _, _, _) => status.RunFailed? || status.RunTimedOut?
    case _ => true
  }

  // The new contents, and whether an event was appended.
  function Apply(r: Repo, w: Write): (Repo, bool) {
    match w
    case Creating(owner, sessionID, key, run, message, queued) =>
      var (t, created) := CreateRun(r, owner, sessionID, key, run, message, queued);
      (t, created.Ok? && created.value.isNew)
    case Starting(e) => var (t, error) := StartRun(r, e.runID, e); (t, error.None?)
    case Appending(e) => var (t, error) := AppendEvent(r, e); (t, error.None?)
    case Completing(assistant, e) => var (t, error) := CompleteRun(r, e.runID, assistant, e); (t, error.None?)
    case Failing(status, code, text, e) => var (t, error) := FailRun(r, e.runID, status, code, text, e); (t, error.None?)
    case Cancelling(owner, e) => var (t, error) := CancelRun(r, owner, e.runID, e); (t, error.None?)
  }

  // A writer that has appended but not yet taken the waiters, or is closing them.
  datatype Writer = Appended(runID: string) | Closing(channels: seq<Channel>)

  // ---- Readers ----

  // Where a stream stands in its loop. `rest` is what is left to write of the page,
  // `short` whether the page was below the limit.
  datatype Phase =
    | Idle
    | Subscribing(ch: Channel)
    | Sending(ch: Channel, rest: seq<Event>, short: bool)
    | Parked(ch: Channel, short: bool)
    | Leaving(ch: Channel, again: bool)
    | Closed

  datatype Reader = Reader(runID: string, owner: Owner, start: nat, after: nat, sent: seq<Event>, phase: Phase)

  // ---- Clients ----

  // `taken` counts the events of the current stream that arrived.
  datatype Link = Link(reader: nat, taken: nat)
  datatype Client = Client(runID: string, owner: Owner, start: nat, received: seq<Event>, link: Option<Link>)

  function LastID(c: Client): nat {
    if c.received == [] then c.start else c.received[|c.received| - 1].sequence
  }

  // ---- The system ----

  // Where a channel is. The code keeps no such table; no step depends on it.
  datatype Place = Waits(runID: string) | Taken(writer: nat) | Done
  datatype Owned = Owned(reader: nat, place: Place)

  // `panicked` is set when a closed channel is closed.
  datatype System = System(
    repo: Repo,
    waiters: Waiters,
    next: Channel,
    closed: set<Channel>,
    panicked: bool,
    writers: map<nat, Writer>,
    readers: map<nat, Reader>,
    clients: map<nat, Client>,
    owned: map<Channel, Owned>)

  function Init(r: Repo): System {
    System(r, map[], 0, {}, false, map[], map[], map[], map[])
  }

  datatype Action =
    | NewSession(session: Session)
    | Write(id: nat, write: Write)
    | TakeWaiters(id: nat)
    | CloseNext(id: nat)
    | Subscribe(id: nat)
    | List(id: nat)
    | Send(id: nat, written: bool)
    | CheckStatus(id: nat)
    | Wake(id: nat)
    | Beat(id: nat, written: bool)
    | Cancel(id: nat)
    | Leave(id: nat)
    | Open(id: nat, client: nat, runID: string, owner: Owner, after: nat)
    | Reconnect(id: nat, client: nat)
    | Receive(client: nat)
    | Disconnect(client: nat)

  predicate InPhase(s: System, id: nat, a: Action) {
    id in s.readers &&
    var p := s.readers[id].phase;
    match a
    case Subscribe(_) => p.Idle?
    case List(_) => p.Subscribing?
    case Send(_, _) => p.Sending? && p.rest != []
    case CheckStatus(_) => p.Sending? && p.rest == []
    case Wake(_) => p.Parked? && p.ch in s.closed
    case Beat(_, _) => p.Parked?
    case Cancel(_) => p.Parked?
    case Leave(_) => p.Leaving?
    case _ => false
  }

  predicate Enabled(s: System, a: Action) {
    match a
    case NewSession(session) => session.id !in s.repo.sessions
    case Write(id, w) => id !in s.writers && Shaped(s.repo, w)
    case TakeWaiters(id) => id in s.writers && s.writers[id].Appended?
    case CloseNext(id) => id in s.writers && s.writers[id].Closing?
    case Open(id, client, _, _, _) => id !in s.readers && client !in s.clients
    case Reconnect(id, client) => id !in s.readers && client in s.clients && s.clients[client].link.None?
    case Receive(client) =>
      && client in s.clients && s.clients[client].link.Some?
      && var link := s.clients[client].link.value; link.reader in s.readers && link.taken < |s.readers[link.reader].sent|
    case Disconnect(client) => client in s.clients
    case _ => InPhase(s, a.id, a)
  }

  function Dropped(writers: map<nat, Writer>, id: nat): map<nat, Writer> {
    writers - {id}
  }

  function Take(owned: map<Channel, Owned>, list: seq<Channel>, writer: nat): map<Channel, Owned> {
    map ch | ch in owned :: if ch in list then owned[ch].(place := Taken(writer)) else owned[ch]
  }

  function Finish(owned: map<Channel, Owned>, ch: Channel): map<Channel, Owned> {
    if ch in owned then owned[ch := owned[ch].(place := Done)] else owned
  }

  // The reader's next state, for the steps that touch nothing shared.
  function Advance(s: System, r: Reader, a: Action): Reader {
    match a
    case List(_) =>
      if !r.phase.Subscribing? then r else
      var page := ListEvents(s.repo, r.owner, r.runID, r.after, PAGE);
      r.(phase := if page.Err? then Leaving(r.phase.ch, false) else Sending(r.phase.ch, page.value, |page.value| < PAGE))
    case Send(_, written) =>
      if !r.phase.Sending? || r.phase.rest == [] then r else
      if !written then r.(phase := Leaving(r.phase.ch, false))
      else r.(sent := r.sent + [r.phase.rest[0]], after := r.phase.rest[0].sequence, phase := r.phase.(rest := r.phase.rest[1..]))
    case CheckStatus(_) =>
      if !r.phase.Sending? then r else
      var run := GetRun(s.repo, r.owner, r.runID);
      r.(phase := if run.Err? || Terminal(run.value.status) then Leaving(r.phase.ch, false) else Parked(r.phase.ch, r.phase.short))
    case Wake(_) => r.(phase := Idle)
    case Beat(_, written) => if !r.phase.Parked? then r else r.(phase := Leaving(r.phase.ch, written))
    case Cancel(_) => if !r.phase.Parked? then r else r.(phase := Leaving(r.phase.ch, false))
    case _ => r
  }

  function Wrote(s: System, id: nat, w: Write): System {
    var (repo, appended) := Apply(s.repo, w);
    if appended then s.(repo := repo, writers := s.writers[id := Appended(RunIDOf(w))]) else s.(repo := repo)
  }

  function Took(s: System, id: nat): System
    requires id in s.writers && s.writers[id].Appended?
  {
    var run := s.writers[id].runID;
    var list := Waiting(s.waiters, run);
    s.(waiters := s.waiters - {run}, writers := s.writers[id := Closing(list)], owned := Take(s.owned, list, id))
  }

  function ClosedNext(s: System, id: nat): System
    requires id in s.writers && s.writers[id].Closing?
  {
    var list := s.writers[id].channels;
    if list == [] then s.(writers := Dropped(s.writers, id))
    else
      s.(closed := s.closed + {list[0]}, panicked := s.panicked || list[0] in s.closed,
         writers := s.writers[id := Closing(list[1..])], owned := Finish(s.owned, list[0]))
  }

  function Joined(s: System, id: nat): System
    requires id in s.readers
  {
    var r := s.readers[id];
    s.(waiters := Subscribed(s.waiters, r.runID, s.next), next := s.next + 1,
       readers := s.readers[id := r.(phase := Subscribing(s.next))],
       owned := s.owned[s.next := Owned(id, Waits(r.runID))])
  }

  function Left(s: System, id: nat): System
    requires id in s.readers && s.readers[id].phase.Leaving?
  {
    var r := s.readers[id];
    var ch := r.phase.ch;
    s.(waiters := Unsubscribed(s.waiters, r.runID, ch),
       readers := s.readers[id := r.(phase := if r.phase.again then Idle else Closed)],
       owned := if ch in Waiting(s.waiters, r.runID) then Finish(s.owned, ch) else s.owned)
  }

  function NewReader(runID: string, owner: Owner, after: nat): Reader {
    Reader(runID, owner, after, after, [], Idle)
  }

  function Opened(s: System, id: nat, client: nat, runID: string, owner: Owner, after: nat): System {
    if GetRun(s.repo, owner, runID).Err? then s
    else s.(readers := s.readers[id := NewReader(runID, owner, after)],
            clients := s.clients[client := Client(runID, owner, after, [], Some(Link(id, 0)))])
  }

  function Reconnected(s: System, id: nat, client: nat): System
    requires client in s.clients
  {
    var c := s.clients[client];
    if GetRun(s.repo, c.owner, c.runID).Err? then s
    else s.(readers := s.readers[id := NewReader(c.runID, c.owner, LastID(c))],
            clients := s.clients[client := c.(link := Some(Link(id, 0)))])
  }

  function Received(s: System, client: nat): System
    requires client in s.clients && s.clients[client].link.Some?
    requires var link := s.clients[client].link.value; link.reader in s.readers && link.taken < |s.readers[link.reader].sent|
  {
    var c := s.clients[client];
    var link := c.link.value;
    s.(clients := s.clients[client := c.(received := c.received + [s.readers[link.reader].sent[link.taken]],
                                         link := Some(link.(taken := link.taken + 1)))])
  }

  function Cut(s: System, client: nat): System
    requires client in s.clients
  {
    s.(clients := s.clients[client := s.clients[client].(link := None)])
  }

  function Step(s: System, a: Action): System {
    if !Enabled(s, a) then s
    else
      match a
      case NewSession(session) => s.(repo := CreateSession(s.repo, session))
      case Write(id, w) => Wrote(s, id, w)
      case TakeWaiters(id) => Took(s, id)
      case CloseNext(id) => ClosedNext(s, id)
      case Subscribe(id) => Joined(s, id)
      case Leave(id) => Left(s, id)
      case Open(id, client, runID, owner, after) => Opened(s, id, client, runID, owner, after)
      case Reconnect(id, client) => Reconnected(s, id, client)
      case Receive(client) => Received(s, client)
      case Disconnect(client) => Cut(s, client)
      case _ => s.(readers := s.readers[a.id := Advance(s, s.readers[a.id], a)])
  }

  function Exec(s: System, actions: seq<Action>): System
    decreases |actions|
  {
    if actions == [] then s
    else
      var last := |actions| - 1;
      Step(Exec(s, actions[..last]), actions[last])
  }

  // ---- The invariant ----

  // Delivered is a gapless stretch of the log, and so is what is left of the page.
  ghost predicate Stretch(log: seq<Event>, start: nat, events: seq<Event>) {
    events != [] ==> start + |events| <= |log| && events == log[start..start + |events|]
  }

  ghost predicate DeliveryInv(log: seq<Event>, r: Reader) {
    && r.after == r.start + |r.sent|
    && Stretch(log, r.start, r.sent)
    && (r.phase.Sending? ==> Stretch(log, r.after, r.phase.rest))
  }

  predicate HoldsChannel(p: Phase) {
    !p.Idle? && !p.Closed?
  }

  ghost predicate ChannelInv(closed: set<Channel>, owned: map<Channel, Owned>, id: nat, r: Reader) {
    HoldsChannel(r.phase) ==>
      && r.phase.ch in owned
      && owned[r.phase.ch].reader == id
      && (owned[r.phase.ch].place.Waits? ==> owned[r.phase.ch].place.runID == r.runID)
      && (owned[r.phase.ch].place.Done? ==> r.phase.ch in closed)
  }

  ghost predicate Pending(writers: map<nat, Writer>, runID: string) {
    exists w :: w in writers && writers[w] == Appended(runID)
  }

  // What the last short page left unread arrived after the subscription, and its
  // writer has not taken the waiters yet unless the channel has left them.
  ghost predicate WakeInv(length: nat, pending: bool, owned: map<Channel, Owned>, r: Reader) {
    var p := r.phase;
    ((p.Sending? || p.Parked?) && p.short && p.ch in owned && owned[p.ch].place.Waits?) ==>
      pending || length <= r.after + (if p.Sending? then |p.rest| else 0)
  }

  // The owner of the run's session is asking.
  ghost predicate AccessInv(repo: Repo, runID: string, owner: Owner) {
    runID in repo.runs && OwnsSession(repo, owner, repo.runs[runID].sessionID)
  }

  ghost predicate ReaderInv(repo: Repo, closed: set<Channel>, writers: map<nat, Writer>, owned: map<Channel, Owned>, id: nat, r: Reader) {
    && AccessInv(repo, r.runID, r.owner)
    && DeliveryInv(Log(repo, r.runID), r)
    && ChannelInv(closed, owned, id, r)
    && WakeInv(|Log(repo, r.runID)|, Pending(writers, r.runID), owned, r)
  }

  ghost predicate LinkInv(readers: map<nat, Reader>, c: Client, link: Link) {
    && link.reader in readers
    && var r := readers[link.reader];
       && r.runID == c.runID
       && link.taken <= |r.sent|
       && r.start + link.taken == c.start + |c.received|
  }

  ghost predicate ClientInv(repo: Repo, readers: map<nat, Reader>, c: Client) {
    && AccessInv(repo, c.runID, c.owner)
    && Stretch(Log(repo, c.runID), c.start, c.received)
    && (c.link.Some? ==> LinkInv(readers, c, c.link.value))
  }

  // The table of places agrees with the lists.
  ghost predicate PlacesInv(waiters: Waiters, next: Channel, closed: set<Channel>, writers: map<nat, Writer>, owned: map<Channel, Owned>) {
    && WaitingInv(waiters, next, owned)
    && (forall ch :: ch in closed ==> ch in owned && owned[ch].place.Done?)
    && (forall w :: w in writers && writers[w].Closing? ==> ClosingInv(owned, w, writers[w].channels))
    && (forall ch :: ch in owned && owned[ch].place.Taken? ==> TakenInv(writers, owned[ch].place.writer, ch))
  }

  ghost predicate WaitingInv(waiters: Waiters, next: Channel, owned: map<Channel, Owned>) {
    && (forall ch :: ch in owned ==> ch < next)
    && (forall run, ch :: ch in Waiting(waiters, run) ==> ch in owned && owned[ch].place == Waits(run))
    && (forall ch :: ch in owned && owned[ch].place.Waits? ==> ch in Waiting(waiters, owned[ch].place.runID))
    && (forall run :: Distinct(Waiting(waiters, run)))
  }

  ghost predicate ClosingInv(owned: map<Channel, Owned>, w: nat, list: seq<Channel>) {
    Distinct(list) && forall ch :: ch in list ==> ch in owned && owned[ch].place == Taken(w)
  }

  ghost predicate TakenInv(writers: map<nat, Writer>, w: nat, ch: Channel) {
    w in writers && writers[w].Closing? && ch in writers[w].channels
  }

  ghost predicate Inv(s: System) {
    && RepoInv(s.repo)
    && PlacesInv(s.waiters, s.next, s.closed, s.writers, s.owned)
    && !s.panicked
    && (forall id :: id in s.readers ==> ReaderInv(s.repo, s.closed, s.writers, s.owned, id, s.readers[id]))
    && (forall id :: id in s.clients ==> ClientInv(s.repo, s.readers, s.clients[id]))
  }
}
