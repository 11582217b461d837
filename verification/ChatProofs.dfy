// Every step of the chat service keeps the invariant.
module ChatProofs {
  import opened Basics
  import opened ChatSpec
  import opened ChatNotifierSpec
  import opened ChatSystem
  import opened ChatLog

  // ---- The log ----

  lemma StepKeepsRepo(s: System, a: Action)
    requires RepoInv(s.repo)
    ensures var t := Step(s, a); RepoInv(t.repo) && Extends(s.repo, t.repo)
    ensures !(a.Write? && Enabled(s, a)) ==> SameLogs(s.repo, Step(s, a).repo)
  {
    hide RepoInv;
    ExtendsItself(s.repo);
    if a.Write? && Enabled(s, a) {
      ApplyKeeps(s.repo, a.write);
    } else if a.NewSession? && Enabled(s, a) {
      SessionKeeps(s.repo, a.session.id, a.session);
    } else {
      OnlyWritesChange(s, a);
    }
  }

  lemma OnlyWritesChange(s: System, a: Action)
    requires !(a.Write? && Enabled(s, a)) && !(a.NewSession? && Enabled(s, a))
    ensures Step(s, a).repo == s.repo
  {
  }

  // ---- Channels ----

  lemma TakeKeepsWaiting(waiters: Waiters, next: Channel, owned: map<Channel, Owned>, run: string, id: nat)
    requires WaitingInv(waiters, next, owned)
    ensures WaitingInv(waiters - {run}, next, ChatSystem.Take(owned, Waiting(waiters, run), id))
  {
    var t := waiters - {run};
    forall k
      ensures Waiting(t, k) == if k == run then [] else Waiting(waiters, k)
    {
    }
    hide Waiting;
  }

  lemma TakeKeepsPlaces(waiters: Waiters, next: Channel, closed: set<Channel>, writers: map<nat, Writer>, owned: map<Channel, Owned>, id: nat)
    requires PlacesInv(waiters, next, closed, writers, owned) && id in writers && writers[id].Appended?
    ensures var run := writers[id].runID;
            var list := Waiting(waiters, run);
            PlacesInv(waiters - {run}, next, closed, writers[id := Closing(list)], ChatSystem.Take(owned, list, id))
  {
    var run := writers[id].runID;
    var list := Waiting(waiters, run);
    TakeKeepsWaiting(waiters, next, owned, run, id);
    assert forall ch :: ch in list ==> ch in owned && owned[ch].place == Waits(run);
    assert Distinct(list);
    hide WaitingInv, Distinct;
    var t := ChatSystem.Take(owned, list, id);
    var u := writers[id := Closing(list)];
    forall ch | ch in t && t[ch].place.Taken?
      ensures TakenInv(u, t[ch].place.writer, ch)
    {
      if ch !in list {
        assert TakenInv(writers, owned[ch].place.writer, ch);
      }
    }
    forall w | w in u && u[w].Closing?
      ensures ClosingInv(t, w, u[w].channels)
    {
      if w != id {
        assert ClosingInv(owned, w, writers[w].channels);
      }
    }
  }

  lemma FinishKeepsWaiting(waiters: Waiters, next: Channel, owned: map<Channel, Owned>, ch: Channel)
    requires WaitingInv(waiters, next, owned) && ch in owned && !owned[ch].place.Waits?
    ensures WaitingInv(waiters, next, Finish(owned, ch))
  {
  }

  lemma CloseKeepsPlaces(waiters: Waiters, next: Channel, closed: set<Channel>, writers: map<nat, Writer>, owned: map<Channel, Owned>, id: nat)
    requires PlacesInv(waiters, next, closed, writers, owned) && id in writers && writers[id].Closing? && writers[id].channels != []
    ensures var list := writers[id].channels;
            && PlacesInv(waiters, next, closed + {list[0]}, writers[id := Closing(list[1..])], Finish(owned, list[0]))
            && list[0] !in closed && list[0] in owned
  {
    hide WaitingInv;
    var list := writers[id].channels;
    var ch := list[0];
    assert ClosingInv(owned, id, list);
    assert ch in list && forall c :: c in list[1..] <==> c in list && c != ch;
    FinishKeepsWaiting(waiters, next, owned, ch);
    var t, u := Finish(owned, ch), writers[id := Closing(list[1..])];
    forall c | c in t && t[c].place.Taken?
      ensures TakenInv(u, t[c].place.writer, c)
    {
      assert TakenInv(writers, owned[c].place.writer, c);
    }
    forall w | w in u && u[w].Closing?
      ensures ClosingInv(t, w, u[w].channels)
    {
      assert ClosingInv(owned, w, writers[w].channels);
    }
  }

  // A writer that appears, or leaves with nothing to close, changes no place.
  lemma WriterKeepsPlaces(waiters: Waiters, next: Channel, closed: set<Channel>, writers: map<nat, Writer>, owned: map<Channel, Owned>,
                          id: nat, run: string)
    requires PlacesInv(waiters, next, closed, writers, owned)
    requires id in writers ==> writers[id] == Closing([])
    ensures PlacesInv(waiters, next, closed, Dropped(writers, id), owned)
    ensures PlacesInv(waiters, next, closed, writers[id := Appended(run)], owned)
  {
  }

  lemma SubscribeKeepsWaiting(waiters: Waiters, next: Channel, owned: map<Channel, Owned>, run: string, id: nat)
    requires WaitingInv(waiters, next, owned)
    ensures WaitingInv(Subscribed(waiters, run, next), next + 1, owned[next := Owned(id, Waits(run))])
  {
    var t := Subscribed(waiters, run, next);
    assert next !in owned;
    forall k
      ensures Distinct(Waiting(t, k))
      ensures forall c :: c in Waiting(t, k) <==> c in Waiting(waiters, k) || (c == next && k == run)
    {
      SubscribedWaiting(waiters, run, next, k);
      assert Distinct(Waiting(waiters, k)) && next !in Waiting(waiters, k);
    }
  }

  // Places given to a channel that is neither closed nor being closed leave the rest alone.
  lemma OtherPlaces(closed: set<Channel>, writers: map<nat, Writer>, owned: map<Channel, Owned>, ch: Channel, o: Owned)
    requires ch in owned ==> owned[ch].place.Waits?
    requires !o.place.Taken?
    requires forall c :: c in closed ==> c in owned && owned[c].place.Done?
    requires forall w :: w in writers && writers[w].Closing? ==> ClosingInv(owned, w, writers[w].channels)
    requires forall c :: c in owned && owned[c].place.Taken? ==> TakenInv(writers, owned[c].place.writer, c)
    ensures var t := owned[ch := o];
            && (forall c :: c in closed ==> c in t && t[c].place.Done?)
            && (forall w :: w in writers && writers[w].Closing? ==> ClosingInv(t, w, writers[w].channels))
            && (forall c :: c in t && t[c].place.Taken? ==> TakenInv(writers, t[c].place.writer, c))
  {
  }

  lemma SubscribeKeepsPlaces(waiters: Waiters, next: Channel, closed: set<Channel>, writers: map<nat, Writer>, owned: map<Channel, Owned>,
                             id: nat, run: string)
    requires PlacesInv(waiters, next, closed, writers, owned)
    ensures PlacesInv(Subscribed(waiters, run, next), next + 1, closed, writers, owned[next := Owned(id, Waits(run))])
    ensures next !in owned
  {
    SubscribeKeepsWaiting(waiters, next, owned, run, id);
    assert next !in owned;
    hide WaitingInv;
    OtherPlaces(closed, writers, owned, next, Owned(id, Waits(run)));
  }

  lemma LeaveKeepsWaiting(waiters: Waiters, next: Channel, owned: map<Channel, Owned>, run: string, ch: Channel)
    requires WaitingInv(waiters, next, owned) && ch in Waiting(waiters, run)
    ensures WaitingInv(Unsubscribed(waiters, run, ch), next, Finish(owned, ch))
    ensures ch in owned && owned[ch].place.Waits?
  {
    hide Unsubscribed, Without, Waiting;
    var t := Unsubscribed(waiters, run, ch);
    assert Distinct(Waiting(waiters, run));
    assert owned[ch].place == Waits(run);
    forall k
      ensures Distinct(Waiting(t, k))
      ensures forall c :: c in Waiting(t, k) <==> c in Waiting(waiters, k) && c != ch
    {
      assert Distinct(Waiting(waiters, k));
      UnsubscribedWaiting(waiters, run, ch, k);
    }
  }

  lemma LeaveKeepsPlaces(waiters: Waiters, next: Channel, closed: set<Channel>, writers: map<nat, Writer>, owned: map<Channel, Owned>,
                         run: string, ch: Channel)
    requires PlacesInv(waiters, next, closed, writers, owned)
    ensures PlacesInv(Unsubscribed(waiters, run, ch), next, closed, writers, if ch in Waiting(waiters, run) then Finish(owned, ch) else owned)
  {
    hide WaitingInv, Without;
    if ch in Waiting(waiters, run) {
      LeaveKeepsWaiting(waiters, next, owned, run, ch);
      hide Unsubscribed, Waiting;
      OtherPlaces(closed, writers, owned, ch, owned[ch].(place := Done));
    } else {
      assert Unsubscribed(waiters, run, ch) == waiters;
    }
  }

  predicate Rings(a: Action) {
    a.Write? || a.TakeWaiters? || a.CloseNext? || a.Subscribe? || a.Leave?
  }

  lemma OthersLeavePlaces(s: System, a: Action)
    requires !Rings(a) || !Enabled(s, a)
    ensures var t := Step(s, a);
            && t.waiters == s.waiters && t.next == s.next && t.closed == s.closed
            && t.panicked == s.panicked && t.writers == s.writers && t.owned == s.owned
  {
  }

  lemma StepKeepsPlaces(s: System, a: Action)
    requires PlacesInv(s.waiters, s.next, s.closed, s.writers, s.owned) && !s.panicked
    ensures var t := Step(s, a); PlacesInv(t.waiters, t.next, t.closed, t.writers, t.owned) && !t.panicked
  {
    hide PlacesInv, Apply, Shaped, Subscribed, Unsubscribed, ChatSystem.Take, Finish, Waiting, Dropped, Advance;
    if !Rings(a) || !Enabled(s, a) {
      OthersLeavePlaces(s, a);
    } else {
      match a
      case Write(id, w) => WriterKeepsPlaces(s.waiters, s.next, s.closed, s.writers, s.owned, id, RunIDOf(w));
      case TakeWaiters(id) => TakeKeepsPlaces(s.waiters, s.next, s.closed, s.writers, s.owned, id);
      case CloseNext(id) =>
        if s.writers[id].channels == [] {
          WriterKeepsPlaces(s.waiters, s.next, s.closed, s.writers, s.owned, id, "");
        } else {
          CloseKeepsPlaces(s.waiters, s.next, s.closed, s.writers, s.owned, id);
        }
      case Subscribe(id) => SubscribeKeepsPlaces(s.waiters, s.next, s.closed, s.writers, s.owned, id, s.readers[id].runID);
      case Leave(id) => LeaveKeepsPlaces(s.waiters, s.next, s.closed, s.writers, s.owned, s.readers[id].runID, s.readers[id].phase.ch);
    }
  }

  // ---- Readers ----

  lemma LogGrowthKeepsDelivery(log: seq<Event>, longer: seq<Event>, r: Reader)
    requires log <= longer && DeliveryInv(log, r)
    ensures DeliveryInv(longer, r)
  {
  }

  lemma WriteKeepsReader(repo: Repo, longer: Repo, closed: set<Channel>, writers: map<nat, Writer>, owned: map<Channel, Owned>,
                         rid: nat, r: Reader, id: nat, run: string)
    requires ReaderInv(repo, closed, writers, owned, rid, r)
    requires Extends(repo, longer) && SameLogsBut(repo, longer, run) && id !in writers
    ensures ReaderInv(longer, closed, writers[id := Appended(run)], owned, rid, r)
  {
    var t := writers[id := Appended(run)];
    assert Log(repo, r.runID) <= Log(longer, r.runID);
    LogGrowthKeepsDelivery(Log(repo, r.runID), Log(longer, r.runID), r);
    assert t[id] == Appended(run);
    if Pending(writers, r.runID) {
      var w :| w in writers && writers[w] == Appended(r.runID);
      assert t[w] == Appended(r.runID);
    }
  }

  // Once a channel has left its list, the reader need not be told of new events.
  lemma TakeKeepsReader(repo: Repo, closed: set<Channel>, writers: map<nat, Writer>, owned: map<Channel, Owned>,
                        rid: nat, r: Reader, id: nat, list: seq<Channel>)
    requires ReaderInv(repo, closed, writers, owned, rid, r) && id in writers && writers[id].Appended?
    requires forall ch :: ch in owned && owned[ch].place == Waits(writers[id].runID) ==> ch in list
    ensures ReaderInv(repo, closed, writers[id := Closing(list)], ChatSystem.Take(owned, list, id), rid, r)
  {
    var t := writers[id := Closing(list)];
    if Pending(writers, r.runID) && writers[id].runID != r.runID {
      var w :| w in writers && writers[w] == Appended(r.runID);
      assert t[w] == Appended(r.runID);
    }
  }

  lemma CloseKeepsReader(repo: Repo, closed: set<Channel>, writers: map<nat, Writer>, owned: map<Channel, Owned>,
                         rid: nat, r: Reader, id: nat, list: seq<Channel>, ch: Channel)
    requires ReaderInv(repo, closed, writers, owned, rid, r) && id in writers && writers[id].Closing?
    ensures ReaderInv(repo, closed + {ch}, writers[id := Closing(list)], Finish(owned, ch), rid, r)
    ensures ReaderInv(repo, closed, Dropped(writers, id), owned, rid, r)
  {
    if Pending(writers, r.runID) {
      var w :| w in writers && writers[w] == Appended(r.runID);
      assert writers[id := Closing(list)][w] == Appended(r.runID) && Dropped(writers, id)[w] == Appended(r.runID);
    }
  }

  // A place given to another reader's channel, or to a new one.
  lemma OtherChannelKeepsReader(repo: Repo, closed: set<Channel>, writers: map<nat, Writer>, owned: map<Channel, Owned>,
                                rid: nat, r: Reader, ch: Channel, o: Owned)
    requires ReaderInv(repo, closed, writers, owned, rid, r)
    requires ch in owned ==> owned[ch].reader != rid
    ensures ReaderInv(repo, closed, writers, owned[ch := o], rid, r)
  {
  }

  // ---- A reader's own steps ----

  lemma ListKeepsReader(s: System, id: nat)
    requires Enabled(s, List(id)) && RepoInv(s.repo)
    requires ReaderInv(s.repo, s.closed, s.writers, s.owned, id, s.readers[id])
    ensures ReaderInv(s.repo, s.closed, s.writers, s.owned, id, Advance(s, s.readers[id], List(id)))
  {
    hide RepoInv, RunInv, Newer;
    var r := s.readers[id];
    var log := Log(s.repo, r.runID);
    LogOf(s.repo, r.runID, r.owner);
    NewerIsSuffix(log, r.after);
    var page := ChatSpec.Take(Newer(log, r.after), PAGE);
    assert Stretch(log, r.after, page);
  }

  lemma SendKeepsReader(s: System, id: nat, written: bool)
    requires Enabled(s, Send(id, written)) && RepoInv(s.repo)
    requires ReaderInv(s.repo, s.closed, s.writers, s.owned, id, s.readers[id])
    ensures ReaderInv(s.repo, s.closed, s.writers, s.owned, id, Advance(s, s.readers[id], Send(id, written)))
  {
    hide RepoInv, RunInv, DeliveryInv, Pending, AccessInv;
    var r := s.readers[id];
    LogOf(s.repo, r.runID, r.owner);
    var log := Log(s.repo, r.runID);
    if written {
      SendKeepsDelivery(log, r);
    } else {
      StopKeepsDelivery(log, r);
    }
  }

  lemma LogOf(repo: Repo, runID: string, owner: Owner)
    requires RepoInv(repo) && AccessInv(repo, runID, owner)
    ensures Numbered(Log(repo, runID))
  {
    assert RunInv(repo, runID);
  }

  lemma StopKeepsDelivery(log: seq<Event>, r: Reader)
    requires DeliveryInv(log, r) && r.phase.Sending?
    ensures DeliveryInv(log, r.(phase := Leaving(r.phase.ch, false)))
  {
  }

  lemma SendKeepsDelivery(log: seq<Event>, r: Reader)
    requires Numbered(log) && DeliveryInv(log, r) && r.phase.Sending? && r.phase.rest != []
    ensures r.phase.rest[0].sequence == r.after + 1
    ensures DeliveryInv(log, r.(sent := r.sent + [r.phase.rest[0]], after := r.phase.rest[0].sequence, phase := r.phase.(rest := r.phase.rest[1..])))
  {
    var rest := r.phase.rest;
    assert rest[0] == log[r.after];
    assert log[r.start..r.after + 1] == log[r.start..r.after] + [log[r.after]];
    assert log[r.after + 1..r.after + |rest|] == log[r.after..r.after + |rest|][1..];
  }

  predicate Advances(a: Action) {
    a.List? || a.Send? || a.CheckStatus? || a.Wake? || a.Beat? || a.Cancel?
  }

  lemma AdvanceKeepsReader(s: System, a: Action)
    requires Advances(a) && Enabled(s, a) && RepoInv(s.repo)
    requires ReaderInv(s.repo, s.closed, s.writers, s.owned, a.id, s.readers[a.id])
    ensures ReaderInv(s.repo, s.closed, s.writers, s.owned, a.id, Advance(s, s.readers[a.id], a))
  {
    hide RepoInv;
    match a
    case List(id) => ListKeepsReader(s, id);
    case Send(id, written) => SendKeepsReader(s, id, written);
    case _ =>
  }

  // ---- Every reader at every step ----

  ghost predicate ReadersInv(s: System) {
    forall id :: id in s.readers ==> ReaderInv(s.repo, s.closed, s.writers, s.owned, id, s.readers[id])
  }

  lemma WroteKeepsReaders(s: System, w: nat, write: Write)
    requires RepoInv(s.repo) && ReadersInv(s) && w !in s.writers && Shaped(s.repo, write)
    ensures ReadersInv(Wrote(s, w, write))
  {
    hide RepoInv, Shaped, Apply, ReaderInv, Extends, SameLogsBut;
    var t := Wrote(s, w, write);
    ApplyKeeps(s.repo, write);
    if Apply(s.repo, write).1 {
      forall id | id in t.readers
        ensures ReaderInv(t.repo, t.closed, t.writers, t.owned, id, t.readers[id])
      {
        WriteKeepsReader(s.repo, t.repo, s.closed, s.writers, s.owned, id, s.readers[id], w, RunIDOf(write));
      }
    }
  }

  lemma TookKeepsReaders(s: System, w: nat)
    requires WaitingInv(s.waiters, s.next, s.owned) && ReadersInv(s) && w in s.writers && s.writers[w].Appended?
    ensures ReadersInv(Took(s, w))
  {
    var t := Took(s, w);
    var list := Waiting(s.waiters, s.writers[w].runID);
    assert forall ch :: ch in s.owned && s.owned[ch].place == Waits(s.writers[w].runID) ==> ch in list;
    hide WaitingInv, ReaderInv, ChatSystem.Take, Waiting;
    forall id | id in t.readers
      ensures ReaderInv(t.repo, t.closed, t.writers, t.owned, id, t.readers[id])
    {
      TakeKeepsReader(s.repo, s.closed, s.writers, s.owned, id, s.readers[id], w, list);
    }
  }

  lemma ClosedKeepsReaders(s: System, w: nat)
    requires ReadersInv(s) && w in s.writers && s.writers[w].Closing?
    ensures ReadersInv(ClosedNext(s, w))
  {
    hide ReaderInv, Finish, Dropped;
    var t := ClosedNext(s, w);
    var list := s.writers[w].channels;
    forall id | id in t.readers
      ensures ReaderInv(t.repo, t.closed, t.writers, t.owned, id, t.readers[id])
    {
      CloseKeepsReader(s.repo, s.closed, s.writers, s.owned, id, s.readers[id], w, if list == [] then [] else list[1..], if list == [] then 0 else list[0]);
    }
  }

  lemma JoinedKeepsReaders(s: System, id: nat)
    requires ReadersInv(s) && s.next !in s.owned && id in s.readers && s.readers[id].phase.Idle?
    ensures ReadersInv(Joined(s, id))
  {
    hide Log, Subscribed;
    var t := Joined(s, id);
    forall k | k in t.readers
      ensures ReaderInv(t.repo, t.closed, t.writers, t.owned, k, t.readers[k])
    {
      OtherChannelKeepsReader(s.repo, s.closed, s.writers, s.owned, k, s.readers[k], s.next, Owned(id, Waits(s.readers[id].runID)));
    }
  }

  lemma LeftKeepsReaders(s: System, id: nat)
    requires ReadersInv(s) && id in s.readers && s.readers[id].phase.Leaving?
    ensures ReadersInv(Left(s, id))
  {
  }

  lemma OpenedKeepsReaders(s: System, id: nat, client: nat, runID: string, owner: Owner, after: nat)
    requires ReadersInv(s) && id !in s.readers
    ensures ReadersInv(Opened(s, id, client, runID, owner, after))
  {
  }

  lemma ReconnectedKeepsReaders(s: System, id: nat, client: nat)
    requires ReadersInv(s) && id !in s.readers && client in s.clients
    ensures ReadersInv(Reconnected(s, id, client))
  {
  }

  lemma SessionKeepsReaders(s: System, session: Session)
    requires RepoInv(s.repo) && ReadersInv(s) && session.id !in s.repo.sessions
    ensures ReadersInv(s.(repo := CreateSession(s.repo, session)))
  {
  }

  lemma AdvancedKeepsReaders(s: System, a: Action)
    requires RepoInv(s.repo) && ReadersInv(s) && Advances(a) && Enabled(s, a)
    ensures ReadersInv(s.(readers := s.readers[a.id := Advance(s, s.readers[a.id], a)]))
  {
    hide RepoInv, ReaderInv, Advance;
    AdvanceKeepsReader(s, a);
  }

  lemma QuietStepKeepsReaders(s: System, a: Action)
    requires RepoInv(s.repo) && ReadersInv(s) && !Rings(a) && Enabled(s, a)
    ensures ReadersInv(Step(s, a))
  {
    hide RepoInv, ReaderInv, Advance, Opened, Reconnected, CreateSession;
    if Advances(a) {
      AdvancedKeepsReaders(s, a);
    } else {
      match a
      case NewSession(session) => SessionKeepsReaders(s, session);
      case Open(id, client, runID, owner, after) => OpenedKeepsReaders(s, id, client, runID, owner, after);
      case Reconnect(id, client) => ReconnectedKeepsReaders(s, id, client);
      case _ =>
    }
  }

  lemma InvParts(s: System)
    requires Inv(s)
    ensures RepoInv(s.repo) && ReadersInv(s)
    ensures WaitingInv(s.waiters, s.next, s.owned) && s.next !in s.owned
    ensures PlacesInv(s.waiters, s.next, s.closed, s.writers, s.owned) && !s.panicked
  {
  }

  lemma StepKeepsReaders(s: System, a: Action)
    requires Inv(s)
    ensures ReadersInv(Step(s, a))
  {
    hide RepoInv, PlacesInv, WaitingInv, ReadersInv, Inv, Wrote, Took, ClosedNext, Joined, Left, Shaped, Opened, Reconnected, Received, Cut, Advance;
    InvParts(s);
    if Enabled(s, a) {
      match a
      case Write(id, w) => WroteKeepsReaders(s, id, w);
      case TakeWaiters(id) => TookKeepsReaders(s, id);
      case CloseNext(id) => ClosedKeepsReaders(s, id);
      case Subscribe(id) => JoinedKeepsReaders(s, id);
      case Leave(id) => LeftKeepsReaders(s, id);
      case _ => QuietStepKeepsReaders(s, a);
    }
  }

  // ---- Clients ----

  // Readers stay what they are and send more.
  ghost predicate Grows(readers: map<nat, Reader>, more: map<nat, Reader>) {
    forall id :: id in readers ==>
      && id in more
      && more[id].runID == readers[id].runID
      && more[id].start == readers[id].start
      && readers[id].sent <= more[id].sent
  }

  predicate Continues(readers: map<nat, Reader>, id: nat, r: Reader) {
    id in readers ==>
      && r.runID == readers[id].runID
      && r.start == readers[id].start
      && readers[id].sent <= r.sent
  }

  lemma AdvanceContinues(s: System, a: Action)
    requires Advances(a) && a.id in s.readers
    ensures Continues(s.readers, a.id, Advance(s, s.readers[a.id], a))
  {
  }

  lemma OneGrows(readers: map<nat, Reader>, id: nat, r: Reader)
    requires Continues(readers, id, r)
    ensures Grows(readers, readers[id := r])
  {
  }

  lemma StepGrows(s: System, a: Action)
    ensures Grows(s.readers, Step(s, a).readers)
  {
    assert Grows(s.readers, s.readers);
    hide Grows, Apply, Shaped, GetRun, Subscribed, Unsubscribed, ChatSystem.Take, Finish, Advance, LastID;
    if Enabled(s, a) {
      if Advances(a) {
        AdvanceContinues(s, a);
        OneGrows(s.readers, a.id, Advance(s, s.readers[a.id], a));
      } else {
        var t := Step(s, a);
        match a
        case Subscribe(id) => OneGrows(s.readers, id, t.readers[id]);
        case Leave(id) => OneGrows(s.readers, id, t.readers[id]);
        case Open(id, _, runID, owner, after) => OneGrows(s.readers, id, NewReader(runID, owner, after));
        case Reconnect(id, c) => OneGrows(s.readers, id, NewReader(s.clients[c].runID, s.clients[c].owner, LastID(s.clients[c])));
        case _ =>
      }
    }
  }

  lemma GrowthKeepsClient(repo: Repo, longer: Repo, readers: map<nat, Reader>, more: map<nat, Reader>, c: Client)
    requires ClientInv(repo, readers, c) && Extends(repo, longer) && Grows(readers, more)
    ensures ClientInv(longer, more, c)
  {
  }

  // The next event to arrive is the next one of the log.
  lemma NextArrives(log: seq<Event>, start: nat, received: seq<Event>, from: nat, sent: seq<Event>, taken: nat)
    requires Stretch(log, start, received) && Stretch(log, from, sent)
    requires from + taken == start + |received| && taken < |sent|
    ensures Stretch(log, start, received + [sent[taken]])
  {
  }

  lemma ReceivedKeepsClient(s: System, client: nat)
    requires Enabled(s, Receive(client)) && ReadersInv(s) && ClientInv(s.repo, s.readers, s.clients[client])
    ensures ClientInv(s.repo, s.readers, Received(s, client).clients[client])
  {
    var c := s.clients[client];
    var r := s.readers[c.link.value.reader];
    assert DeliveryInv(Log(s.repo, c.runID), r);
    hide ReadersInv, Log, Stretch;
    NextArrives(Log(s.repo, c.runID), c.start, c.received, r.start, r.sent, c.link.value.taken);
  }

  // Resuming after the last number received resumes where receiving stopped.
  lemma LastIDIsPosition(repo: Repo, readers: map<nat, Reader>, c: Client)
    requires RepoInv(repo) && ClientInv(repo, readers, c)
    ensures LastID(c) == c.start + |c.received|
  {
  }

  lemma OpenedClient(repo: Repo, readers: map<nat, Reader>, id: nat, runID: string, owner: Owner, after: nat)
    requires GetRun(repo, owner, runID).Ok?
    ensures ClientInv(repo, readers[id := NewReader(runID, owner, after)], Client(runID, owner, after, [], Some(Link(id, 0))))
  {
  }

  lemma ReconnectedClient(repo: Repo, readers: map<nat, Reader>, id: nat, c: Client)
    requires RepoInv(repo) && ClientInv(repo, readers, c)
    ensures ClientInv(repo, readers[id := NewReader(c.runID, c.owner, LastID(c))], c.(link := Some(Link(id, 0))))
  {
  }

  lemma CutKeepsClient(repo: Repo, readers: map<nat, Reader>, c: Client)
    requires ClientInv(repo, readers, c)
    ensures ClientInv(repo, readers, c.(link := None))
  {
  }

  predicate Connects(a: Action) {
    a.Open? || a.Reconnect? || a.Receive? || a.Disconnect?
  }

  lemma ClientStep(s: System, a: Action)
    requires RepoInv(s.repo) && ReadersInv(s) && Enabled(s, a) && Connects(a)
    requires a.client in s.clients ==> ClientInv(s.repo, s.readers, s.clients[a.client])
    ensures var t := Step(s, a); a.client in t.clients ==> ClientInv(s.repo, t.readers, t.clients[a.client])
  {
    hide RepoInv, ReadersInv, ClientInv, LastID, NewReader, InPhase, Advance, Wrote, Took, ClosedNext, Joined, Left;
    match a
    case Open(reader, client, runID, owner, after) =>
      hide Reconnected, Received, Cut;
      if GetRun(s.repo, owner, runID).Ok? {
        OpenedClient(s.repo, s.readers, reader, runID, owner, after);
      }
    case Reconnect(reader, client) =>
      hide Opened, Received, Cut;
      ReconnectedClient(s.repo, s.readers, reader, s.clients[client]);
    case Disconnect(client) =>
      hide Opened, Received, Reconnected;
      CutKeepsClient(s.repo, s.readers, s.clients[client]);
    case Receive(client) =>
      hide Opened, Cut, Reconnected;
      ReceivedKeepsClient(s, client);
  }

  lemma StepKeepsOtherClients(s: System, a: Action, id: nat)
    requires id in Step(s, a).clients
    ensures || (id in s.clients && Step(s, a).clients[id] == s.clients[id])
            || (Enabled(s, a) && Connects(a) && id == a.client && Step(s, a).repo == s.repo)
  {
    hide Step, Enabled;
    if Connects(a) {
      ConnectsOne(s, a, id);
    } else {
      ConnectsNone(s, a);
    }
  }

  lemma ConnectsOne(s: System, a: Action, id: nat)
    requires Connects(a) && id in Step(s, a).clients
    ensures || (id in s.clients && Step(s, a).clients[id] == s.clients[id])
            || (Enabled(s, a) && id == a.client && Step(s, a).repo == s.repo)
  {
    hide GetRun, Took, Joined, Left, ClosedNext, Wrote, Advance, NewReader, LastID;
  }

  lemma ConnectsNone(s: System, a: Action)
    requires !Connects(a)
    ensures Step(s, a).clients == s.clients
  {
    hide Advance, Apply, Shaped, GetRun, Subscribed, Unsubscribed, ChatSystem.Take, Finish, Opened, Reconnected, Received, Cut;
  }

  lemma StepKeepsClients(s: System, a: Action, id: nat)
    requires Inv(s) && id in Step(s, a).clients
    ensures ClientInv(Step(s, a).repo, Step(s, a).readers, Step(s, a).clients[id])
  {
    StepKeepsRepo(s, a);
    StepGrows(s, a);
    StepKeepsOtherClients(s, a, id);
    assert ReadersInv(s);
    assert id in s.clients ==> ClientInv(s.repo, s.readers, s.clients[id]);
    hide Inv, RepoInv, ReadersInv, ClientInv, Extends, Grows, Step, Enabled;
    var t := Step(s, a);
    if id in s.clients && t.clients[id] == s.clients[id] {
      GrowthKeepsClient(s.repo, t.repo, s.readers, t.readers, s.clients[id]);
    } else {
      ClientStep(s, a);
    }
  }

  // ---- The invariant ----

  lemma StepKeepsInv(s: System, a: Action)
    requires Inv(s)
    ensures Inv(Step(s, a))
  {
    hide Step, RepoInv, PlacesInv, ReaderInv, ClientInv;
    var t := Step(s, a);
    assert RepoInv(s.repo) && PlacesInv(s.waiters, s.next, s.closed, s.writers, s.owned) && !s.panicked;
    StepKeepsRepo(s, a);
    StepKeepsPlaces(s, a);
    StepKeepsReaders(s, a);
    forall id | id in t.clients
      ensures ClientInv(t.repo, t.readers, t.clients[id])
    {
      StepKeepsClients(s, a, id);
    }
  }

  lemma {:induction false} Reachable(r: Repo, actions: seq<Action>)
    requires RepoInv(r)
    ensures Inv(Exec(Init(r), actions))
    decreases |actions|
  {
    if actions != [] {
      var last := |actions| - 1;
      Reachable(r, actions[..last]);
      StepKeepsInv(Exec(Init(r), actions[..last]), actions[last]);
    }
  }
}
