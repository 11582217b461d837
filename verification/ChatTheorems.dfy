// What clients, streams and runs can rely on in every reachable state. A service starts
// from any sound log, such as the one interrupting a previous process's runs leaves.
module ChatTheorems {
  import opened Basics
  import opened ChatSpec
  import opened ChatNotifierSpec
  import opened ChatSystem
  import opened ChatLog
  import opened ChatProofs
  import ChatEffects

  // Across any number of disconnects and reconnects at the last number received, what
  // a client has received is the stretch of the run's log right behind where it first
  // asked: no event missing, none twice, in order.
  lemma NoGapNoDuplicate(r: Repo, actions: seq<Action>, client: nat, k: nat)
    requires RepoInv(r)
    requires client in Exec(Init(r), actions).clients && k < |Exec(Init(r), actions).clients[client].received|
    ensures var s := Exec(Init(r), actions);
            var c := s.clients[client];
            var log := Log(s.repo, c.runID);
            && c.start + k < |log|
            && c.received[k] == log[c.start + k]
            && c.received[k].sequence == c.start + k + 1
            && c.received[k].runID == c.runID
  {
    hide Exec, PlacesInv, ReaderInv, OneActive, MessagesNumbered;
    Reachable(r, actions);
    var s := Exec(Init(r), actions);
    ReceivedAt(s.repo, s.readers, s.clients[client], k);
  }

  lemma ReceivedAt(repo: Repo, readers: map<nat, Reader>, c: Client, k: nat)
    requires RepoInv(repo) && ClientInv(repo, readers, c) && k < |c.received|
    ensures var log := Log(repo, c.runID);
            && c.start + k < |log|
            && c.received[k] == log[c.start + k]
            && c.received[k].sequence == c.start + k + 1
            && c.received[k].runID == c.runID
  {
    hide OneActive, MessagesNumbered, LinkInv;
    assert RunInv(repo, c.runID);
    var log := Log(repo, c.runID);
    assert log[c.start..c.start + |c.received|][k] == log[c.start + k];
  }

  // Only the owner of the run's session receives anything.
  lemma OnlyOwnersReceive(r: Repo, actions: seq<Action>, client: nat)
    requires RepoInv(r) && client in Exec(Init(r), actions).clients
    ensures var s := Exec(Init(r), actions); GetRun(s.repo, s.clients[client].owner, s.clients[client].runID).Ok?
  {
    hide Exec, RepoInv, PlacesInv, ReaderInv, DeliveryInv, LinkInv;
    Reachable(r, actions);
    var s := Exec(Init(r), actions);
    assert ClientInv(s.repo, s.readers, s.clients[client]);
  }

  // A stream parked after a short page while its run has an event it has not sent will
  // be woken: its channel is closed, or a writer stands between append and notify, or
  // a writer has taken the channel and is about to close it.
  lemma NoLostWakeup(r: Repo, actions: seq<Action>, id: nat)
    requires RepoInv(r)
    requires var s := Exec(Init(r), actions);
             && id in s.readers && s.readers[id].phase.Parked? && s.readers[id].phase.short
             && |Log(s.repo, s.readers[id].runID)| > s.readers[id].after
    ensures var s := Exec(Init(r), actions);
            var ch := s.readers[id].phase.ch;
            || ch in s.closed
            || Pending(s.writers, s.readers[id].runID)
            || exists w :: TakenInv(s.writers, w, ch)
  {
    hide Exec, RepoInv, ClientInv, DeliveryInv, WaitingInv, ClosingInv;
    Reachable(r, actions);
    var s := Exec(Init(r), actions);
    var reader := s.readers[id];
    var ch := reader.phase.ch;
    assert ReaderInv(s.repo, s.closed, s.writers, s.owned, id, reader);
    assert ch in s.owned;
    if s.owned[ch].place.Taken? {
      assert TakenInv(s.writers, s.owned[ch].place.writer, ch);
    }
  }

  // ---- One round of a stream ----

  // What a stream that has sent up to a number will read next: at most a page.
  function NextPage(r: Repo, runID: string, after: nat): seq<Event> {
    var log := Log(r, runID);
    var end := if after + PAGE > |log| then |log| else after + PAGE;
    if after <= end then log[after..end] else []
  }

  // The stream has read that page and sent the first k events of it; nothing else moved.
  ghost predicate Midway(s: System, id: nat, k: nat, t: System) {
    && id in s.readers && id in t.readers
    && t.repo == s.repo && t.closed == s.closed && t.writers == s.writers && t.clients == s.clients && t.panicked == s.panicked
    && t.readers.Keys == s.readers.Keys && (forall other :: other in s.readers && other != id ==> t.readers[other] == s.readers[other])
    && var reader := s.readers[id];
       var page := NextPage(s.repo, reader.runID, reader.after);
       && k <= |page|
       && t.readers[id] == reader.(sent := reader.sent + page[..k], after := reader.after + k, phase := Sending(s.next, page[k..], |page| < PAGE))
  }

  // The sends of a whole page.
  function Sends(id: nat, n: nat): seq<Action> {
    if n == 0 then [] else Sends(id, n - 1) + [Send(id, true)]
  }

  // When nobody interferes and every write succeeds, one round of a stream sends exactly
  // the next page of its run's log, and then leaves if the run has ended and parks
  // otherwise, remembering whether the page was full.
  lemma RoundDelivers(s: System, id: nat)
    requires RepoInv(s.repo) && id in s.readers && s.readers[id].phase.Idle? && AccessInv(s.repo, s.readers[id].runID, s.readers[id].owner)
    ensures var reader := s.readers[id];
            var page := NextPage(s.repo, reader.runID, reader.after);
            var t := Exec(s, [ChatSystem.Subscribe(id), List(id)] + Sends(id, |page|) + [CheckStatus(id)]);
            && t.repo == s.repo && t.closed == s.closed && t.writers == s.writers && t.clients == s.clients && id in t.readers
            && (forall other :: other in s.readers && other != id ==> other in t.readers && t.readers[other] == s.readers[other])
            && t.readers[id] == reader.(
                 sent := reader.sent + page, after := reader.after + |page|,
                 phase := if Terminal(s.repo.runs[reader.runID].status) then Leaving(s.next, false) else Parked(s.next, |page| < PAGE))
  {
    hide Exec, Step, RepoInv, NextPage;
    var page := NextPage(s.repo, s.readers[id].runID, s.readers[id].after);
    var first := [ChatSystem.Subscribe(id), List(id)];
    Listed(s, id);
    SendsDeliver(s, id, first, |page|);
    Checked(s, id, first + Sends(id, |page|));
  }

  lemma ExecOneMore(s: System, actions: seq<Action>, a: Action)
    ensures Exec(s, actions + [a]) == Step(Exec(s, actions), a)
  {
    hide Step;
    assert (actions + [a])[..|actions|] == actions;
  }

  lemma ExecTwo(s: System, a: Action, b: Action)
    ensures Exec(s, [a, b]) == Step(Step(s, a), b)
  {
    hide Step;
    assert [a, b][..1] == [a] && [a][..0] == [];
    assert Exec(s, [a]) == Step(Exec(s, []), a);
  }

  lemma Listed(s: System, id: nat)
    requires RepoInv(s.repo) && id in s.readers && s.readers[id].phase.Idle? && AccessInv(s.repo, s.readers[id].runID, s.readers[id].owner)
    ensures Midway(s, id, 0, Exec(s, [ChatSystem.Subscribe(id), List(id)]))
  {
    hide Exec, Step, RepoInv, ListEvents, NextPage, AccessInv;
    ExecTwo(s, ChatSystem.Subscribe(id), List(id));
    JoinedStep(s, id);
    ListedStep(s, id, Step(s, ChatSystem.Subscribe(id)));
  }

  // Subscribed under a new channel, nothing else moved.
  ghost predicate Joining(s: System, id: nat, t: System) {
    && id in s.readers && id in t.readers
    && t.repo == s.repo && t.closed == s.closed && t.writers == s.writers && t.clients == s.clients && t.panicked == s.panicked
    && t.readers == s.readers[id := s.readers[id].(phase := Subscribing(s.next))]
  }

  lemma JoinedStep(s: System, id: nat)
    requires id in s.readers && s.readers[id].phase.Idle?
    ensures Joining(s, id, Step(s, ChatSystem.Subscribe(id)))
  {
    hide Subscribed;
  }

  lemma ListedStep(s: System, id: nat, t: System)
    requires RepoInv(s.repo) && Joining(s, id, t) && AccessInv(s.repo, s.readers[id].runID, s.readers[id].owner)
    ensures Midway(s, id, 0, Step(t, List(id)))
  {
    hide RepoInv, ListEvents, NextPage, AccessInv;
    var reader := s.readers[id];
    PageIsNext(s.repo, reader.runID, reader.owner, reader.after);
    var page := NextPage(s.repo, reader.runID, reader.after);
    assert reader.sent + page[..0] == reader.sent && page[0..] == page;
  }

  lemma PageIsNext(r: Repo, runID: string, owner: Owner, after: nat)
    requires RepoInv(r) && AccessInv(r, runID, owner)
    ensures ListEvents(r, owner, runID, after, PAGE) == Ok(NextPage(r, runID, after))
  {
    hide RepoInv, ListEvents;
    ChatEffects.PageExactly(r, owner, runID, after, PAGE);
  }

  lemma {:induction false} SendsDeliver(s: System, id: nat, first: seq<Action>, n: nat)
    requires RepoInv(s.repo) && id in s.readers && AccessInv(s.repo, s.readers[id].runID, s.readers[id].owner)
    requires n <= |NextPage(s.repo, s.readers[id].runID, s.readers[id].after)| && Midway(s, id, 0, Exec(s, first))
    ensures Midway(s, id, n, Exec(s, first + Sends(id, n)))
  {
    hide Exec, Step, RepoInv, Midway, NextPage;
    if n == 0 {
      assert first + Sends(id, 0) == first;
    } else {
      SendsDeliver(s, id, first, n - 1);
      assert first + Sends(id, n) == first + Sends(id, n - 1) + [Send(id, true)];
      ExecOneMore(s, first + Sends(id, n - 1), Send(id, true));
      SendDelivers(s, id, n - 1, Exec(s, first + Sends(id, n - 1)));
    }
  }

  lemma SendDelivers(s: System, id: nat, k: nat, t: System)
    requires RepoInv(s.repo) && id in s.readers && AccessInv(s.repo, s.readers[id].runID, s.readers[id].owner)
    requires k < |NextPage(s.repo, s.readers[id].runID, s.readers[id].after)| && Midway(s, id, k, t)
    ensures Midway(s, id, k + 1, Step(t, Send(id, true)))
  {
    hide RepoInv, NextPage, AccessInv;
    var reader := s.readers[id];
    var page := NextPage(s.repo, reader.runID, reader.after);
    NextNumbers(s.repo, reader.runID, reader.owner, reader.after, k);
    assert page[k..][0] == page[k] && page[k..][1..] == page[k + 1..];
    assert reader.sent + page[..k] + [page[k]] == reader.sent + page[..k + 1];
  }

  lemma NextNumbers(r: Repo, runID: string, owner: Owner, after: nat, k: nat)
    requires RepoInv(r) && AccessInv(r, runID, owner) && k < |NextPage(r, runID, after)|
    ensures NextPage(r, runID, after)[k].sequence == after + k + 1
  {
    hide OneActive, MessagesNumbered;
    assert RunInv(r, runID);
  }

  lemma Checked(s: System, id: nat, actions: seq<Action>)
    requires id in s.readers && AccessInv(s.repo, s.readers[id].runID, s.readers[id].owner)
    requires Midway(s, id, |NextPage(s.repo, s.readers[id].runID, s.readers[id].after)|, Exec(s, actions))
    ensures var reader := s.readers[id];
            var page := NextPage(s.repo, reader.runID, reader.after);
            var t := Exec(s, actions + [CheckStatus(id)]);
            && t.repo == s.repo && t.closed == s.closed && t.writers == s.writers && t.clients == s.clients && id in t.readers
            && (forall other :: other in s.readers && other != id ==> other in t.readers && t.readers[other] == s.readers[other])
            && t.readers[id] == reader.(
                 sent := reader.sent + page, after := reader.after + |page|,
                 phase := if Terminal(s.repo.runs[reader.runID].status) then Leaving(s.next, false) else Parked(s.next, |page| < PAGE))
  {
    hide Exec, NextPage;
    ExecOneMore(s, actions, CheckStatus(id));
    var page := NextPage(s.repo, s.readers[id].runID, s.readers[id].after);
    assert page[..|page|] == page;
  }

  // A parked stream goes round again behind what it has sent: at once when its channel
  // is closed, and after a heartbeat that was written; it closes for good when the
  // heartbeat fails or the client goes away.
  lemma ParkedGoesOn(s: System, id: nat, written: bool)
    requires id in s.readers && s.readers[id].phase.Parked?
    ensures var idle, over := s.readers[id].(phase := Idle), s.readers[id].(phase := Closed);
            && (s.readers[id].phase.ch in s.closed ==> Step(s, Wake(id)).readers == s.readers[id := idle])
            && (s.readers[id].phase.ch !in s.closed ==> Step(s, Wake(id)) == s)
            && Exec(s, [Beat(id, written), Leave(id)]).readers == s.readers[id := if written then idle else over]
            && Exec(s, [ChatSystem.Cancel(id), Leave(id)]).readers == s.readers[id := over]
  {
    hide Exec, Step;
    ExecTwo(s, Beat(id, written), Leave(id));
    ExecTwo(s, ChatSystem.Cancel(id), Leave(id));
    ParkedStep(s, id, written);
    LeftStep(Step(s, Beat(id, written)), id);
    LeftStep(Step(s, ChatSystem.Cancel(id)), id);
  }

  lemma ParkedStep(s: System, id: nat, written: bool)
    requires id in s.readers && s.readers[id].phase.Parked?
    ensures var ch := s.readers[id].phase.ch;
            && (ch in s.closed ==> Step(s, Wake(id)).readers == s.readers[id := s.readers[id].(phase := Idle)])
            && (ch !in s.closed ==> Step(s, Wake(id)) == s)
            && Step(s, Beat(id, written)).readers == s.readers[id := s.readers[id].(phase := Leaving(ch, written))]
            && Step(s, ChatSystem.Cancel(id)).readers == s.readers[id := s.readers[id].(phase := Leaving(ch, false))]
  {
    hide GetRun, ListEvents;
  }

  lemma LeftStep(s: System, id: nat)
    requires id in s.readers && s.readers[id].phase.Leaving?
    ensures Step(s, Leave(id)).readers == s.readers[id := s.readers[id].(phase := if s.readers[id].phase.again then Idle else Closed)]
  {
    hide Unsubscribed, Finish;
  }

  // After a full page a wake-up need not be due: any unfinished run with more than a
  // page of events has a stream that parks with unread events and nobody about to wake it.
  lemma FullPageMayPark(r: Repo, runID: string, owner: Owner) returns (actions: seq<Action>)
    requires RepoInv(r) && GetRun(r, owner, runID).Ok? && !Terminal(r.runs[runID].status) && |Log(r, runID)| > PAGE
    ensures var s := Exec(Init(r), actions);
            && 0 in s.readers && s.readers[0].runID == runID && s.readers[0].owner == owner
            && s.readers[0].phase.Parked? && !s.readers[0].phase.short
            && |Log(s.repo, runID)| > s.readers[0].after
            && s.readers[0].phase.ch !in s.closed
            && !Pending(s.writers, runID)
            && !exists w :: TakenInv(s.writers, w, s.readers[0].phase.ch)
  {
    hide Exec, Step, RepoInv;
    var opening := [Open(0, 0, runID, owner, 0)];
    var round := [ChatSystem.Subscribe(0), List(0)] + Sends(0, PAGE) + [CheckStatus(0)];
    actions := opening + round;
    OpenedIdle(r, runID, owner);
    RoundDelivers(Exec(Init(r), opening), 0);
    ExecAppend(Init(r), opening, round);
  }

  lemma OpenedIdle(r: Repo, runID: string, owner: Owner)
    requires GetRun(r, owner, runID).Ok?
    ensures var s := Exec(Init(r), [Open(0, 0, runID, owner, 0)]);
            && s.repo == r && s.closed == {} && s.writers == map[] && 0 in s.readers && s.readers[0] == NewReader(runID, owner, 0)
            && AccessInv(r, runID, owner)
  {
    hide Exec;
    Nothing(Init(r));
    ExecOneMore(Init(r), [], Open(0, 0, runID, owner, 0));
    assert [] + [Open(0, 0, runID, owner, 0)] == [Open(0, 0, runID, owner, 0)];
  }

  lemma Nothing(s: System)
    ensures Exec(s, []) == s
  {
  }

  lemma {:induction false} ExecAppend(s: System, first: seq<Action>, more: seq<Action>)
    ensures Exec(s, first + more) == Exec(Exec(s, first), more)
    decreases |more|
  {
    hide Step;
    if more == [] {
      assert first + more == first;
    } else {
      var last := |more| - 1;
      ExecAppend(s, first, more[..last]);
      assert (first + more)[..|first| + last] == first + more[..last];
    }
  }

  // No channel is closed twice, whatever the writers do.
  lemma NeverPanics(r: Repo, actions: seq<Action>)
    requires RepoInv(r)
    ensures !Exec(Init(r), actions).panicked
  {
    hide Exec, RepoInv, PlacesInv, ReaderInv, ClientInv;
    Reachable(r, actions);
  }

  // A session has at most one run that has not ended.
  lemma OneActiveRun(r: Repo, actions: seq<Action>, a: string, b: string)
    requires RepoInv(r)
    requires var t := Exec(Init(r), actions).repo; a in t.runs && b in t.runs && t.runs[a].sessionID == t.runs[b].sessionID
    requires var t := Exec(Init(r), actions).repo; !Terminal(t.runs[a].status) && !Terminal(t.runs[b].status)
    ensures a == b
  {
    hide Exec, PlacesInv, ReaderInv, ClientInv, RunInv, MessagesNumbered;
    Reachable(r, actions);
  }

  // ---- Terminal runs ----

  lemma ApplyKeepsTerminal(r: Repo, w: Write, id: string)
    requires Shaped(r, w) && id in r.runs && Terminal(r.runs[id].status)
    ensures id in Apply(r, w).0.runs && Apply(r, w).0.runs[id] == r.runs[id]
  {
  }

  lemma StepKeepsTerminal(s: System, a: Action, id: string)
    requires id in s.repo.runs && Terminal(s.repo.runs[id].status)
    ensures id in Step(s, a).repo.runs && Step(s, a).repo.runs[id] == s.repo.runs[id]
  {
    hide Apply, Shaped, GetRun, Subscribed, Unsubscribed, ChatSystem.Take, Finish, Advance;
    if a.Write? && Enabled(s, a) {
      ApplyKeepsTerminal(s.repo, a.write, id);
    } else if a.NewSession? {
    } else {
      OnlyWritesChange(s, a);
    }
  }

  // A run that has ended stays exactly as it ended.
  lemma {:induction false} TerminalIsFinal(s: System, actions: seq<Action>, id: string)
    requires id in s.repo.runs && Terminal(s.repo.runs[id].status)
    ensures var t := Exec(s, actions).repo; id in t.runs && t.runs[id] == s.repo.runs[id]
    decreases |actions|
  {
    if actions != [] {
      TerminalIsFinal(s, actions[..|actions| - 1], id);
      StepKeepsTerminal(Exec(s, actions[..|actions| - 1]), actions[|actions| - 1], id);
    }
  }
}
