// Every operation of the run log keeps its logs numbered and append-only.
module ChatLog {
  import opened Basics
  import opened ChatSpec
  import opened ChatSystem

  // Runs stay with their sessions, sessions with their owners, and logs only grow.
  ghost predicate Extends(r: Repo, t: Repo) {
    && (forall id :: id in r.runs ==> id in t.runs && t.runs[id].sessionID == r.runs[id].sessionID && Log(r, id) <= Log(t, id))
    && (forall owner, id :: OwnsSession(r, owner, id) ==> OwnsSession(t, owner, id))
  }

  ghost predicate SameLogs(r: Repo, t: Repo) {
    forall id :: Log(t, id) == Log(r, id)
  }

  ghost predicate SameLogsBut(r: Repo, t: Repo, runID: string) {
    forall id :: id != runID ==> Log(t, id) == Log(r, id)
  }

  lemma LogGrows(log: seq<Event>, e: Event, id: string)
    requires LogInv(log, id) && e.runID == id
    ensures LogInv(log + [e.(sequence := |log| + 1)], id)
  {
  }

  lemma AppendAside(r: Repo, e: Event)
    ensures OneActive(r) ==> OneActive(Append(r, e))
    ensures MessagesNumbered(r) ==> MessagesNumbered(Append(r, e))
  {
  }

  lemma AppendKeeps(r: Repo, e: Event)
    requires RepoInv(r) && e.runID in r.runs
    ensures RepoInv(Append(r, e)) && Extends(r, Append(r, e)) && SameLogsBut(r, Append(r, e), e.runID)
  {
    hide OneActive, MessagesNumbered, LogInv;
    AppendAside(r, e);
    var t := Append(r, e);
    assert RunInv(r, e.runID);
    LogGrows(r.events[e.runID], e, e.runID);
    forall id | id in t.runs
      ensures RunInv(t, id)
    {
      assert RunInv(r, id);
    }
  }

  lemma SetRunOneActive(r: Repo, id: string, run: Run)
    requires OneActive(r) && id in r.runs && run.sessionID == r.runs[id].sessionID
    requires Terminal(r.runs[id].status) ==> Terminal(run.status)
    ensures OneActive(SetRun(r, id, run)) && (MessagesNumbered(r) ==> MessagesNumbered(SetRun(r, id, run)))
  {
  }

  lemma SetRunKeeps(r: Repo, id: string, run: Run)
    requires RepoInv(r) && id in r.runs && run.id == id && run.sessionID == r.runs[id].sessionID
    requires Terminal(r.runs[id].status) ==> Terminal(run.status)
    ensures RepoInv(SetRun(r, id, run)) && Extends(r, SetRun(r, id, run)) && SameLogs(r, SetRun(r, id, run))
  {
    hide OneActive, MessagesNumbered, LogInv;
    var t := SetRun(r, id, run);
    SetRunOneActive(r, id, run);
    forall k | k in t.runs
      ensures RunInv(t, k)
    {
      assert RunInv(r, k);
    }
  }

  lemma SayKeeps(r: Repo, m: Message)
    requires RepoInv(r)
    ensures RepoInv(Say(r, m)) && Extends(r, Say(r, m)) && SameLogs(r, Say(r, m))
  {
  }

  lemma SessionKeeps(r: Repo, id: string, session: Session)
    requires RepoInv(r)
    requires id in r.sessions ==> r.sessions[id].owner == session.owner
    ensures RepoInv(SetSession(r, id, session)) && Extends(r, SetSession(r, id, session)) && SameLogs(r, SetSession(r, id, session))
  {
  }

  lemma BeginOneActive(r: Repo, run: Run, idemKey: string, queued: Event)
    requires OneActive(r) && !HasActive(r, run.sessionID) && run.id !in r.runs
    ensures OneActive(Begin(r, run, idemKey, queued))
  {
  }

  lemma BeginNumbered(r: Repo, run: Run, idemKey: string, queued: Event)
    requires MessagesNumbered(r) && queued.runID == run.id
    ensures MessagesNumbered(Begin(r, run, idemKey, queued)) && LogInv([] + [queued.(sequence := 1)], run.id)
  {
  }

  lemma BeginKeeps(r: Repo, run: Run, idemKey: string, queued: Event)
    requires RepoInv(r) && run.id !in r.runs && run.sessionID in r.sessions && queued.runID == run.id
    requires !HasActive(r, run.sessionID)
    ensures RepoInv(Begin(r, run, idemKey, queued))
    ensures Extends(r, Begin(r, run, idemKey, queued)) && SameLogsBut(r, Begin(r, run, idemKey, queued), run.id)
  {
    hide OneActive, HasActive, MessagesNumbered, LogInv;
    BeginOneActive(r, run, idemKey, queued);
    var t := Begin(r, run, idemKey, queued);
    BeginNumbered(r, run, idemKey, queued);
    assert Log(r, run.id) == [];
    forall k | k in t.runs
      ensures RunInv(t, k)
    {
      if k in r.runs {
        assert RunInv(r, k);
      }
    }
  }

  lemma CreateRunKeeps(r: Repo, owner: Owner, sessionID: string, key: string, run: Run, message: Message, queued: Event)
    requires RepoInv(r) && run.id !in r.runs && run.sessionID == sessionID && queued.runID == run.id
    ensures var (t, created) := CreateRun(r, owner, sessionID, key, run, message, queued);
            && RepoInv(t) && Extends(r, t)
            && (if created.Ok? && created.value.isNew then SameLogsBut(r, t, run.id) else t == r)
  {
    hide RepoInv, RunInv;
    var (t, created) := CreateRun(r, owner, sessionID, key, run, message, queued);
    if created.Ok? && created.value.isNew {
      assert !HasActive(r, sessionID);
      var said := Say(r, message.(sessionID := sessionID));
      SayKeeps(r, message.(sessionID := sessionID));
      var session := r.sessions[sessionID].(updatedAt := message.createdAt);
      SessionKeeps(said, sessionID, session);
      var touched := SetSession(said, sessionID, session);
      assert touched.runs == r.runs;
      BeginKeeps(touched, run, IdemKey(sessionID, key), queued);
    }
  }

  // Moving a run on and appending the event that says so.
  lemma MoveKeeps(r: Repo, id: string, run: Run, e: Event)
    requires RepoInv(r) && id in r.runs && run.id == id && run.sessionID == r.runs[id].sessionID && e.runID == id
    requires Terminal(r.runs[id].status) ==> Terminal(run.status)
    ensures RepoInv(Append(SetRun(r, id, run), e)) && Extends(r, Append(SetRun(r, id, run), e))
    ensures SameLogsBut(r, Append(SetRun(r, id, run), e), id)
  {
    SetRunKeeps(r, id, run);
    AppendKeeps(SetRun(r, id, run), e);
  }

  lemma RunsKnow(r: Repo, id: string)
    requires RepoInv(r) && id in r.runs
    ensures r.runs[id].id == id
  {
  }

  // What a write leaves: a log longer by one event, or nothing changed.
  lemma ApplyKeeps(r: Repo, w: Write)
    requires RepoInv(r) && Shaped(r, w)
    ensures var (t, appended) := Apply(r, w);
            && RepoInv(t) && Extends(r, t)
            && (if appended then SameLogsBut(r, t, RunIDOf(w)) else t == r)
  {
    hide RepoInv, Extends, SameLogsBut, Append, Say;
    ExtendsItself(r);
    if Apply(r, w).1 {
      if !w.Creating? {
        RunsKnow(r, w.e.runID);
      }
      match w
      case Creating(owner, sessionID, key, run, message, queued) =>
        CreateRunKeeps(r, owner, sessionID, key, run, message, queued);
      case Starting(e) =>
        MoveKeeps(r, e.runID, r.runs[e.runID].(status := RunRunning, startedAt := Some(e.createdAt)), e);
      case Appending(e) =>
        AppendKeeps(r, e);
      case Completing(assistant, e) =>
        var run := r.runs[e.runID];
        CompleteKeeps(r, assistant.(sessionID := run.sessionID), e, run.(status := RunCompleted, completedAt := Some(e.createdAt)));
      case Failing(status, code, text, e) =>
        MoveKeeps(r, e.runID, r.runs[e.runID].(status := status, errorCode := code, errorMessage := text,
                                                completedAt := Some(e.createdAt)), e);
      case Cancelling(owner, e) =>
        MoveKeeps(r, e.runID, r.runs[e.runID].(status := RunCancelled, completedAt := Some(e.createdAt)), e);
    } else {
      RefusedUnchanged(r, w);
    }
  }

  lemma ExtendsItself(r: Repo)
    ensures Extends(r, r)
  {
  }

  lemma RefusedUnchanged(r: Repo, w: Write)
    requires !Apply(r, w).1
    ensures Apply(r, w).0 == r
  {
  }

  lemma CompleteKeeps(r: Repo, m: Message, e: Event, run: Run)
    requires RepoInv(r) && e.runID in r.runs && run.id == e.runID && run.sessionID == r.runs[e.runID].sessionID
    requires Terminal(run.status)
    ensures var t := Append(SetRun(Say(r, m), e.runID, run), e); RepoInv(t) && Extends(r, t) && SameLogsBut(r, t, e.runID)
  {
    SayKeeps(r, m);
    var said := Say(r, m);
    assert said.runs == r.runs;
    hide RepoInv, Append, Say;
    MoveKeeps(said, e.runID, run, e);
  }

  // What start-up has done to each run it has visited: ended runs are untouched,
  // others are interrupted and say so once.
  ghost predicate InterruptedRun(before: Repo, after: Repo, id: string, now: Time)
    requires id in before.runs
  {
    id in after.runs &&
    if Terminal(before.runs[id].status) then after.runs[id] == before.runs[id] && Log(after, id) == Log(before, id)
    else
      && after.runs[id] == before.runs[id].(status := RunInterrupted, completedAt := Some(now))
      && Log(after, id) == Log(before, id) + [InterruptedEvent(id, now).(sequence := |Log(before, id)| + 1)]
  }

  ghost predicate Untouched(before: Repo, after: Repo, id: string)
    requires id in before.runs
  {
    id in after.runs && after.runs[id] == before.runs[id] && Log(after, id) == Log(before, id)
  }

  lemma InterruptKeeps(r: Repo, id: string, now: Time)
    requires RepoInv(r) && id in r.runs && !Terminal(r.runs[id].status)
    ensures RepoInv(Interrupt(r, id, now)) && InterruptedRun(r, Interrupt(r, id, now), id, now)
    ensures forall k :: k in r.runs && k != id ==> Untouched(r, Interrupt(r, id, now), k)
    ensures Interrupt(r, id, now).runs.Keys == r.runs.Keys
  {
    hide RepoInv, Extends, SameLogsBut;
    RunsKnow(r, id);
    MoveKeeps(r, id, r.runs[id].(status := RunInterrupted, completedAt := Some(now)), InterruptedEvent(id, now));
  }
}
