// The run log as an object: each method is one atomic step.
module ChatRepository {
  import opened Basics
  import opened ChatSpec
  import opened ChatLog
  import Spec = ChatSpec

  class MemoryRepository {
    var sessions: map<string, Session>
    var messages: map<string, seq<Message>>
    var runs: map<string, Run>
    var events: map<string, seq<Event>>
    var idem: map<string, string>

    function Contents(): (r: Repo)
      reads this
    {
      Repo(sessions, messages, runs, events, idem)
    }

    constructor ()
      ensures Contents() == EMPTY_REPO
    {
      sessions, messages, runs, events, idem := map[], map[], map[], map[], map[];
    }

    method CreateSession(session: Session)
      modifies this
      ensures Contents() == Spec.CreateSession(old(Contents()), session)
    {
      sessions := sessions[session.id := session];
    }

    // Whether some run of the session has not ended; runs are met in no particular order.
    method FindActive(sessionID: string) returns (found: bool)
      ensures found == HasActive(Contents(), sessionID)
    {
      var keys := runs.Keys;
      while keys != {}
        invariant keys <= runs.Keys
        invariant forall id :: id in runs && runs[id].sessionID == sessionID && !Terminal(runs[id].status) ==> id in keys
      {
        var id :| id in keys;
        if runs[id].sessionID == sessionID && !Terminal(runs[id].status) {
          return true;
        }
        keys := keys - {id};
      }
      return false;
    }

    method AppendLocked(event: Event)
      modifies `events
      ensures Contents() == Append(old(Contents()), event)
    {
      var log := if event.runID in events then events[event.runID] else [];
      events := events[event.runID := log + [event.(sequence := |log| + 1)]];
    }

    method SayLocked(message: Message)
      modifies `messages
      ensures Contents() == Say(old(Contents()), message)
    {
      var said := if message.sessionID in messages then messages[message.sessionID] else [];
      messages := messages[message.sessionID := said + [message.(sequence := |said| + 1)]];
    }

    method CreateRun(owner: Owner, sessionID: string, key: string, run: Run, message: Message, queued: Event) returns (r: Result<Created>)
      modifies this
      ensures (Contents(), r) == Spec.CreateRun(old(Contents()), owner, sessionID, key, run, message, queued)
    {
      if sessionID !in sessions || sessions[sessionID].owner != owner {
        return Err(NotFound);
      }
      var idemKey := IdemKey(sessionID, key);
      if idemKey in idem {
        return Ok(Created(if idem[idemKey] in runs then runs[idem[idemKey]] else NO_RUN, false));
      }
      var active := FindActive(sessionID);
      if active {
        return Err(ActiveRun);
      }
      SayLocked(message.(sessionID := sessionID));
      sessions := sessions[sessionID := sessions[sessionID].(updatedAt := message.createdAt)];
      runs := runs[run.id := run];
      idem := idem[idemKey := run.id];
      var log := if run.id in events then events[run.id] else [];
      events := events[run.id := log + [queued.(sequence := 1)]];
      return Ok(Created(run, true));
    }

    method GetRun(owner: Owner, id: string) returns (r: Result<Run>)
      ensures r == Spec.GetRun(Contents(), owner, id)
    {
      if id !in runs {
        return Err(NotFound);
      }
      var run := runs[id];
      if run.sessionID !in sessions || sessions[run.sessionID].owner != owner {
        return Err(NotFound);
      }
      return Ok(run);
    }

    method StartRun(id: string, event: Event) returns (error: Option<ChatError>)
      modifies this
      ensures (Contents(), error) == Spec.StartRun(old(Contents()), id, event)
    {
      if id !in runs {
        return Some(NotFound);
      }
      if runs[id].status != RunQueued {
        return Some(InvalidState);
      }
      runs := runs[id := runs[id].(status := RunRunning, startedAt := Some(event.createdAt))];
      AppendLocked(event);
      return None;
    }

    method AppendEvent(event: Event) returns (error: Option<ChatError>)
      modifies this
      ensures (Contents(), error) == Spec.AppendEvent(old(Contents()), event)
    {
      if event.runID !in runs {
        return Some(NotFound);
      }
      AppendLocked(event);
      return None;
    }

    method CompleteRun(id: string, assistant: Message, event: Event) returns (error: Option<ChatError>)
      modifies this
      ensures (Contents(), error) == Spec.CompleteRun(old(Contents()), id, assistant, event)
    {
      if id !in runs {
        return Some(NotFound);
      }
      if runs[id].status != RunRunning {
        return Some(InvalidState);
      }
      SayLocked(assistant.(sessionID := runs[id].sessionID));
      runs := runs[id := runs[id].(status := RunCompleted, completedAt := Some(event.createdAt))];
      AppendLocked(event);
      return None;
    }

    method FailRun(id: string, status: RunStatus, code: string, text: string, event: Event) returns (error: Option<ChatError>)
      modifies this
      ensures (Contents(), error) == Spec.FailRun(old(Contents()), id, status, code, text, event)
    {
      if id !in runs {
        return Some(NotFound);
      }
      if Terminal(runs[id].status) {
        return Some(InvalidState);
      }
      runs := runs[id := runs[id].(status := status, errorCode := code, errorMessage := text, completedAt := Some(event.createdAt))];
      AppendLocked(event);
      return None;
    }

    method CancelRun(owner: Owner, id: string, event: Event) returns (error: Option<ChatError>)
      modifies this
      ensures (Contents(), error) == Spec.CancelRun(old(Contents()), owner, id, event)
    {
      var run := GetRun(owner, id);
      if run.Err? {
        return Some(NotFound);
      }
      if Terminal(run.value.status) {
        return Some(InvalidState);
      }
      runs := runs[id := run.value.(status := RunCancelled, completedAt := Some(event.createdAt))];
      AppendLocked(event);
      return None;
    }

    // The clock is read once for each run.
    method InterruptRunning(clock: string -> Time)
      requires RepoInv(Contents())
      modifies this
      ensures RepoInv(Contents()) && runs.Keys == old(runs.Keys)
      ensures forall id :: id in old(runs) ==> InterruptedRun(old(Contents()), Contents(), id, clock(id))
      ensures sessions == old(sessions) && messages == old(messages) && idem == old(idem)
    {
      hide RepoInv, InterruptedRun, Untouched;
      ghost var before := Contents();
      var keys := runs.Keys;
      UntouchedItself(before);
      while keys != {}
        invariant keys <= before.runs.Keys == runs.Keys && RepoInv(Contents())
        invariant forall id :: id in before.runs ==>
                    if id in keys then Untouched(before, Contents(), id) else InterruptedRun(before, Contents(), id, clock(id))
        invariant sessions == before.sessions && messages == before.messages && idem == before.idem
      {
        ghost var s := Contents();
        var id :| id in keys;
        SameStatus(before, s, id);
        if runs[id].status == RunRunning || runs[id].status == RunQueued {
          var now := clock(id);
          InterruptKeeps(s, id, now);
          runs := runs[id := runs[id].(status := RunInterrupted, completedAt := Some(now))];
          AppendLocked(InterruptedEvent(id, now));
          assert Contents() == Interrupt(s, id, now);
          Onward(before, s, Contents(), keys, id, clock);
        } else {
          EndedIsDone(before, s, id, clock(id));
        }
        keys := keys - {id};
      }
    }

    // The scan stops as soon as the page is full.
    method ListEvents(owner: Owner, id: string, after: nat, limit: int) returns (r: Result<seq<Event>>)
      ensures r == Spec.ListEvents(Contents(), owner, id, after, limit)
    {
      var run := GetRun(owner, id);
      if run.Err? {
        return Err(NotFound);
      }
      var log := if id in events then events[id] else [];
      var page: seq<Event> := [];
      for i := 0 to |log|
        invariant page == Newer(log[..i], after) && (limit > 0 ==> |page| < limit)
      {
        assert log[..i + 1][..i] == log[..i];
        if log[i].sequence > after {
          page := page + [log[i]];
          if |page| == limit {
            NewerGrows(log, after, i + 1);
            assert page == Newer(log[..i + 1], after);
            assert page == Take(Newer(log, after), limit);
            return Ok(page);
          }
        }
      }
      assert log[..|log|] == log;
      return Ok(page);
    }
  }

  lemma {:induction false} NewerGrows(log: seq<Event>, after: nat, i: nat)
    requires i <= |log|
    ensures Newer(log[..i], after) <= Newer(log, after)
    decreases |log|
  {
    if i < |log| {
      assert log[..|log| - 1][..i] == log[..i];
      NewerGrows(log[..|log| - 1], after, i);
    } else {
      assert log[..i] == log;
    }
  }

  lemma UntouchedItself(r: Repo)
    ensures forall id :: id in r.runs ==> Untouched(r, r, id)
  {
  }

  lemma SameStatus(before: Repo, s: Repo, id: string)
    requires id in before.runs && Untouched(before, s, id)
    ensures id in s.runs && s.runs[id].status == before.runs[id].status
  {
  }

  lemma EndedIsDone(before: Repo, s: Repo, id: string, now: Time)
    requires id in before.runs && Untouched(before, s, id) && Terminal(s.runs[id].status)
    ensures InterruptedRun(before, s, id, now)
  {
  }

  lemma Onward(before: Repo, s: Repo, t: Repo, keys: set<string>, id: string, clock: string -> Time)
    requires s.runs.Keys == before.runs.Keys && id in keys && keys <= before.runs.Keys
    requires forall k :: k in before.runs ==> if k in keys then Untouched(before, s, k) else InterruptedRun(before, s, k, clock(k))
    requires !Terminal(s.runs[id].status) && InterruptedRun(s, t, id, clock(id))
    requires forall k :: k in s.runs && k != id ==> Untouched(s, t, k)
    ensures forall k :: k in before.runs ==> if k in keys - {id} then Untouched(before, t, k) else InterruptedRun(before, t, k, clock(k))
  {
  }
}
