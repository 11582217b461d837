// What each accepted write makes of the run log, told over statuses, logs and messages.
module ChatEffects {
  import opened Basics
  import opened ChatSpec

  // The run's log has grown by the event, next in order; no other log changed.
  ghost predicate Logged(s: Repo, t: Repo, e: Event) {
    && t.events.Keys == s.events.Keys + {e.runID}
    && Log(t, e.runID) == Log(s, e.runID) + [Event(e.runID, |Log(s, e.runID)| + 1, e.name, e.data, e.createdAt)]
    && forall id :: id in s.events && id != e.runID ==> t.events[id] == s.events[id]
  }

  // The session has one message more, next in order; no other session's changed.
  ghost predicate Said(s: Repo, t: Repo, sessionID: string, m: Message) {
    && Messages(t, sessionID) == Messages(s, sessionID)
         + [Message(m.id, sessionID, m.runID, |Messages(s, sessionID)| + 1, m.role, m.content, m.createdAt)]
    && forall other :: other != sessionID ==> Messages(t, other) == Messages(s, other)
  }

  ghost predicate OnlyRun(s: Repo, t: Repo, id: string, run: Run) {
    t.runs == s.runs[id := run]
  }

  predicate Unfinished(r: Run) {
    r.status.RunQueued? || r.status.RunRunning?
  }

  // A run is created exactly in a session of the caller's under a key not used in it
  // while no run of the session is unfinished: with its queued event as first of its
  // log, and with the user's message. The key used before answers with its run, and
  // nothing else changes anything.
  lemma CreatedExactly(r: Repo, owner: Owner, sessionID: string, key: string, run: Run, message: Message, queued: Event)
    requires RepoInv(r) && run.id !in r.runs && queued.runID == run.id
    ensures var (t, answer) := CreateRun(r, owner, sessionID, key, run, message, queued);
            var known := IdemKey(sessionID, key) in r.idem;
            var owned := sessionID in r.sessions && r.sessions[sessionID].owner == owner;
            && (answer.Ok? && answer.value.isNew <==>
                  owned && !known && forall id :: id in r.runs && r.runs[id].sessionID == sessionID ==> !Unfinished(r.runs[id]))
            && (if answer.Ok? && answer.value.isNew then
                  && answer.value.run == run && OnlyRun(r, t, run.id, run) && Logged(r, t, queued) && Said(r, t, sessionID, message)
                  && Log(r, run.id) == [] && t.idem == r.idem[IdemKey(sessionID, key) := run.id]
                  && t.sessions == r.sessions[sessionID := r.sessions[sessionID].(updatedAt := message.createdAt)]
                else t == r)
            && (owned && known ==> answer == Ok(Created(r.runs[r.idem[IdemKey(sessionID, key)]], false)))
            && (!owned ==> answer == Err(NotFound))
  {
    hide RunInv, OneActive, MessagesNumbered, IdemKey;
  }

  // Starting takes a queued run to running, with its event.
  lemma StartedExactly(r: Repo, id: string, e: Event)
    requires e.runID == id
    ensures var (t, refusal) := StartRun(r, id, e);
            && (refusal.None? <==> id in r.runs && r.runs[id].status.RunQueued?)
            && (if refusal.Some? then t == r
                else
                  && OnlyRun(r, t, id, r.runs[id].(status := RunRunning, startedAt := Some(e.createdAt))) && Logged(r, t, e)
                  && t.messages == r.messages && t.sessions == r.sessions && t.idem == r.idem)
  {
  }

  lemma AppendedExactly(r: Repo, e: Event)
    ensures var (t, refusal) := AppendEvent(r, e);
            && (refusal.None? <==> e.runID in r.runs)
            && (if refusal.Some? then t == r
                else Logged(r, t, e) && t.runs == r.runs && t.messages == r.messages && t.sessions == r.sessions && t.idem == r.idem)
  {
  }

  // Completing takes a running run to completed, with its event and the answer as the
  // session's next message.
  lemma CompletedExactly(r: Repo, id: string, assistant: Message, e: Event)
    requires e.runID == id
    ensures var (t, refusal) := CompleteRun(r, id, assistant, e);
            && (refusal.None? <==> id in r.runs && r.runs[id].status.RunRunning?)
            && (if refusal.Some? then t == r
                else
                  && OnlyRun(r, t, id, r.runs[id].(status := RunCompleted, completedAt := Some(e.createdAt))) && Logged(r, t, e)
                  && Said(r, t, r.runs[id].sessionID, assistant) && t.sessions == r.sessions && t.idem == r.idem)
  {
  }

  // Failing ends an unfinished run as the caller says, with its event.
  lemma FailedExactly(r: Repo, id: string, status: RunStatus, code: string, text: string, e: Event)
    requires e.runID == id
    ensures var (t, refusal) := FailRun(r, id, status, code, text, e);
            && (refusal.None? <==> id in r.runs && Unfinished(r.runs[id]))
            && (if refusal.Some? then t == r
                else
                  && OnlyRun(r, t, id, r.runs[id].(status := status, errorCode := code, errorMessage := text, completedAt := Some(e.createdAt)))
                  && Logged(r, t, e) && t.messages == r.messages && t.sessions == r.sessions && t.idem == r.idem)
  {
  }

  // Cancelling ends the owner's unfinished run as cancelled, with its event.
  lemma CancelledExactly(r: Repo, owner: Owner, id: string, e: Event)
    requires e.runID == id
    ensures var (t, refusal) := CancelRun(r, owner, id, e);
            && (refusal.None? <==>
                  && id in r.runs && r.runs[id].sessionID in r.sessions && r.sessions[r.runs[id].sessionID].owner == owner && Unfinished(r.runs[id]))
            && (if refusal.Some? then t == r
                else
                  && OnlyRun(r, t, id, r.runs[id].(status := RunCancelled, completedAt := Some(e.createdAt))) && Logged(r, t, e)
                  && t.messages == r.messages && t.sessions == r.sessions && t.idem == r.idem)
  {
  }

  // A page of a sound log is the stretch right behind the number, up to the limit, and
  // only the owner of the run's session gets one.
  lemma PageExactly(r: Repo, owner: Owner, id: string, after: nat, limit: int)
    requires RepoInv(r)
    ensures var page := ListEvents(r, owner, id, after, limit);
            var log := Log(r, id);
            var end := if limit <= 0 || after + limit > |log| then |log| else after + limit;
            && (page.Ok? <==> id in r.runs && r.runs[id].sessionID in r.sessions && r.sessions[r.runs[id].sessionID].owner == owner)
            && (page.Ok? ==> page.value == if after <= end then log[after..end] else [])
  {
    hide OneActive, MessagesNumbered, Newer;
    if id in r.runs {
      assert RunInv(r, id);
      NewerIsSuffix(Log(r, id), after);
    }
  }
}
