// What a human's decision comes to: the review node and the commit node together, over
// the stored records, whoever else used the store in between.
module CaptureEffects {
  import opened Basics
  import opened MemorySpec
  import opened MemorySystem
  import opened MemoryEffects
  import opened CaptureSpec
  import W = WorkflowCore

  // ---- What stands when a decision is taken ----

  // The record put up for review is the owner's and as it was put up.
  predicate CandidateStands(s: Repo, owner: Owner, review: Review) {
    && review.candidate.id in s.records
    && var r := s.records[review.candidate.id];
       && r.id == review.candidate.id && r.owner == owner && r.status.Candidate?
       && r.rowVersion == review.rowVersion && r.lineageVersion == review.candidate.lineageVersion && r.contentHash == review.candidate.contentHash
  }

  // Every memory the draft was judged against is the owner's, active and unchanged.
  predicate ReferencesStand(s: Repo, owner: Owner, refs: seq<MemoryRef>, now: Time) {
    refs == [] ||
      (&& owner.tenantID != 0 && owner.userID != 0 && |refs| <= 32
       && forall i :: 0 <= i < |refs| ==>
            && refs[i].id in s.records
            && var r := s.records[refs[i].id];
               && r.owner == owner && r.status.Active? && (r.expiresAt.None? || now < r.expiresAt.value)
               && r.id == refs[i].id && r.lineageVersion == refs[i].lineageVersion && r.contentHash == refs[i].contentHash)
  }

  predicate Supersession(data: Data) {
    data.policy.Some? && data.policy.value.action.ActionSupersede?
  }

  // The memory the policy replaces is the owner's, active, and what the candidate is a
  // later version of; both are sound, as every stored record is.
  predicate TargetStands(s: Repo, data: Data, candidate: string, now: Time) {
    Supersession(data) ==>
      && data.policy.value.targetID in s.records && candidate in s.records && candidate != data.policy.value.targetID
      && var target, r := s.records[data.policy.value.targetID], s.records[candidate];
         && target.owner == data.owner && target.status.Active? && (target.expiresAt.None? || now < target.expiresAt.value)
         && target.id == data.policy.value.targetID && r.supersedesID == target.id
         && r.lineageID == target.lineageID && r.lineageVersion > target.lineageVersion
         && Sound(target) && Sound(r)
  }

  // A suspended run's data, and what the review node needs to go on with it.
  predicate Ready(data: Data, ttl: int, w: World) {
    data.draft.Some? && data.review.Some? && ttl > 0 && w.actor.Some?
  }

  predicate Decides(action: W.HumanAction) {
    action.ActionApprove? || action.ActionReject?
  }

  // The store takes the decision under this run's own key.
  predicate Unused(c: Config, s: Repo, runID: string, data: Data, w: World)
    requires w.actor.Some?
  {
    && (data.owner, CommitKey(runID)) !in s.remembered
    && c.auditRefusal(w.actor.value.0 + ":" + w.actor.value.1, "user_correction").None?
    && c.auditRefusal(w.actor.value.0 + ":" + w.actor.value.1, "user_review").None?
  }

  // ---- What a decision leaves ----

  // The candidate is active or rejected as the action says, one version on; an approved
  // candidate is queued, and supersedes the policy's target; no other record changes.
  ghost predicate DecisionDone(c: Config, s: Repo, t: Repo, data: Data, candidate: string, action: W.HumanAction, now: Time)
    requires candidate in s.records
  {
    var r := s.records[candidate];
    var target := if action.ActionApprove? && Supersession(data) then data.policy.value.targetID else "";
    && t.records.Keys == s.records.Keys
    && t.records[candidate] == r.(status := if action.ActionApprove? then Active else Status.Rejected, rowVersion := r.rowVersion + 1, updatedAt := now)
    && (action.ActionApprove? ==> QueuedNow(c, t, t.records[candidate], now))
    && (action.ActionApprove? && Supersession(data) ==>
          && target in s.records
          && t.records[target] ==
               s.records[target].(status := Superseded, supersededBy := candidate, rowVersion := s.records[target].rowVersion + 1, updatedAt := now))
    && forall id :: id in s.records && id != candidate && !(action.ActionApprove? && Supersession(data) && id == target) ==>
         t.records[id] == s.records[id]
  }

  lemma ReloadsExactly(s: Repo, owner: Owner, refs: seq<MemoryRef>, now: Time)
    requires forall id :: id in s.records ==> s.records[id].id == id
    ensures Reloads(s, owner, refs, now) <==> ReferencesStand(s, owner, refs, now)
  {
    if Reloads(s, owner, refs, now) && refs != [] {
      forall i | 0 <= i < |refs|
        ensures refs[i].id in s.records && RefOf(s.records[refs[i].id]) == refs[i]
      {
        assert OwnActive(s, owner, refs[i].id, now).Some?;
      }
    }
  }

  // Resuming with an approval or a rejection, when everything stands, leaves the store
  // alone and goes on with the same review, by the actor who answered.
  lemma ReviewGoesOn(c: Config, s: Repo, runID: string, n: nat, data: Data, command: W.ResumeCommand, ttl: int, w: World)
    requires Ready(data, ttl, w) && Decides(command.action) && forall id :: id in s.records ==> s.records[id].id == id
    requires CandidateStands(s, data.owner, data.review.value) && ReferencesStand(s, data.owner, data.refs, w.now)
    ensures var (t, out) := ReviewResumed(c, s, s, runID, n, data, command, ttl, w);
            && t == s && out.Continues? && out.data == data.(review := out.data.review) && out.data.review.Some?
            && out.data.review.value.candidate == data.review.value.candidate && out.data.review.value.rowVersion == data.review.value.rowVersion
            && out.data.review.value.actor == w.actor.value
            && (if command.action.ActionApprove? then out.data.review.value.decision.Approved? else out.data.review.value.decision.Rejected?)
  {
    hide Reloads;
    ReloadsExactly(s, data.owner, data.refs, w.now);
  }

  // The decision was taken before, at the version that was reviewed.
  predicate DecidedBefore(s: Repo, owner: Owner, review: Review, action: W.HumanAction) {
    && review.candidate.id in s.records
    && var r := s.records[review.candidate.id];
       && r.owner == owner && r.rowVersion == review.rowVersion + 1
       && (if action.ActionApprove? then r.status.Active? else r.status.Rejected?)
       && r.lineageVersion == review.candidate.lineageVersion && r.contentHash == review.candidate.contentHash
  }

  // The review node goes on with a decision exactly when every reference stands, and the
  // candidate as reviewed or as an earlier execution of the same decision left it.
  lemma ReviewGoesOnExactly(c: Config, s: Repo, runID: string, n: nat, data: Data, command: W.ResumeCommand, ttl: int, w: World)
    requires Decides(command.action) && forall id :: id in s.records ==> s.records[id].id == id
    ensures var (t, out) := ReviewResumed(c, s, s, runID, n, data, command, ttl, w);
            && t == s
            && (out.Continues? <==>
                  && Ready(data, ttl, w) && ReferencesStand(s, data.owner, data.refs, w.now)
                  && (CandidateStands(s, data.owner, data.review.value) || DecidedBefore(s, data.owner, data.review.value, command.action)))
            && (!out.Continues? ==> out.Failed?)
  {
    hide Reloads, ReferencesStand;
    ReloadsExactly(s, data.owner, data.refs, w.now);
  }

  // Under a policy that keeps the memory there is, the first execution goes on with it,
  // if it stands, and the commit node leaves the store alone.
  lemma KeptMemory(c: Config, s: Repo, later: Repo, runID: string, data: Data, ttl: int, w: World, v: World)
    requires data.draft.Some? && ttl > 0 && data.review.None? && data.policy.Some? && data.policy.value.action.ActionNoop?
    ensures var (t, out) := ReviewFirst(c, s, s, runID, data, ttl, w);
            var id := data.policy.value.targetID;
            var stands := id in s.records && s.records[id].owner == data.owner && s.records[id].status.Active?
                          && (s.records[id].expiresAt.None? || w.now < s.records[id].expiresAt.value);
            && t == s && (out.Continues? <==> stands) && (!out.Continues? ==> out.Failed?)
            && (stands ==>
                  && out.data == data.(committed := Some(RefOf(s.records[id])))
                  && CommitDecision(c, later, later, runID, out.data, v) == (later, Continues(out.data)))
  {
    hide CreateCandidate;
  }

  lemma CommitDoes(c: Config, s: Repo, runID: string, data: Data, w: World, v: World, action: W.HumanAction)
    requires data.review.Some? && w.actor.Some? && Decides(action) && forall id :: id in s.records ==> s.records[id].id == id
    requires data.review.value.actor == w.actor.value
    requires if action.ActionApprove? then data.review.value.decision.Approved? else data.review.value.decision.Rejected?
    requires CandidateStands(s, data.owner, data.review.value) && Unused(c, s, runID, data, w)
    requires action.ActionApprove? ==> TargetStands(s, data, data.review.value.candidate.id, v.now)
    ensures var candidate := data.review.value.candidate.id;
            var (t, out) := CommitDecision(c, s, s, runID, data, v);
            && DecisionDone(c, s, t, data, candidate, action, v.now)
            && out.Continues? && out.data == data.(committed := Some(data.review.value.candidate))
  {
    hide CommitDecision, QueuedNow, CommitKey, TargetStands;
    if action.ActionApprove? && Supersession(data) {
      CommitSupersedes(c, s, runID, data, w, v);
    } else {
      CommitMoves(c, s, runID, data, w, v, action);
    }
  }

  lemma CommitSupersedes(c: Config, s: Repo, runID: string, data: Data, w: World, v: World)
    requires data.review.Some? && w.actor.Some? && data.review.value.actor == w.actor.value && data.review.value.decision.Approved?
    requires CandidateStands(s, data.owner, data.review.value) && Unused(c, s, runID, data, w)
    requires Supersession(data) && TargetStands(s, data, data.review.value.candidate.id, v.now)
    ensures var (t, out) := CommitDecision(c, s, s, runID, data, v);
            && DecisionDone(c, s, t, data, data.review.value.candidate.id, W.ActionApprove, v.now)
            && out.Continues? && out.data == data.(committed := Some(data.review.value.candidate))
  {
    hide QueuedNow, OnlyRow, Counted, CommitKey, ActivateCandidateSuperseding;
    var review := data.review.value;
    var a := Activation(data.owner, review.candidate.id, data.policy.value.targetID, review.rowVersion, s.records[data.policy.value.targetID].rowVersion,
                        review.actor.0 + ":" + review.actor.1, "user_correction", CommitKey(runID), review.candidate.contentHash, v.now);
    KeysNamed(runID);
    ActivatedExactly(c, s, a, v.now);
    ActivationMade(c, s, a, v.now);
  }

  lemma CommitMoves(c: Config, s: Repo, runID: string, data: Data, w: World, v: World, action: W.HumanAction)
    requires data.review.Some? && w.actor.Some? && Decides(action) && data.review.value.actor == w.actor.value
    requires if action.ActionApprove? then data.review.value.decision.Approved? else data.review.value.decision.Rejected?
    requires CandidateStands(s, data.owner, data.review.value) && Unused(c, s, runID, data, w)
    requires !(action.ActionApprove? && Supersession(data))
    ensures var (t, out) := CommitDecision(c, s, s, runID, data, v);
            && DecisionDone(c, s, t, data, data.review.value.candidate.id, action, v.now)
            && out.Continues? && out.data == data.(committed := Some(data.review.value.candidate))
  {
    hide QueuedNow, OnlyRow, Counted, CommitKey, TransitionMemory;
    var review := data.review.value;
    var m := Transition(data.owner, review.candidate.id, review.rowVersion, if action.ActionApprove? then Active else Status.Rejected,
                        review.actor.0 + ":" + review.actor.1, "user_review", CommitKey(runID), review.candidate.contentHash, v.now);
    TransitionedExactly(c, s, m);
    TransitionMade(c, s, m);
  }

  lemma KeysNamed(runID: string)
    ensures CommitKey(runID) != ""
  {
  }

  // An accepted approval activates the candidate, and an accepted rejection rejects it:
  // the two nodes one after the other, over stores in which what was reviewed still
  // stands, whatever else changed between them.
  lemma DecisionTakesEffect(c: Config, s: Repo, later: Repo, runID: string, n: nat, data: Data, command: W.ResumeCommand, ttl: int, w: World, v: World)
    requires Ready(data, ttl, w) && Decides(command.action)
    requires (forall id :: id in s.records ==> s.records[id].id == id) && (forall id :: id in later.records ==> later.records[id].id == id)
    requires CandidateStands(s, data.owner, data.review.value) && ReferencesStand(s, data.owner, data.refs, w.now)
    requires CandidateStands(later, data.owner, data.review.value) && Unused(c, later, runID, data, w)
    requires command.action.ActionApprove? ==> TargetStands(later, data, data.review.value.candidate.id, v.now)
    ensures var candidate := data.review.value.candidate;
            var (same, reviewed) := ReviewResumed(c, s, s, runID, n, data, command, ttl, w);
            && same == s && reviewed.Continues?
            && var (t, out) := CommitDecision(c, later, later, runID, reviewed.data, v);
               && DecisionDone(c, later, t, data, candidate.id, command.action, v.now)
               && out.Continues? && out.data.committed == Some(candidate)
  {
    hide ReviewResumed, CommitDecision, CandidateStands, ReferencesStand, DecisionDone, CommitKey;
    ReviewGoesOn(c, s, runID, n, data, command, ttl, w);
    var reviewed := ReviewResumed(c, s, s, runID, n, data, command, ttl, w).1.data;
    SameReview(later, data, reviewed);
    CommitDoes(c, later, runID, reviewed, w, v, command.action);
    SameDecision(c, later, CommitDecision(c, later, later, runID, reviewed, v).0, data, reviewed, data.review.value.candidate.id, command.action, v.now);
  }

  lemma SameReview(s: Repo, data: Data, reviewed: Data)
    requires data.review.Some? && reviewed.review.Some? && reviewed == data.(review := reviewed.review)
    requires reviewed.review.value.candidate == data.review.value.candidate && reviewed.review.value.rowVersion == data.review.value.rowVersion
    requires CandidateStands(s, data.owner, data.review.value)
    ensures CandidateStands(s, reviewed.owner, reviewed.review.value)
    ensures forall id, now :: TargetStands(s, data, id, now) ==> TargetStands(s, reviewed, id, now)
  {
  }

  lemma SameDecision(c: Config, s: Repo, t: Repo, data: Data, reviewed: Data, candidate: string, action: W.HumanAction, now: Time)
    requires reviewed == data.(review := reviewed.review) && candidate in s.records && DecisionDone(c, s, t, reviewed, candidate, action, now)
    ensures DecisionDone(c, s, t, data, candidate, action, now)
  {
  }

  // ---- Deciding again ----

  // A worker that crashed between the commit node's write and its checkpoint is followed
  // by one that executes both nodes again. Then the first decision is found and its
  // result given again exactly unless it was an approval that superseded a memory: the
  // memory it superseded is no longer active, so the commit node fails.
  lemma DecidedAgain(c: Config, s: Repo, runID: string, n: nat, data: Data, command: W.ResumeCommand, ttl: int, w: World, v: World, w2: World, v2: World)
    requires Ready(data, ttl, w) && Ready(data, ttl, w2) && Decides(command.action)
    requires forall id :: id in s.records ==> s.records[id].id == id
    requires CandidateStands(s, data.owner, data.review.value) && Unused(c, s, runID, data, w)
    requires command.action.ActionApprove? ==> TargetStands(s, data, data.review.value.candidate.id, v.now)
    requires var reviewed := data.(review := Some(Decided(data.review.value, w, command.action)));
             ReferencesStand(CommitDecision(c, s, s, runID, reviewed, v).0, data.owner, data.refs, w2.now)
    requires c.auditRefusal(w2.actor.value.0 + ":" + w2.actor.value.1, "user_review").None?
    ensures var candidate := data.review.value.candidate;
            var reviewed := data.(review := Some(Decided(data.review.value, w, command.action)));
            var t := CommitDecision(c, s, s, runID, reviewed, v).0;
            var (same, again) := ReviewResumed(c, t, t, runID, n, data, command, ttl, w2);
            && same == t && again.Continues?
            && var (end, out) := CommitDecision(c, t, t, runID, again.data, v2);
               && end == t
               && (out.Continues? <==> !(command.action.ActionApprove? && Supersession(data)))
               && (out.Continues? ==> out.data.committed == Some(candidate))
  {
    hide CommitDecision, ReviewResumed, CommitKey, TargetStands, DecisionDone, ReferencesStand, CandidateStands;
    var reviewed := data.(review := Some(Decided(data.review.value, w, command.action)));
    SameReview(s, data, reviewed);
    CommitDoes(c, s, runID, reviewed, w, v, command.action);
    var t := CommitDecision(c, s, s, runID, reviewed, v).0;
    CommitRemembers(c, s, runID, reviewed, v);
    TargetIsOther(s, data, v.now);
    ReviewAgain(c, s, t, runID, n, data, reviewed, command, ttl, w2, v.now);
    CommitAgain(c, s, t, runID, data, reviewed, ReviewResumed(c, t, t, runID, n, data, command, ttl, w2).1.data, command.action, w2, v.now, v2);
  }

  lemma TargetIsOther(s: Repo, data: Data, now: Time)
    ensures data.review.Some? && TargetStands(s, data, data.review.value.candidate.id, now) && Supersession(data) ==>
              data.policy.value.targetID != data.review.value.candidate.id
  {
  }

  lemma ReviewAgain(c: Config, s: Repo, t: Repo, runID: string, n: nat, data: Data, reviewed: Data, command: W.ResumeCommand, ttl: int, w: World, now: Time)
    requires Ready(data, ttl, w) && Decides(command.action) && forall id :: id in s.records ==> s.records[id].id == id
    requires CandidateStands(s, data.owner, data.review.value) && reviewed == data.(review := reviewed.review)
    requires DecisionDone(c, s, t, reviewed, data.review.value.candidate.id, command.action, now)
    requires ReferencesStand(t, data.owner, data.refs, w.now)
    ensures var (same, again) := ReviewResumed(c, t, t, runID, n, data, command, ttl, w);
            && same == t && again.Continues? && again.data == data.(review := Some(Decided(data.review.value, w, command.action)))
  {
    hide Reloads, QueuedNow;
    OwnIDsKept(c, s, t, reviewed, data.review.value.candidate.id, command.action, now);
    ReloadsExactly(t, data.owner, data.refs, w.now);
  }

  lemma CommitAgain(c: Config, s: Repo, t: Repo, runID: string, data: Data, reviewed: Data, again: Data, action: W.HumanAction, w: World, now: Time, v: World)
    requires data.review.Some? && w.actor.Some? && Decides(action) && data.review.value.candidate.id in s.records
    requires reviewed == data.(review := reviewed.review) && again == data.(review := Some(Decided(data.review.value, w, action)))
    requires DecisionDone(c, s, t, reviewed, data.review.value.candidate.id, action, now)
    requires action.ActionApprove? && Supersession(data) ==> data.policy.value.targetID != data.review.value.candidate.id
    requires (data.owner, CommitKey(runID)) in t.remembered
    requires t.remembered[(data.owner, CommitKey(runID))].inputHash == data.review.value.candidate.contentHash
    requires RefOf(t.remembered[(data.owner, CommitKey(runID))].result.memory) == data.review.value.candidate
    requires c.auditRefusal(w.actor.value.0 + ":" + w.actor.value.1, "user_review").None?
    ensures var (end, out) := CommitDecision(c, t, t, runID, again, v);
            && end == t && (out.Continues? <==> !(action.ActionApprove? && Supersession(data)))
            && (out.Continues? ==> out.data.committed == Some(data.review.value.candidate))
  {
    hide CommitKey, QueuedNow, ActivateCandidateSuperseding;
  }

  // The review as the review node leaves it.
  function Decided(review: Review, w: World, action: W.HumanAction): Review
    requires w.actor.Some?
  {
    review.(actor := w.actor.value, decision := if action.ActionApprove? then Approved else Decision.Rejected)
  }

  lemma OwnIDsKept(c: Config, s: Repo, t: Repo, data: Data, candidate: string, action: W.HumanAction, now: Time)
    requires forall id :: id in s.records ==> s.records[id].id == id
    requires candidate in s.records && DecisionDone(c, s, t, data, candidate, action, now)
    ensures forall id :: id in t.records ==> t.records[id].id == id
  {
    hide QueuedNow;
  }

  lemma CommitRemembers(c: Config, s: Repo, runID: string, data: Data, v: World)
    requires data.review.Some? && (data.owner, CommitKey(runID)) !in s.remembered
    ensures var (t, out) := CommitDecision(c, s, s, runID, data, v);
            out.Continues? ==>
              && (data.owner, CommitKey(runID)) in t.remembered
              && t.remembered[(data.owner, CommitKey(runID))].inputHash == data.review.value.candidate.contentHash
              && out.data.committed == Some(RefOf(t.remembered[(data.owner, CommitKey(runID))].result.memory))
  {
    hide CommitKey, Queue;
  }

  // ---- Putting a candidate up ----

  // The record has the draft's content and is a candidate nobody has touched.
  predicate DraftedAs(r: Record, owner: Owner, d: Draft, w: World) {
    && r.id == w.newID && r.owner == owner && r.status.Candidate? && r.rowVersion == 1 && r.supersededBy == ""
    && r.canonicalText == d.canonicalText && r.structuredValue == d.structuredValue && r.contentHash == d.contentHash
    && r.layer == d.layer && r.kind == d.kind && r.scope == d.scope && r.namespace == d.namespace && r.slotKey == d.slotKey && r.entity == d.entity
    && r.authority == d.authority && r.confidence == d.confidence && r.salience == d.salience && r.source == d.source && r.expiresAt == d.expiresAt
  }

  // The human is asked about exactly that record, until the time is over.
  predicate AsksFor(runID: string, r: Record, version: nat, ttl: int, w: World, review: Review, wait: W.WaitPoint) {
    && review.candidate == MemoryRef(r.id, r.lineageVersion, r.contentHash) && review.rowVersion == r.rowVersion
    && review.waitVersion == version && review.decision.Undecided?
    && wait.runID == runID && wait.nodeID == "memory-review" && wait.version == version && wait.contentHash == r.contentHash
    && wait.allowedActions == [W.ActionApprove, W.ActionReject, W.ActionSubmitEdit] && wait.expiresAt == w.now + ttl
  }

  // The first execution that suspends has stored the draft as a new candidate, of a
  // lineage of its own or behind the policy's target, and asks for it; no other record
  // changed.
  lemma FirstPutUp(c: Config, s: Repo, runID: string, data: Data, ttl: int, w: World)
    requires (data.owner, FirstKey(runID)) !in s.remembered && ReviewFirst(c, s, s, runID, data, ttl, w).1.Suspends?
    ensures var (t, out) := ReviewFirst(c, s, s, runID, data, ttl, w);
            && data.draft.Some? && w.newID !in s.records && t.records.Keys == s.records.Keys + {w.newID}
            && DraftedAs(t.records[w.newID], data.owner, data.draft.value, w)
            && AsksFor(runID, t.records[w.newID], 1, ttl, w, out.review, out.wait)
            && out.data == data.(review := Some(out.review))
            && (forall id :: id in s.records ==> t.records[id] == s.records[id])
            && (if Supersession(data) then
                  && data.policy.value.targetID in s.records
                  && var target := s.records[data.policy.value.targetID];
                     && t.records[w.newID].supersedesID == target.id && t.records[w.newID].lineageID == target.lineageID
                     && t.records[w.newID].lineageVersion == target.lineageVersion + 1
                else t.records[w.newID].supersedesID == "" && t.records[w.newID].lineageID == w.newLineage && t.records[w.newID].lineageVersion == 1)
  {
    hide CommitMutation, FirstKey, QueuedNow, OnlyRow, Counted;
    CandidateMade(c, s, FirstKey(runID), data, data.draft.value, None, w);
  }

  lemma CandidateMade(c: Config, s: Repo, key: string, data: Data, d: Draft, replaced: Option<Record>, w: World)
    requires (data.owner, key) !in s.remembered && CreateCandidate(c, s, s, key, data, d, replaced, w).1.Some?
    requires replaced.Some? ==> replaced.value.id in s.records && s.records[replaced.value.id] == replaced.value
    ensures var (t, r) := CreateCandidate(c, s, s, key, data, d, replaced, w);
            && w.newID !in s.records && t.records.Keys == s.records.Keys + {w.newID} && r.value == t.records[w.newID]
            && t.records[w.newID] == CandidateRecord(data, d, replaced, TargetOf(s, data, w.now), w)
            && (forall id :: id in s.records && (replaced.Some? ==> id != replaced.value.id) ==> t.records[id] == s.records[id])
            && (replaced.Some? ==>
                  t.records[replaced.value.id] == replaced.value.(status := Status.Rejected, rowVersion := replaced.value.rowVersion + 1, updatedAt := w.now))
  {
    hide CommitMutation, TargetOf, QueuedNow, OnlyRow, Counted, CandidateRecord;
    var m := CandidateMutation(s, key, data, d, replaced, w);
    CandidateNamed(data, d, replaced, TargetOf(s, data, w.now), w);
    MutationMade(c, s, m, w.now);
    if replaced.Some? {
      assert m.targets[0].id == replaced.value.id;
    }
  }

  lemma CandidateNamed(data: Data, d: Draft, replaced: Option<Record>, target: Option<Record>, w: World)
    ensures var r := CandidateRecord(data, d, replaced, target, w);
            r.id == w.newID && r.owner == data.owner && r.(createdAt := w.now, updatedAt := w.now) == r
  {
  }

  // An accepted edit rejects the candidate that was reviewed and puts the edited draft up
  // in its place, one version further along its lineage, or named after the policy's
  // target; what was judged for the edited draft is kept for the decision.
  lemma EditPutUp(c: Config, s: Repo, runID: string, n: nat, data: Data, command: W.ResumeCommand, ttl: int, w: World)
    requires command.action.ActionSubmitEdit? && (data.owner, EditKey(runID, n)) !in s.remembered
    requires ReviewResumed(c, s, s, runID, n, data, command, ttl, w).1.Suspends? && forall id :: id in s.records ==> s.records[id].id == id
    ensures var (t, out) := ReviewResumed(c, s, s, runID, n, data, command, ttl, w);
            && data.review.Some? && w.edited.Some? && w.refs.Some? && w.newID !in s.records && t.records.Keys == s.records.Keys + {w.newID}
            && var prior := data.review.value.candidate.id;
               && prior in s.records && s.records[prior].owner == data.owner && s.records[prior].contentHash == data.review.value.candidate.contentHash
               && t.records[prior] == s.records[prior].(status := Status.Rejected, rowVersion := s.records[prior].rowVersion + 1, updatedAt := w.now)
               && DraftedAs(t.records[w.newID], data.owner, w.edited.value, w)
               && t.records[w.newID].supersedesID == (if Supersession(data) then data.policy.value.targetID else prior)
               && t.records[w.newID].lineageID == s.records[prior].lineageID && t.records[w.newID].lineageVersion == s.records[prior].lineageVersion + 1
               && AsksFor(runID, t.records[w.newID], data.review.value.waitVersion + 1, ttl, w, out.review, out.wait)
               && out.data == data.(draft := w.edited, policy := w.policy, refs := w.refs.value, review := Some(out.review))
               && forall id :: id in s.records && id != prior ==> t.records[id] == s.records[id]
  {
    hide CommitMutation, EditKey, QueuedNow, OnlyRow, Counted, Reloads;
    var reviewed := Own(s, data.owner, data.review.value.candidate.id);
    CandidateMade(c, s, EditKey(runID, n), data, w.edited.value, reviewed, w);
  }
}
