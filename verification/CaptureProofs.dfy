// What every step of the capture workflow keeps.
module CaptureProofs {
  import opened Basics
  import opened MemorySpec
  import opened MemorySystem
  import opened MemoryProofs
  import opened MemoryTheorems
  import opened CaptureSpec
  import opened CaptureSystem
  import W = WorkflowCore
  import Runner = RunnerSpec

  // ---- Keys ----

  lemma EditKeyInjective(runID: string, n: nat, other: string, m: nat)
    requires EditKey(runID, n) == EditKey(other, m)
    ensures runID == other && n == m
  {
    hide Keyed;
    KeyedInjective(Runner.ExecutionID(runID, REVIEW_NODE, n + 1), 1, Runner.ExecutionID(other, REVIEW_NODE, m + 1), 1);
    KeyedInjective(runID + ":" + REVIEW_NODE, n + 1, other + ":" + REVIEW_NODE, m + 1);
    var a, b := runID + ":" + REVIEW_NODE, other + ":" + REVIEW_NODE;
    assert runID == a[..|a| - |REVIEW_NODE| - 1] == b[..|b| - |REVIEW_NODE| - 1] == other;
  }

  lemma OtherKeys(runID: string, other: string, n: nat)
    ensures FirstKey(runID) != EditKey(other, n) && CommitKey(runID) != EditKey(other, n)
  {
    hide Keyed;
    if FirstKey(runID) == EditKey(other, n) {
      KeyedInjective(Runner.ExecutionID(runID, REVIEW_NODE, 1), 0, Runner.ExecutionID(other, REVIEW_NODE, n + 1), 1);
    }
    if CommitKey(runID) == EditKey(other, n) {
      KeyedInjective(Runner.ExecutionID(runID, COMMIT_NODE, 1), 0, Runner.ExecutionID(other, REVIEW_NODE, n + 1), 1);
    }
  }

  // ---- The store goes on ----

  ghost predicate Onward(s: Repo, t: Repo) {
    forall id :: id in s.records ==> id in t.records && RecordStep(s.records[id], t.records[id])
  }

  // A view is an earlier value of the store.
  ghost predicate Seen(view: Repo, s: Repo) {
    forall id :: id in view.records ==> id in s.records && RecordRun(view.records[id], s.records[id])
  }

  predicate RejectedAt(s: Repo, id: string) {
    id in s.records && s.records[id].status.Rejected?
  }

  predicate HashAt(s: Repo, id: string, hash: string) {
    id in s.records && s.records[id].contentHash == hash
  }

  lemma SeenOnward(view: Repo, s: Repo, t: Repo)
    requires Seen(view, s) && Onward(s, t)
    ensures Seen(view, t)
  {
    hide RecordRun, RecordStep;
    forall id | id in view.records
      ensures id in t.records && RecordRun(view.records[id], t.records[id])
    {
      RunThenStep(view.records[id], s.records[id], t.records[id]);
    }
  }

  lemma HashOnward(s: Repo, t: Repo, id: string, hash: string)
    requires Onward(s, t) && HashAt(s, id, hash)
    ensures HashAt(t, id, hash)
  {
  }

  lemma StepOnward(c: Config, s: Repo, a: Action)
    requires Inv(c, s)
    ensures Inv(c, Step(c, s, a)) && Onward(s, Step(c, s, a))
  {
    hide Inv, Step, RecordStep;
    StepKeeps(c, s, a);
  }

  // ---- Writing a candidate ----

  // Nothing becomes active.
  ghost predicate NoneActivated(s: Repo, t: Repo) {
    forall id :: id in t.records && t.records[id].status.Active? ==> id in s.records && s.records[id] == t.records[id]
  }

  ghost predicate OnlyKey(s: Repo, t: Repo, key: (Owner, string)) {
    forall k :: k in t.remembered && k !in s.remembered ==> k == key
  }

  lemma CommittedNoneActive(c: Config, s: Repo, m: Mutation, now: Time)
    requires m.newMemory.Some? && CommitRefusal(c, s, m, now).None? && ProperMutation(m) && !m.newMemory.value.status.Active?
    ensures NoneActivated(s, Committed(c, s, m, now).0)
  {
    hide CommitRefusal, ApplyTargets, Queue, RecordStep;
    var t := Committed(c, s, m, now).0;
    NewRecord(c, s, m, now);
    NoTargets(s.records, m.targets, m.newMemory.value.id, now);
    forall id | id in t.records && t.records[id].status.Active?
      ensures id in s.records && s.records[id] == t.records[id]
    {
      if id in s.records {
        CommitTarget(c, s, m, now, id);
      }
    }
  }

  // The one target of an accepted mutation ends rejected.
  lemma TargetRejected(c: Config, s: Repo, m: Mutation, now: Time, id: string)
    requires m.newMemory.Some? && CommitRefusal(c, s, m, now).None? && ProperMutation(m)
    requires |m.targets| == 1 && m.targets[0].id == id && m.targets[0].newStatus.Rejected?
    ensures RejectedAt(Committed(c, s, m, now).0, id)
  {
    hide Refusal, SlotTaken, Queue;
    TargetsAccepted(s.records, m.owner, m.targets, 0);
    NewRecord(c, s, m, now);
    var newID := m.newMemory.value.id;
    assert ApplyTargets(s.records, [], newID, now) == s.records;
    assert m.targets[..|m.targets| - 1] == [];
    assert ApplyTargets(s.records, m.targets, newID, now) == s.records[id := Retarget(s.records[id], m.targets[0], newID, now)];
  }

  lemma CreateProper(view: Repo, key: string, data: Data, d: Draft, replaced: Option<Record>, w: World)
    ensures var m := CandidateMutation(view, key, data, d, replaced, w);
            && ProperMutation(m) && m.owner == data.owner && m.idempotencyKey == key
            && m.newMemory.Some? && m.newMemory.value.status.Candidate?
            && (if replaced.Some? then |m.targets| == 1 && m.targets[0].id == replaced.value.id && m.targets[0].newStatus.Rejected?
                else m.targets == [])
  {
  }

  // Creating a candidate activates nothing, uses its own key, and rejects the one it
  // replaces, unless the same execution had created it before.
  lemma CreateEffect(c: Config, view: Repo, s: Repo, key: string, data: Data, d: Draft, replaced: Option<Record>, w: World)
    requires Inv(c, s)
    ensures var (t, r) := CreateCandidate(c, view, s, key, data, d, replaced, w);
            && Inv(c, t) && Onward(s, t) && NoneActivated(s, t) && OnlyKey(s, t, (data.owner, key))
            && (r.Some? ==> (data.owner, key) in t.remembered)
            && (t != s && replaced.Some? ==> RejectedAt(t, replaced.value.id))
  {
    hide Inv, Committed, CommitRefusal, CandidateMutation, ProperMutation, TargetOf, Replay, RecordStep, RejectedAt;
    var m := CandidateMutation(view, key, data, d, replaced, w);
    CreateProper(view, key, data, d, replaced, w);
    StepOnward(c, s, Committing(m, w.now));
    SameOnward(s);
    if CommitMutation(c, s, m, w.now).0 != s {
      CommittedNoneActive(c, s, m, Now(m.occurredAt, w.now));
      if replaced.Some? {
        TargetRejected(c, s, m, Now(m.occurredAt, w.now), replaced.value.id);
      }
    }
    MutationRemembers(c, s, m, w.now);
  }

  lemma SameOnward(s: Repo)
    ensures Onward(s, s) && NoneActivated(s, s)
  {
  }

  lemma MutationRemembers(c: Config, s: Repo, m: Mutation, now: Time)
    ensures var (t, r) := CommitMutation(c, s, m, now);
            OnlyKey(s, t, (m.owner, m.idempotencyKey)) && (r.Ok? ==> (m.owner, m.idempotencyKey) in t.remembered)
  {
    hide CommitRefusal, Queue, ApplyTargets;
  }

  // ---- The invariant ----

  // Every candidate but the last was replaced by an edit, and is rejected.
  ghost predicate RunInv(s: Repo, runID: string, run: Run) {
    && (run.data.review.Some? <==> run.trail != [])
    && (run.data.review.Some? ==> run.trail[|run.trail| - 1] == run.data.review.value.candidate.id)
    && (forall i :: 0 <= i < |run.trail| - 1 ==> RejectedAt(s, run.trail[i]))
    && (run.pending.None? && !run.done ==> run.data.review.None?)
    && (run.pending.Some? ==>
          && run.data.review.Some?
          && run.pending.value.contentHash == run.data.review.value.candidate.contentHash
          && run.pending.value.runID == runID)
  }

  // A decision to approve rests on an accepted command for exactly the candidate's
  // content, which the candidate's record has.
  ghost predicate DecidedInv(s: Repo, w: Worker, data: Data) {
    && data.owner == w.base.data.owner
    && (data.review.Some? <==> w.base.data.review.Some?)
    && (data.review.Some? ==>
          && data.review.value.candidate == w.base.data.review.value.candidate
          && (data.review.value.decision.Approved? ==>
                && w.command.Some? && w.command.value.action.ActionApprove?
                && HashAt(s, data.review.value.candidate.id, data.review.value.candidate.contentHash)))
  }

  ghost predicate FinishedInv(s: Repo, w: Worker, run: Run) {
    && RunInv(s, w.runID, run)
    && run.data.owner == w.base.data.owner
    && w.base.trail <= run.trail
  }

  ghost predicate CommandInv(accepted: set<W.ResumeCommand>, runID: string, base: Data, command: Option<W.ResumeCommand>) {
    match command
    case None => base.review.None?
    case Some(command) =>
      && command in accepted && command.runID == runID
      && base.review.Some? && command.contentHash == base.review.value.candidate.contentHash
  }

  ghost predicate WorkerInv(s: Repo, runs: map<string, Run>, accepted: set<W.ResumeCommand>, w: Worker) {
    && w.runID in runs && w.base.trail <= runs[w.runID].trail && w.base.data.owner == runs[w.runID].data.owner
    && RunInv(s, w.runID, w.base)
    && CommandInv(accepted, w.runID, w.base.data, w.command)
    && (w.view.Some? ==> Seen(w.view.value, s))
    && (w.phase.Decided? ==> DecidedInv(s, w, w.phase.data))
    && (w.phase.Finished? ==> FinishedInv(s, w, w.phase.run))
  }

  // A remembered edit of a run has rejected the candidate it replaced.
  ghost predicate EditInv(s: Repo, runs: map<string, Run>, runID: string, n: nat) {
    runID in runs && 1 <= n <= |runs[runID].trail| && RejectedAt(s, runs[runID].trail[n - 1])
  }

  ghost predicate KeysInv(s: Repo, runs: map<string, Run>) {
    forall key, runID, n :: key in s.remembered && key.1 == EditKey(runID, n) ==> EditInv(s, runs, runID, n)
  }

  ghost predicate SysInv(c: Config, sys: System) {
    && Inv(c, sys.repo)
    && (forall runID :: runID in sys.runs ==> RunInv(sys.repo, runID, sys.runs[runID]))
    && (forall id :: id in sys.workers ==> WorkerInv(sys.repo, sys.runs, sys.accepted, sys.workers[id]))
    && KeysInv(sys.repo, sys.runs)
  }

  // ---- Going on with the store ----

  lemma RunOnward(s: Repo, t: Repo, runID: string, run: Run)
    requires Onward(s, t) && RunInv(s, runID, run)
    ensures RunInv(t, runID, run)
  {
  }

  lemma WorkerOnward(s: Repo, t: Repo, runs: map<string, Run>, accepted: set<W.ResumeCommand>, w: Worker)
    requires Onward(s, t) && WorkerInv(s, runs, accepted, w)
    ensures WorkerInv(t, runs, accepted, w)
  {
    hide Onward, Seen, RunInv, HashAt;
    RunOnward(s, t, w.runID, w.base);
    if w.view.Some? {
      SeenOnward(w.view.value, s, t);
    }
    if w.phase.Finished? {
      RunOnward(s, t, w.runID, w.phase.run);
    }
    if w.phase.Decided? && w.phase.data.review.Some? && w.phase.data.review.value.decision.Approved? {
      HashOnward(s, t, w.phase.data.review.value.candidate.id, w.phase.data.review.value.candidate.contentHash);
    }
  }

  // Keys that are no edit keys, or whose edit has rejected its candidate, may be added.
  lemma KeysOnward(s: Repo, t: Repo, runs: map<string, Run>, added: (Owner, string))
    requires Onward(s, t) && KeysInv(s, runs) && OnlyKey(s, t, added)
    requires added in t.remembered && added !in s.remembered ==>
               forall runID, n :: added.1 == EditKey(runID, n) ==> EditInv(t, runs, runID, n)
    ensures KeysInv(t, runs)
  {
  }

  // A step of the store alone.
  lemma StoreOnward(c: Config, sys: System, t: Repo)
    requires SysInv(c, sys) && Inv(c, t) && Onward(sys.repo, t) && KeysInv(t, sys.runs)
    ensures SysInv(c, sys.(repo := t))
  {
    hide Inv, Onward, RunInv, WorkerInv, KeysInv;
    forall runID | runID in sys.runs
      ensures RunInv(t, runID, sys.runs[runID])
    {
      RunOnward(sys.repo, t, runID, sys.runs[runID]);
    }
    forall id | id in sys.workers
      ensures WorkerInv(t, sys.runs, sys.accepted, sys.workers[id])
    {
      WorkerOnward(sys.repo, t, sys.runs, sys.accepted, sys.workers[id]);
    }
  }

  // ---- Executing the nodes ----

  lemma FirstReview(c: Config, s: Repo, runs: map<string, Run>, accepted: set<W.ResumeCommand>, w: Worker, ttl: int, world: World)
    requires Inv(c, s) && KeysInv(s, runs) && WorkerInv(s, runs, accepted, w) && w.view.Some? && w.phase.Fresh? && w.command.None?
    ensures var (t, out) := ReviewFirst(c, w.view.value, s, w.runID, w.base.data, ttl, world);
            && Inv(c, t) && Onward(s, t) && NoneActivated(s, t) && KeysInv(t, runs)
            && WorkerInv(t, runs, accepted, w.(phase := AfterReview(w.base, out, world.now)))
  {
    hide Inv, KeysInv, Onward, CreateCandidate, FirstKey, EditKey, RejectedAt, Seen, NoneActivated, OnlyKey, Keyed;
    var data := w.base.data;
    var (t, out) := ReviewFirst(c, w.view.value, s, w.runID, data, ttl, world);
    SameOnward(s);
    if t != s || out.Suspends? {
      CreateEffect(c, w.view.value, s, FirstKey(w.runID), data, data.draft.value, None, world);
      FirstKeyAdded(s, t, runs, w.runID, data.owner);
    }
    WorkerOnward(s, t, runs, accepted, w);
  }

  lemma FirstKeyAdded(s: Repo, t: Repo, runs: map<string, Run>, runID: string, owner: Owner)
    requires Onward(s, t) && KeysInv(s, runs) && OnlyKey(s, t, (owner, FirstKey(runID)))
    ensures KeysInv(t, runs)
  {
    hide KeysInv, Onward, EditKey, FirstKey, EditInv;
    forall other, n
      ensures FirstKey(runID) != EditKey(other, n)
    {
      OtherKeys(runID, other, n);
    }
    KeysOnward(s, t, runs, (owner, FirstKey(runID)));
  }

  lemma CommitKeyAdded(s: Repo, t: Repo, runs: map<string, Run>, runID: string, owner: Owner)
    requires Onward(s, t) && KeysInv(s, runs) && OnlyKey(s, t, (owner, CommitKey(runID)))
    ensures KeysInv(t, runs)
  {
    hide KeysInv, Onward, EditKey, CommitKey, EditInv;
    forall other, n
      ensures CommitKey(runID) != EditKey(other, n)
    {
      OtherKeys(runID, other, n);
    }
    KeysOnward(s, t, runs, (owner, CommitKey(runID)));
  }

  lemma EditKeyAdded(s: Repo, t: Repo, runs: map<string, Run>, runID: string, n: nat, owner: Owner)
    requires Onward(s, t) && KeysInv(s, runs) && OnlyKey(s, t, (owner, EditKey(runID, n)))
    requires t != s ==> EditInv(t, runs, runID, n)
    ensures KeysInv(t, runs)
    ensures (owner, EditKey(runID, n)) in t.remembered ==> EditInv(t, runs, runID, n)
  {
    hide Onward, EditKey, EditInv;
    forall other, m | EditKey(runID, n) == EditKey(other, m)
      ensures other == runID && m == n
    {
      EditKeyInjective(runID, n, other, m);
    }
    KeysOnward(s, t, runs, (owner, EditKey(runID, n)));
  }

  // The record a worker reviewed is still there, under its id, with its content.
  lemma ReviewedRecord(c: Config, s: Repo, w: Worker, r: Record)
    requires Inv(c, s) && w.view.Some? && Seen(w.view.value, s) && w.base.data.review.Some?
    requires Own(w.view.value, w.base.data.owner, w.base.data.review.value.candidate.id) == Some(r)
    ensures r.id == w.base.data.review.value.candidate.id && HashAt(s, r.id, r.contentHash)
  {
  }

  // The checkpoint after an edit: one candidate more, the one before it rejected.
  lemma GrownRun(s: Repo, w: Worker, data: Data, review: Review, wait: W.WaitPoint)
    requires RunInv(s, w.runID, w.base) && data.owner == w.base.data.owner && data.review == Some(review)
    requires wait.contentHash == review.candidate.contentHash && wait.runID == w.runID
    requires w.base.trail != [] ==> RejectedAt(s, w.base.trail[|w.base.trail| - 1])
    ensures FinishedInv(s, w, Run(data, w.base.trail + [review.candidate.id], Some(wait), false))
  {
    hide RejectedAt;
  }

  // The checkpoint of an execution that ends the run.
  lemma EndedRun(s: Repo, w: Worker, data: Data)
    requires RunInv(s, w.runID, w.base) && data.owner == w.base.data.owner
    requires data.review.Some? <==> w.base.data.review.Some?
    requires data.review.Some? ==> data.review.value.candidate == w.base.data.review.value.candidate
    ensures FinishedInv(s, w, Run(data, w.base.trail, None, true))
  {
  }

  // What an edit does to the store.
  lemma EditEffect(c: Config, view: Repo, s: Repo, runs: map<string, Run>, runID: string, n: nat, data: Data, review: Review, r: Record,
                   command: W.ResumeCommand, ttl: int, world: World)
    requires Inv(c, s) && KeysInv(s, runs) && runID in runs && 1 <= n <= |runs[runID].trail| && runs[runID].trail[n - 1] == r.id
    ensures var (t, out) := Edit(c, view, s, runID, n, data, review, r, command, ttl, world);
            && Inv(c, t) && Onward(s, t) && NoneActivated(s, t) && KeysInv(t, runs)
            && (out.Suspends? ==> RejectedAt(t, r.id))
  {
    hide Inv, KeysInv, Onward, CreateCandidate, EditKey, RejectedAt, NoneActivated, OnlyKey;
    SameOnward(s);
    if world.edited.Some? {
      CreateEffect(c, view, s, EditKey(runID, n), data, world.edited.value, Some(r), world);
      EditKeyAdded(s, CreateCandidate(c, view, s, EditKey(runID, n), data, world.edited.value, Some(r), world).0, runs, runID, n, data.owner);
    }
  }

  lemma EditOutput(c: Config, view: Repo, s: Repo, runID: string, n: nat, data: Data, review: Review, r: Record,
                   command: W.ResumeCommand, ttl: int, world: World)
    ensures var out := Edit(c, view, s, runID, n, data, review, r, command, ttl, world).1;
            && !out.Continues?
            && (out.Suspends? ==>
                  && out.data.owner == data.owner && out.data.review == Some(out.review)
                  && out.wait.contentHash == out.review.candidate.contentHash && out.wait.runID == runID)
  {
    hide CreateCandidate, EditKey;
  }

  lemma EditedReview(c: Config, s: Repo, runs: map<string, Run>, accepted: set<W.ResumeCommand>, w: Worker, r: Record,
                     command: W.ResumeCommand, ttl: int, world: World)
    requires Inv(c, s) && KeysInv(s, runs) && WorkerInv(s, runs, accepted, w) && w.view.Some? && w.phase.Fresh?
    requires w.base.data.review.Some?
    requires Own(w.view.value, w.base.data.owner, w.base.data.review.value.candidate.id) == Some(r)
    ensures var (t, out) := Edit(c, w.view.value, s, w.runID, |w.base.trail|, w.base.data, w.base.data.review.value, r, command, ttl, world);
            && Inv(c, t) && Onward(s, t) && NoneActivated(s, t) && KeysInv(t, runs)
            && WorkerInv(t, runs, accepted, w.(phase := AfterReview(w.base, out, world.now)))
  {
    hide Inv, KeysInv, Onward, Edit, RejectedAt, Seen, NoneActivated, Own, CommandInv, HashAt, DecidedInv, W.ValidWait;
    var data := w.base.data;
    var n := |w.base.trail|;
    var (t, out) := Edit(c, w.view.value, s, w.runID, n, data, data.review.value, r, command, ttl, world);
    ReviewedRecord(c, s, w, r);
    EditEffect(c, w.view.value, s, runs, w.runID, n, data, data.review.value, r, command, ttl, world);
    EditOutput(c, w.view.value, s, w.runID, n, data, data.review.value, r, command, ttl, world);
    WorkerOnward(s, t, runs, accepted, w);
    EndedRun(t, w, data);
    if out.Suspends? {
      GrownRun(t, w, out.data, out.review, out.wait);
    }
  }

  lemma ResumedReview(c: Config, s: Repo, runs: map<string, Run>, accepted: set<W.ResumeCommand>, w: Worker, ttl: int, world: World)
    requires Inv(c, s) && KeysInv(s, runs) && WorkerInv(s, runs, accepted, w) && w.view.Some? && w.phase.Fresh? && w.command.Some?
    ensures var (t, out) := ReviewResumed(c, w.view.value, s, w.runID, |w.base.trail|, w.base.data, w.command.value, ttl, world);
            && Inv(c, t) && Onward(s, t) && NoneActivated(s, t) && KeysInv(t, runs)
            && WorkerInv(t, runs, accepted, w.(phase := AfterReview(w.base, out, world.now)))
  {
    hide Inv, KeysInv, Onward, Edit, RejectedAt, Seen, NoneActivated, Own, Reloads, EditKey, Keyed;
    var data := w.base.data;
    var (t, out) := ReviewResumed(c, w.view.value, s, w.runID, |w.base.trail|, data, w.command.value, ttl, world);
    SameOnward(s);
    var review := data.review.value;
    var r := Own(w.view.value, data.owner, review.candidate.id);
    if r.Some? {
      ReviewedRecord(c, s, w, r.value);
      EditedReview(c, s, runs, accepted, w, r.value, w.command.value, ttl, world);
    }
  }

  // ---- Committing a decision ----

  // Nothing becomes active but one record.
  ghost predicate OneActivated(s: Repo, t: Repo, candidate: string) {
    forall id :: id in t.records && t.records[id].status.Active? && id != candidate ==> id in s.records && s.records[id] == t.records[id]
  }

  lemma TransitionEffect(c: Config, s: Repo, m: Transition)
    ensures var t := TransitionMemory(c, s, m).0;
            && OnlyKey(s, t, (m.owner, m.idempotencyKey)) && OneActivated(s, t, m.id)
            && (!m.to.Active? ==> NoneActivated(s, t))
  {
    hide Queue, Replay;
  }

  lemma ActivationEffect(c: Config, s: Repo, a: Activation, now: Time)
    ensures var t := ActivateCandidateSuperseding(c, s, a, now).0;
            OnlyKey(s, t, (a.owner, a.idempotencyKey)) && OneActivated(s, t, a.candidateID)
  {
    hide Queue, Replay, MayActivate;
  }

  lemma ResolveEffect(c: Config, view: Repo, s: Repo, runID: string, data: Data, review: Review, status: Status, w: World)
    requires Inv(c, s)
    ensures var (t, r) := Resolve(c, view, s, runID, data, review, status, w);
            && Inv(c, t) && Onward(s, t) && OnlyKey(s, t, (data.owner, CommitKey(runID)))
            && OneActivated(s, t, review.candidate.id)
            && (status.Rejected? ==> NoneActivated(s, t))
  {
    hide Inv, Onward, CommitKey, TargetOf, TransitionMemory, ActivateCandidateSuperseding, OneActivated, NoneActivated, OnlyKey;
    SameOnward(s);
    Unchanged(s, review.candidate.id, (data.owner, CommitKey(runID)));
    var actor := review.actor.0 + ":" + review.actor.1;
    if status.Active? && Superseding(data) {
      var target := TargetOf(view, data, w.now);
      if target.Some? {
        var a := Activation(data.owner, review.candidate.id, data.policy.value.targetID, review.rowVersion, target.value.rowVersion, actor,
                            "user_correction", CommitKey(runID), review.candidate.contentHash, w.now);
        StepOnward(c, s, Activating(a, w.now));
        ActivationEffect(c, s, a, w.now);
      }
    } else {
      var m := Transition(data.owner, review.candidate.id, review.rowVersion, status, actor, "user_review", CommitKey(runID),
                          review.candidate.contentHash, w.now);
      StepOnward(c, s, Transitioning(m));
      TransitionEffect(c, s, m);
    }
  }

  lemma Unchanged(s: Repo, id: string, key: (Owner, string))
    ensures OneActivated(s, s, id) && OnlyKey(s, s, key)
  {
  }

  // What committing a decision may activate: the approved candidate.
  ghost predicate ApprovedOnly(s: Repo, t: Repo, w: Worker) {
    NoneActivated(s, t) ||
      (&& w.command.Some? && w.command.value.action.ActionApprove? && w.base.data.review.Some?
       && OneActivated(s, t, w.base.data.review.value.candidate.id)
       && HashAt(t, w.base.data.review.value.candidate.id, w.base.data.review.value.candidate.contentHash))
  }

  lemma DecisionCommitted(c: Config, s: Repo, runs: map<string, Run>, accepted: set<W.ResumeCommand>, w: Worker, world: World)
    requires Inv(c, s) && KeysInv(s, runs) && WorkerInv(s, runs, accepted, w) && w.view.Some? && w.phase.Decided?
    ensures var (t, out) := CommitDecision(c, w.view.value, s, w.runID, w.phase.data, world);
            && Inv(c, t) && Onward(s, t) && KeysInv(t, runs)
            && WorkerInv(t, runs, accepted, w.(phase := AfterDecision(w.base, w.phase.data, out)))
            && ApprovedOnly(s, t, w)
  {
    hide Inv, KeysInv, Onward, Resolve, RejectedAt, HashAt, Seen, NoneActivated, OneActivated, OnlyKey, CommitKey, CommandInv;
    var data := w.phase.data;
    var (t, out) := CommitDecision(c, w.view.value, s, w.runID, data, world);
    SameOnward(s);
    if data.review.Some? && DecisionStatus(data.review.value.decision).Some? {
      var review := data.review.value;
      ResolveEffect(c, w.view.value, s, w.runID, data, review, DecisionStatus(review.decision).value, world);
      CommitKeyAdded(s, t, runs, w.runID, data.owner);
      if review.decision.Approved? {
        HashOnward(s, t, review.candidate.id, review.candidate.contentHash);
      }
    }
    WorkerOnward(s, t, runs, accepted, w);
    EndedRun(t, w, data);
    EndedRun(t, w, if out.Continues? then out.data else data);
  }

  // ---- The events ----

  lemma StoringKeeps(c: Config, sys: System, a: Action)
    requires SysInv(c, sys) && Allowed(sys, Storing(a))
    ensures SysInv(c, Next(c, sys, Storing(a)))
  {
    hide Inv, Step, RunInv, WorkerInv, KeysInv, Onward, ForeignKey;
    var t := Step(c, sys.repo, a);
    StepOnward(c, sys.repo, a);
    StoringKey(c, sys.repo, a, sys.runs);
    StoreOnward(c, sys, t);
  }

  lemma StoringKey(c: Config, s: Repo, a: Action, runs: map<string, Run>)
    requires Onward(s, Step(c, s, a)) && KeysInv(s, runs) && (KeyedAction(a) ==> ForeignKey(KeyOf(a)))
    ensures KeysInv(Step(c, s, a), runs)
  {
    hide KeysInv, Onward, EditInv, EditKey, CommitRefusal, Queue, ApplyTargets, ExpireEach, ClaimEach, IsClaim, IsExpiry, ProperMutation, MayActivate;
    var key := if KeyedAction(a) then KeyOf(a) else "";
    KeysOnward(s, Step(c, s, a), runs, (OwnerOf(a), key));
  }

  // A worker whose run goes on to a longer trail is merely behind.
  lemma WorkerBehind(s: Repo, runs: map<string, Run>, accepted: set<W.ResumeCommand>, w: Worker, runID: string, run: Run)
    requires WorkerInv(s, runs, accepted, w)
    requires runID in runs ==> runs[runID].trail <= run.trail && runs[runID].data.owner == run.data.owner
    ensures WorkerInv(s, runs[runID := run], accepted, w)
  {
    hide RunInv, Seen, DecidedInv, FinishedInv, CommandInv;
  }

  lemma StartingKeeps(c: Config, sys: System, runID: string, data: Data)
    requires SysInv(c, sys) && Allowed(sys, Starting(runID, data))
    ensures SysInv(c, Next(c, sys, Starting(runID, data)))
  {
    hide Inv, RejectedAt, WorkerInv, EditKey;
    var t := Next(c, sys, Starting(runID, data));
    forall id | id in t.workers
      ensures WorkerInv(t.repo, t.runs, t.accepted, t.workers[id])
    {
      WorkerBehind(sys.repo, sys.runs, sys.accepted, sys.workers[id], runID, Run(data, [], None, false));
    }
    forall key, other, n | key in t.repo.remembered && key.1 == EditKey(other, n)
      ensures EditInv(t.repo, t.runs, other, n)
    {
      assert EditInv(sys.repo, sys.runs, other, n);
    }
  }

  lemma ClaimedCommand(wait: W.WaitPoint, command: W.ResumeCommand, now: Time)
    requires W.ResumeRefusal(wait, command, now).None?
    ensures command.runID == wait.runID && command.contentHash == wait.contentHash
  {
  }

  lemma ClaimingKeeps(c: Config, sys: System, id: nat, runID: string, command: Option<W.ResumeCommand>, now: Time)
    requires SysInv(c, sys) && Allowed(sys, ClaimingRun(id, runID, command, now))
    ensures SysInv(c, Next(c, sys, ClaimingRun(id, runID, command, now)))
  {
    hide Inv, RejectedAt, Seen, DecidedInv, FinishedInv, KeysInv, W.ResumeRefusal;
    var t := Next(c, sys, ClaimingRun(id, runID, command, now));
    if command.Some? {
      ClaimedCommand(sys.runs[runID].pending.value, command.value, now);
    }
    forall k | k in t.workers
      ensures WorkerInv(t.repo, t.runs, t.accepted, t.workers[k])
    {
      if k != id {
        assert WorkerInv(sys.repo, sys.runs, sys.accepted, sys.workers[k]);
      } else {
        assert RunInv(sys.repo, runID, sys.runs[runID]);
      }
    }
  }

  lemma LookingKeeps(c: Config, sys: System, id: nat)
    requires SysInv(c, sys) && Allowed(sys, Looking(id))
    ensures SysInv(c, Next(c, sys, Looking(id)))
  {
    hide Inv, RunInv, DecidedInv, FinishedInv, KeysInv, CommandInv;
    assert Seen(sys.repo, sys.repo);
    var t := Next(c, sys, Looking(id));
    forall k | k in t.workers
      ensures WorkerInv(t.repo, t.runs, t.accepted, t.workers[k])
    {
      assert WorkerInv(sys.repo, sys.runs, sys.accepted, sys.workers[k]);
      if k == id {
        LookedInv(sys.repo, sys.runs, sys.accepted, sys.workers[k]);
      }
    }
  }

  lemma LookedInv(s: Repo, runs: map<string, Run>, accepted: set<W.ResumeCommand>, w: Worker)
    requires WorkerInv(s, runs, accepted, w) && Seen(s, s)
    ensures WorkerInv(s, runs, accepted, w.(view := Some(s)))
  {
  }

  // One worker executed a node on the store.
  lemma ExecutedKeeps(c: Config, sys: System, t: Repo, id: nat, w: Worker)
    requires SysInv(c, sys) && Inv(c, t) && Onward(sys.repo, t) && KeysInv(t, sys.runs)
    requires WorkerInv(t, sys.runs, sys.accepted, w)
    ensures SysInv(c, sys.(repo := t, workers := sys.workers[id := w]))
  {
    hide Inv, Onward, RunInv, WorkerInv, KeysInv;
    StoreOnward(c, sys, t);
  }

  lemma ReviewingStep(c: Config, sys: System, id: nat, ttl: int, world: World)
    requires SysInv(c, sys) && Allowed(sys, Reviewing(id, ttl, world))
    ensures var t := Next(c, sys, Reviewing(id, ttl, world)); SysInv(c, t) && NoneActivated(sys.repo, t.repo)
  {
    hide Inv, Onward, RunInv, WorkerInv, KeysInv, NoneActivated, ReviewFirst, ReviewResumed, AfterReview;
    var w := sys.workers[id];
    assert WorkerInv(sys.repo, sys.runs, sys.accepted, w);
    var (t, out) := ReviewOf(c, sys.repo, w, ttl, world);
    if w.command.None? {
      FirstReview(c, sys.repo, sys.runs, sys.accepted, w, ttl, world);
    } else {
      ResumedReview(c, sys.repo, sys.runs, sys.accepted, w, ttl, world);
    }
    ExecutedKeeps(c, sys, t, id, w.(phase := AfterReview(w.base, out, world.now)));
  }

  lemma DecidingStep(c: Config, sys: System, id: nat, world: World)
    requires SysInv(c, sys) && Allowed(sys, Deciding(id, world))
    ensures var t := Next(c, sys, Deciding(id, world)); SysInv(c, t) && ApprovedOnly(sys.repo, t.repo, sys.workers[id])
  {
    hide Inv, Onward, RunInv, WorkerInv, KeysInv, ApprovedOnly, CommitDecision, AfterDecision;
    var w := sys.workers[id];
    assert WorkerInv(sys.repo, sys.runs, sys.accepted, w);
    var (t, out) := CommitDecision(c, w.view.value, sys.repo, w.runID, w.phase.data, world);
    DecisionCommitted(c, sys.repo, sys.runs, sys.accepted, w, world);
    ExecutedKeeps(c, sys, t, id, w.(phase := AfterDecision(w.base, w.phase.data, out)));
  }

  lemma CheckpointingKeeps(c: Config, sys: System, id: nat)
    requires SysInv(c, sys) && Allowed(sys, Checkpointing(id))
    ensures SysInv(c, Next(c, sys, Checkpointing(id)))
  {
    hide Inv, RejectedAt, Seen, DecidedInv, CommandInv, EditKey, RunInv;
    var t := Next(c, sys, Checkpointing(id));
    var w := sys.workers[id];
    assert WorkerInv(sys.repo, sys.runs, sys.accepted, w);
    forall k | k in t.workers
      ensures WorkerInv(t.repo, t.runs, t.accepted, t.workers[k])
    {
      assert WorkerInv(sys.repo, sys.runs, sys.accepted, sys.workers[k]);
      if t.runs != sys.runs {
        WorkerBehind(sys.repo, sys.runs, sys.accepted, sys.workers[k], w.runID, w.phase.run);
      }
    }
    forall key, other, n | key in t.repo.remembered && key.1 == EditKey(other, n)
      ensures EditInv(t.repo, t.runs, other, n)
    {
      assert EditInv(sys.repo, sys.runs, other, n);
    }
  }

  lemma NextKeeps(c: Config, sys: System, e: Event)
    requires SysInv(c, sys)
    ensures SysInv(c, Next(c, sys, e))
  {
    hide SysInv, Step, ReviewOf, CommitDecision, ForeignKey, W.ResumeRefusal, AfterReview, AfterDecision;
    if Allowed(sys, e) {
      match e
      case Storing(a) => StoringKeeps(c, sys, a);
      case Starting(runID, data) => StartingKeeps(c, sys, runID, data);
      case ClaimingRun(id, runID, command, now) => ClaimingKeeps(c, sys, id, runID, command, now);
      case Looking(id) => LookingKeeps(c, sys, id);
      case Reviewing(id, ttl, world) => ReviewingStep(c, sys, id, ttl, world);
      case Deciding(id, world) => DecidingStep(c, sys, id, world);
      case Checkpointing(id) => CheckpointingKeeps(c, sys, id);
    }
  }

  lemma {:induction false} Reaches(c: Config, events: seq<Event>)
    ensures SysInv(c, RunAll(c, INIT, events))
    decreases |events|
  {
    hide SysInv, Next;
    if events == [] {
      InitSysInv(c);
    } else {
      Reaches(c, events[..|events| - 1]);
      NextKeeps(c, RunAll(c, INIT, events[..|events| - 1]), events[|events| - 1]);
    }
  }

  lemma InitSysInv(c: Config)
    ensures SysInv(c, INIT)
  {
    InitInv(c);
  }

  // ---- Human review ----

  // A record becomes active by a capture run only as the candidate of a run, after an
  // approve command for exactly the record's content was accepted for that run.
  lemma ActivatedAfterApproval(c: Config, events: seq<Event>, e: Event, id: string) returns (command: W.ResumeCommand)
    requires !e.Storing?
    requires var s, t := RunAll(c, INIT, events).repo, Next(c, RunAll(c, INIT, events), e).repo;
             id in t.records && t.records[id].status.Active? && (id in s.records ==> !s.records[id].status.Active?)
    ensures var sys := RunAll(c, INIT, events);
            && command in sys.accepted && command.action.ActionApprove?
            && command.contentHash == Next(c, sys, e).repo.records[id].contentHash
            && e.Deciding? && e.id in sys.workers && sys.workers[e.id].runID == command.runID
            && sys.workers[e.id].base.data.review.Some? && sys.workers[e.id].base.data.review.value.candidate.id == id
  {
    hide Inv, KeysInv, RunInv, RunAll, ReviewOf, CommitDecision, W.ResumeRefusal, AfterReview, AfterDecision, Seen;
    var sys := RunAll(c, INIT, events);
    Reaches(c, events);
    if e.Reviewing? && Allowed(sys, e) {
      ReviewingStep(c, sys, e.id, e.ttl, e.world);
    }
    if e.Deciding? && Allowed(sys, e) {
      DecidingStep(c, sys, e.id, e.world);
      assert WorkerInv(sys.repo, sys.runs, sys.accepted, sys.workers[e.id]);
      command := sys.workers[e.id].command.value;
    }
  }

  // However often a run is edited, every candidate but the last is rejected.
  lemma EarlierCandidatesRejected(c: Config, events: seq<Event>, runID: string, i: nat)
    requires var sys := RunAll(c, INIT, events); runID in sys.runs && i + 1 < |sys.runs[runID].trail|
    ensures var sys := RunAll(c, INIT, events); RejectedAt(sys.repo, sys.runs[runID].trail[i])
  {
    hide Inv, KeysInv, WorkerInv, RunAll, RejectedAt;
    Reaches(c, events);
    assert RunInv(RunAll(c, INIT, events).repo, runID, RunAll(c, INIT, events).runs[runID]);
  }
}
