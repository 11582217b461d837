// The review and commit nodes over the store object, with nobody else in between.
module MemoryCapture {
  import opened Basics
  import opened MemorySpec
  import opened MemoryRepository
  import opened CaptureSpec
  import Spec = CaptureSpec
  import W = WorkflowCore

  class CaptureNodes {
    const repository: FakeRepository
    const ttl: int

    constructor (repository: FakeRepository, ttl: int)
      ensures this.repository == repository && this.ttl == ttl
    {
      this.repository, this.ttl := repository, ttl;
    }

    method GetOwn(owner: Owner, id: string) returns (r: Option<Record>)
      ensures r == Own(repository.Contents(), owner, id)
    {
      var values := repository.BatchGet(owner, [id]);
      assert [id][..0] == [];
      r := if |values| == 1 then Some(values[0]) else None;
    }

    method GetActive(owner: Owner, id: string, now: Time) returns (r: Option<Record>)
      ensures r == OwnActive(repository.Contents(), owner, id, now)
    {
      r := GetOwn(owner, id);
      if r.Some? && !ActiveAt(r.value, now) {
        r := None;
      }
    }

    // Every referenced record is fetched, then checked in order.
    method Reload(owner: Owner, refs: seq<MemoryRef>, now: Time) returns (ok: bool)
      ensures ok == Reloads(repository.Contents(), owner, refs, now)
    {
      if refs == [] {
        return true;
      }
      if !ValidOwner(owner) || |refs| > MAX_REFS {
        return false;
      }
      for i := 0 to |refs|
        invariant forall k :: 0 <= k < i ==>
                    var r := OwnActive(repository.Contents(), owner, refs[k].id, now); r.Some? && RefOf(r.value) == refs[k]
      {
        var r := GetActive(owner, refs[i].id, now);
        if r.None? || RefOf(r.value) != refs[i] {
          return false;
        }
      }
      return true;
    }

    method CreateCandidate(key: string, data: Data, d: Draft, replaced: Option<Record>, w: World) returns (r: Option<Record>)
      modifies repository
      ensures (repository.Contents(), r) ==
                Spec.CreateCandidate(repository.config, old(repository.Contents()), old(repository.Contents()), key, data, d, replaced, w)
    {
      hide MemorySpec.CommitMutation, DraftRecord, OwnActive;
      var record := DraftRecord(data.owner, d, w);
      var targets: seq<MutationTarget> := [];
      if replaced.Some? {
        record := record.(lineageID := replaced.value.lineageID, lineageVersion := replaced.value.lineageVersion + 1,
                          supersedesID := replaced.value.id);
        targets := [MutationTarget(replaced.value.id, replaced.value.rowVersion, Status.Rejected)];
      }
      if Superseding(data) {
        var target := GetActive(data.owner, data.policy.value.targetID, w.now);
        if target.None? {
          return None;
        }
        if replaced.None? {
          record := record.(lineageID := target.value.lineageID, lineageVersion := target.value.lineageVersion + 1);
        }
        record := record.(supersedesID := target.value.id);
      }
      var m := Mutation(record.owner, Some(record), targets, [], "workflow", "review_candidate", key, record.contentHash, w.now);
      var result := repository.CommitMutation(m, w.now);
      return if result.Ok? then Some(result.value.memory) else None;
    }

    method Review(runID: string, candidates: nat, data: Data, resume: Option<W.ResumeCommand>, w: World) returns (out: Output)
      modifies repository
      ensures var s := old(repository.Contents());
              (repository.Contents(), out) ==
                match resume
                case None => ReviewFirst(repository.config, s, s, runID, data, ttl, w)
                case Some(command) => ReviewResumed(repository.config, s, s, runID, candidates, data, command, ttl, w)
    {
      hide Reloads, Spec.CreateCandidate, Reviewable, Suspend;
      if data.draft.None? || ttl <= 0 {
        return Failed;
      }
      if resume.None? {
        if data.policy.Some? && data.policy.value.action.ActionNoop? {
          var target := GetActive(data.owner, data.policy.value.targetID, w.now);
          return if target.None? then Failed else Continues(data.(committed := Some(RefOf(target.value))));
        }
        var created := CreateCandidate(FirstKey(runID), data, data.draft.value, None, w);
        if created.None? {
          return Failed;
        }
        return Suspend(runID, data, Spec.Review(RefOf(created.value), created.value.rowVersion, 1, Undecided, ("", ""), ""), ttl, w);
      }
      var ok := Reload(data.owner, data.refs, w.now);
      if !ok || w.actor.None? || data.review.None? {
        return Failed;
      }
      var review := data.review.value;
      var record := GetOwn(data.owner, review.candidate.id);
      var command := resume.value;
      if record.None? || !Reviewable(record.value, review, command.action) {
        return Failed;
      }
      match command.action
      case ActionApprove =>
        return Continues(data.(review := Some(review.(actor := w.actor.value, decision := Approved))));
      case ActionReject =>
        return Continues(data.(review := Some(review.(actor := w.actor.value, decision := Decision.Rejected))));
      case ActionSubmitEdit =>
        if command.payloadRef == "" || w.edited.None? || w.refs.None? || w.policy.None? {
          return Failed;
        }
        var created := CreateCandidate(EditKey(runID, candidates), data, w.edited.value, record, w);
        if created.None? {
          return Failed;
        }
        var edited := data.(draft := w.edited, policy := w.policy, refs := w.refs.value);
        return Suspend(runID, edited, Spec.Review(RefOf(created.value), created.value.rowVersion, review.waitVersion + 1, Undecided, ("", ""),
                                                  command.payloadRef), ttl, w);
      case _ =>
        return Failed;
    }

    method Commit(runID: string, data: Data, w: World) returns (out: Output)
      modifies repository
      ensures var s := old(repository.Contents());
              (repository.Contents(), out) == CommitDecision(repository.config, s, s, runID, data, w)
    {
      if data.review.None? {
        return if data.committed.Some? && data.policy.Some? && data.policy.value.action.ActionNoop? then Continues(data) else Failed;
      }
      var review := data.review.value;
      if review.decision.Undecided? {
        return Failed;
      }
      var actor := review.actor.0 + ":" + review.actor.1;
      var result: Result<MutationResult>;
      if review.decision.Approved? && Superseding(data) {
        var target := GetActive(data.owner, data.policy.value.targetID, w.now);
        if target.None? {
          return Failed;
        }
        result := repository.ActivateCandidateSuperseding(
          Activation(data.owner, review.candidate.id, data.policy.value.targetID, review.rowVersion, target.value.rowVersion, actor,
                     "user_correction", CommitKey(runID), review.candidate.contentHash, w.now), w.now);
      } else {
        var status := if review.decision.Approved? then Active else Status.Rejected;
        result := repository.TransitionMemory(
          Transition(data.owner, review.candidate.id, review.rowVersion, status, actor, "user_review", CommitKey(runID),
                     review.candidate.contentHash, w.now));
      }
      return if result.Err? then Failed else Continues(data.(committed := Some(RefOf(result.value.memory))));
    }
  }
}
