// Every operation changes records only in the allowed way, and keeps the invariant.
module MemoryProofs {
  import opened Basics
  import opened MemorySpec
  import opened MemorySystem

  // ---- Targets ----

  ghost predicate DistinctTargets(targets: seq<MutationTarget>) {
    forall i, j :: 0 <= i < j < |targets| ==> targets[i].id != targets[j].id
  }

  lemma {:induction false} TargetsAccepted(records: map<string, Record>, owner: Owner, targets: seq<MutationTarget>, i: nat)
    requires TargetsRefusal(records, owner, targets).None? && i < |targets|
    ensures targets[i].id in records && records[targets[i].id].owner == owner
    ensures CanTransition(records[targets[i].id].status, targets[i].newStatus)
  {
    if i > 0 {
      TargetsAccepted(records, owner, targets[1..], i - 1);
    }
  }

  // Each target is rewritten once, from its stored value; nothing else changes.
  lemma {:induction false} TargetsApplied(records: map<string, Record>, targets: seq<MutationTarget>, newID: string, now: Time, id: string)
    requires DistinctTargets(targets)
    ensures ApplyTargets(records, targets, newID, now).Keys == records.Keys
    ensures id in records ==>
              var t := ApplyTargets(records, targets, newID, now)[id];
              || (t == records[id] && forall i :: 0 <= i < |targets| ==> targets[i].id != id)
              || exists i :: 0 <= i < |targets| && targets[i].id == id && t == Retarget(records[id], targets[i], newID, now)
    decreases |targets|
  {
    if targets != [] {
      var last := |targets| - 1;
      TargetsApplied(records, targets[..last], newID, now, id);
      if id in records && targets[last].id == id {
        assert forall i :: 0 <= i < last ==> targets[..last][i].id != id;
        assert targets[last].id == id;
      } else if id in records {
        var t := ApplyTargets(records, targets[..last], newID, now)[id];
        if i :| 0 <= i < last && targets[..last][i].id == id && t == Retarget(records[id], targets[..last][i], newID, now) {
          assert targets[i].id == id;
        } else {
          assert forall i :: 0 <= i < last ==> targets[i].id == targets[..last][i].id;
        }
      }
    }
  }

  // ---- Ranks ----

  lemma RankBound(rank: map<string, nat>) returns (b: nat)
    ensures forall id :: id in rank ==> rank[id] < b
    decreases |rank|
  {
    b := 0;
    if rank != map[] {
      var id :| id in rank;
      var rest := rank - {id};
      assert rest.Keys == rank.Keys - {id};
      b := RankBound(rest);
      b := if b <= rank[id] then rank[id] + 1 else b;
      assert forall k :: k in rank && k != id ==> rest[k] == rank[k];
    }
  }

  // New edges that all lead to one record without a successor of its own leave the
  // edges ranked: that record moves to the top.
  lemma RanksExtended(records: map<string, Record>, more: map<string, Record>, top: string)
    requires exists rank :: Ranks(records, rank)
    requires more.Keys == records.Keys + {top} && more[top].supersededBy == ""
    requires forall id :: id in records && id != top ==> more[id].supersededBy == records[id].supersededBy || more[id].supersededBy == top
    ensures exists rank :: Ranks(more, rank)
  {
    var rank :| Ranks(records, rank);
    var b := RankBound(rank);
    TopRanked(records, more, top, rank, b);
  }

  lemma TopRanked(records: map<string, Record>, more: map<string, Record>, top: string, rank: map<string, nat>, b: nat)
    requires Ranks(records, rank) && forall id :: id in rank ==> rank[id] < b
    requires more.Keys == records.Keys + {top} && more[top].supersededBy == ""
    requires forall id :: id in records && id != top ==> more[id].supersededBy == records[id].supersededBy || more[id].supersededBy == top
    ensures Ranks(more, rank[top := b])
  {
  }

  lemma RanksKept(records: map<string, Record>, more: map<string, Record>)
    requires exists rank :: Ranks(records, rank)
    requires more.Keys == records.Keys && forall id :: id in records ==> more[id].supersededBy == records[id].supersededBy
    ensures exists rank :: Ranks(more, rank)
  {
    var rank :| Ranks(records, rank);
    assert Ranks(more, rank);
  }

  // ---- One operation ----

  // What an operation of one owner may do to the records.
  ghost predicate RecordsStep(records: map<string, Record>, more: map<string, Record>, owner: Owner) {
    && (forall id :: id in records ==>
          && id in more && RecordStep(records[id], more[id])
          && (more[id] != records[id] ==> records[id].owner == owner))
    && (forall id :: id in more && id !in records ==> more[id].owner == owner)
  }

  lemma RetargetSteps(r: Record, t: MutationTarget, newID: string, now: Time)
    requires CanTransition(r.status, t.newStatus)
    ensures RecordStep(r, Retarget(r, t, newID, now))
  {
  }

  lemma CommitTarget(c: Config, s: Repo, m: Mutation, now: Time, id: string)
    requires m.newMemory.Some? && CommitRefusal(c, s, m, now).None? && ProperMutation(m) && id in s.records
    ensures var more := ApplyTargets(s.records, m.targets, m.newMemory.value.id, now);
            && more.Keys == s.records.Keys
            && RecordStep(s.records[id], more[id])
            && (more[id] != s.records[id] ==> s.records[id].owner == m.owner && !more[id].status.Active?)
            && (more[id].supersededBy == s.records[id].supersededBy || more[id].supersededBy == m.newMemory.value.id)
  {
    hide Refusal, SlotTaken;
    var newID := m.newMemory.value.id;
    TargetsApplied(s.records, m.targets, newID, now, id);
    var t := ApplyTargets(s.records, m.targets, newID, now)[id];
    if t != s.records[id] {
      var i :| 0 <= i < |m.targets| && m.targets[i].id == id && t == Retarget(s.records[id], m.targets[i], newID, now);
      TargetsAccepted(s.records, m.owner, m.targets, i);
      RetargetSteps(s.records[id], m.targets[i], newID, now);
    }
  }

  // How the rewritten targets stand to the records before.
  ghost predicate Rewritten(records: map<string, Record>, more: map<string, Record>, owner: Owner, newID: string) {
    && more.Keys == records.Keys
    && forall id :: id in records ==>
         && RecordStep(records[id], more[id])
         && more[id].owner == records[id].owner
         && (more[id] != records[id] ==> records[id].owner == owner)
         && (more[id].supersededBy == records[id].supersededBy || more[id].supersededBy == newID)
  }

  lemma CommitRewrites(c: Config, s: Repo, m: Mutation, now: Time)
    requires m.newMemory.Some? && CommitRefusal(c, s, m, now).None? && ProperMutation(m)
    ensures Rewritten(s.records, ApplyTargets(s.records, m.targets, m.newMemory.value.id, now), m.owner, m.newMemory.value.id)
  {
    hide ApplyTargets, CommitRefusal;
    var newID := m.newMemory.value.id;
    NoTargets(s.records, m.targets, newID, now);
    var more := ApplyTargets(s.records, m.targets, newID, now);
    forall id | id in s.records
      ensures RecordStep(s.records[id], more[id])
      ensures more[id].owner == s.records[id].owner
      ensures more[id] != s.records[id] ==> s.records[id].owner == m.owner
      ensures more[id].supersededBy == s.records[id].supersededBy || more[id].supersededBy == newID
    {
      CommitTarget(c, s, m, now, id);
    }
  }

  lemma CommittedRecords(c: Config, s: Repo, m: Mutation, now: Time)
    requires RecordsInv(s.records) && m.newMemory.Some? && CommitRefusal(c, s, m, now).None? && ProperMutation(m)
    ensures var more := Committed(c, s, m, now).0.records;
            RecordsInv(more) && RecordsStep(s.records, more, m.owner)
  {
    hide Committed, ApplyTargets, CommitRefusal, RecordStep, Queue, Ranks, RecordInv, ValidIdentifier;
    CommittedAre(c, s, m, now);
    var value := m.newMemory.value.(createdAt := now, updatedAt := now);
    var rewritten := ApplyTargets(s.records, m.targets, value.id, now);
    var more := Committed(c, s, m, now).0.records;
    NewRecord(c, s, m, now);
    CommitRewrites(c, s, m, now);
    assert more == rewritten[value.id := value];
    forall id | id in more
      ensures RecordInv(more, id)
    {
      if id in s.records {
        StepKeepsRecordInv(s.records, more, id, value.id);
      } else {
        FreshRecordInv(more, id);
      }
    }
    RanksExtended(s.records, more, value.id);
  }

  lemma CommittedAre(c: Config, s: Repo, m: Mutation, now: Time)
    requires m.newMemory.Some?
    ensures var value := m.newMemory.value.(createdAt := now, updatedAt := now);
            Committed(c, s, m, now).0.records == ApplyTargets(s.records, m.targets, value.id, now)[value.id := value]
  {
    hide ApplyTargets, Queue;
  }

  lemma FreshRecordInv(records: map<string, Record>, id: string)
    requires id in records && records[id].id == id && ValidIdentifier(id) && records[id].supersededBy == ""
    ensures RecordInv(records, id)
  {
  }

  lemma {:induction false} NoTargets(records: map<string, Record>, targets: seq<MutationTarget>, newID: string, now: Time)
    ensures ApplyTargets(records, targets, newID, now).Keys == records.Keys
  {
    if targets != [] {
      NoTargets(records, targets[..|targets| - 1], newID, now);
    }
  }

  lemma NewRecord(c: Config, s: Repo, m: Mutation, now: Time)
    requires m.newMemory.Some? && CommitRefusal(c, s, m, now).None?
    ensures var value := m.newMemory.value; value.id !in s.records && ValidIdentifier(value.id) && value.owner == m.owner
  {
  }

  // A stepped record keeps its invariant when its successor, if new, is there.
  lemma StepKeepsRecordInv(records: map<string, Record>, more: map<string, Record>, id: string, newID: string)
    requires id in records && RecordInv(records, id) && id in more && RecordStep(records[id], more[id])
    requires more[id].supersededBy == records[id].supersededBy || more[id].supersededBy == newID
    requires newID in more && (more[id] != records[id] ==> more[newID].owner == records[id].owner)
    requires forall k :: k in records ==> k in more && more[k].owner == records[k].owner
    ensures RecordInv(more, id)
  {
  }

  // A change that gives no record a new successor.
  lemma PlainRecords(records: map<string, Record>, more: map<string, Record>, owner: Owner)
    requires RecordsInv(records) && RecordsStep(records, more, owner) && more.Keys == records.Keys
    requires forall id :: id in records ==> more[id].supersededBy == records[id].supersededBy
    ensures RecordsInv(more)
  {
    hide Ranks, ValidIdentifier;
    forall id | id in more
      ensures RecordInv(more, id)
    {
      assert RecordInv(records, id) && RecordStep(records[id], more[id]);
    }
    RanksKept(records, more);
  }

  lemma OneMoved(records: map<string, Record>, id: string, to: Status, now: Time)
    requires RecordsInv(records) && id in records && CanTransition(records[id].status, to)
    ensures var more := records[id := Moved(records[id], to, now)];
            RecordsInv(more) && RecordsStep(records, more, records[id].owner)
  {
    hide RecordInv, Ranks, RecordsInv;
    PlainRecords(records, records[id := Moved(records[id], to, now)], records[id].owner);
  }

  lemma TransitionedRecords(c: Config, s: Repo, t: Transition)
    requires RecordsInv(s.records)
    ensures var more := TransitionMemory(c, s, t).0.records;
            RecordsInv(more) && RecordsStep(s.records, more, t.owner)
  {
    hide RecordStep, RecordsStep, Queue, Replay, RecordsInv;
    var more := TransitionMemory(c, s, t).0.records;
    if more != s.records {
      OneMoved(s.records, t.id, t.to, t.occurredAt);
    } else {
      RecordsUnchanged(s, s, t.owner);
    }
  }

  lemma ExpiredRecords(s: Repo, owner: Owner, now: Time, ids: set<string>)
    requires RecordsInv(s.records) && ids <= ExpiringIDs(s, owner, now)
    ensures var more := Expire(s, owner, now, ids).records;
            RecordsInv(more) && RecordsStep(s.records, more, owner)
  {
    hide RecordInv, Ranks;
    var more := Expire(s, owner, now, ids).records;
    forall id | id in s.records
      ensures id in more && RecordStep(s.records[id], more[id]) && more[id].supersededBy == s.records[id].supersededBy
      ensures more[id] != s.records[id] ==> s.records[id].owner == owner
    {
      if id in ids {
        assert id in ExpiringIDs(s, owner, now);
      }
    }
    PlainRecords(s.records, more, owner);
  }

  lemma ActivatedRecords(c: Config, s: Repo, a: Activation, now: Time)
    requires RecordsInv(s.records) && ValidActivation(a) && a.candidateID in s.records && a.supersededID in s.records
    requires s.records[a.candidateID].owner == a.owner && s.records[a.supersededID].owner == a.owner
    requires MayActivate(s.records[a.candidateID], s.records[a.supersededID], a)
    ensures var more := Activated(c, s, a, now).0.records;
            RecordsInv(more) && RecordsStep(s.records, more, a.owner)
  {
    hide Activated, MayActivate, Ranks, RecordStep, ValidIdentifier;
    ActivatedAre(c, s, a, now);
    var more := Activated(c, s, a, now).0.records;
    assert RecordInv(s.records, a.candidateID);
    forall id | id in more
      ensures RecordInv(more, id)
    {
      assert RecordInv(s.records, id);
      StepKeepsRecordInv(s.records, more, id, a.candidateID);
    }
    RanksExtended(s.records, more, a.candidateID);
  }

  // An activation moves two records by one step each, and leaves the candidate without
  // a successor as it was.
  lemma ActivatedAre(c: Config, s: Repo, a: Activation, now: Time)
    requires ValidActivation(a) && a.candidateID in s.records && a.supersededID in s.records
    requires MayActivate(s.records[a.candidateID], s.records[a.supersededID], a)
    ensures var more := Activated(c, s, a, now).0.records;
            && more.Keys == s.records.Keys
            && (forall id :: id in more ==> RecordStep(s.records[id], more[id]) && more[id].owner == s.records[id].owner)
            && (forall id :: id in more && id != a.supersededID ==> more[id].supersededBy == s.records[id].supersededBy)
            && (forall id :: id in more && id != a.supersededID && id != a.candidateID ==> more[id] == s.records[id])
            && more[a.supersededID].supersededBy == a.candidateID && s.records[a.candidateID].status.Candidate?
  {
    hide Queue;
  }

  // ---- The outbox ----

  lemma QueueKeepsRows(c: Config, projections: map<string, Projection>, owner: Owner, r: Record, now: Time)
    requires forall id :: id in projections ==> RowInv(c, projections, id)
    ensures var t := Queue(c, projections, owner, r, now);
            && (forall id :: id in t ==> RowInv(c, t, id))
            && projections.Keys <= t.Keys
            && (r.owner == owner ==> Queued(c, t, r))
            && (forall id :: id in t && (id in projections ==> t[id] != projections[id]) ==>
                  t[id].memoryID == r.id && t[id].owner == owner && t[id].contentHash == r.contentHash)
  {
    hide ProjectionID;
  }

  lemma RecordKept(records: map<string, Record>, more: map<string, Record>, owner: Owner, id: string)
    requires RecordsStep(records, more, owner) && id in records
    ensures id in more && more[id].owner == records[id].owner && more[id].contentHash == records[id].contentHash
  {
  }

  // Rows stay, and whatever is newly active has one.
  lemma StepKeepsQueued(c: Config, s: Repo, t: Repo, owner: Owner)
    requires OutboxInv(c, s) && s.projections.Keys <= t.projections.Keys
    requires forall id :: id in t.projections ==> RowInv(c, t.projections, id)
    requires forall id :: id in t.projections && (id in s.projections ==> t.projections[id] != s.projections[id]) ==>
               RowRecord(t.records, t.projections[id])
    requires RecordsStep(s.records, t.records, owner)
    requires forall id :: id in t.records && (id in s.records ==> t.records[id] != s.records[id]) ==> Queued(c, t.projections, t.records[id])
    ensures OutboxInv(c, t)
  {
    hide RowInv, ProjectionID;
    forall id | id in t.records
      ensures Queued(c, t.projections, t.records[id])
    {
      if id in s.records && t.records[id] == s.records[id] {
        assert Queued(c, s.projections, s.records[id]);
      }
    }
    forall id | id in t.projections
      ensures RowRecord(t.records, t.projections[id])
    {
      if id in s.projections && t.projections[id] == s.projections[id] {
        assert RowRecord(s.records, s.projections[id]);
        RecordKept(s.records, t.records, owner, s.projections[id].memoryID);
      }
    }
  }

  lemma CommittedQueued(c: Config, s: Repo, m: Mutation, now: Time)
    requires Inv(c, s) && m.newMemory.Some? && CommitRefusal(c, s, m, now).None? && ProperMutation(m)
    ensures OutboxInv(c, Committed(c, s, m, now).0)
  {
    hide ApplyTargets, CommitRefusal, RecordStep, RecordsInv, Queue, RowInv, ProjectionID;
    var t := Committed(c, s, m, now).0;
    var value := m.newMemory.value.(createdAt := now, updatedAt := now);
    NewRecord(c, s, m, now);
    CommittedRecords(c, s, m, now);
    CommitRewrites(c, s, m, now);
    QueueKeepsRows(c, s.projections, m.owner, value, now);
    forall id | id in t.records && (id in s.records ==> t.records[id] != s.records[id])
      ensures Queued(c, t.projections, t.records[id])
    {
      if id in s.records {
        CommitTarget(c, s, m, now, id);
      }
    }
    StepKeepsQueued(c, s, t, m.owner);
  }

  lemma FiledUnderID(records: map<string, Record>, id: string)
    requires RecordsInv(records) && id in records
    ensures records[id].id == id
  {
  }

  lemma TransitionedQueued(c: Config, s: Repo, m: Transition)
    requires Inv(c, s)
    ensures OutboxInv(c, TransitionMemory(c, s, m).0)
  {
    hide RecordsInv, Queue, RowInv, ProjectionID, Queued;
    var t := TransitionMemory(c, s, m).0;
    if t != s {
      TransitionedRecords(c, s, m);
      FiledUnderID(s.records, m.id);
      QueueKeepsRows(c, s.projections, m.owner, t.records[m.id], m.occurredAt);
      StepKeepsQueued(c, s, t, m.owner);
    }
  }

  lemma ActivatedQueued(c: Config, s: Repo, a: Activation, now: Time)
    requires Inv(c, s) && ValidActivation(a) && a.candidateID in s.records && a.supersededID in s.records
    requires s.records[a.candidateID].owner == a.owner && s.records[a.supersededID].owner == a.owner
    requires MayActivate(s.records[a.candidateID], s.records[a.supersededID], a)
    ensures OutboxInv(c, Activated(c, s, a, now).0)
  {
    hide RecordsInv, RecordsStep, Queue, RowInv, ProjectionID;
    var t := Activated(c, s, a, now).0;
    ActivatedRecords(c, s, a, now);
    FiledUnderID(s.records, a.candidateID);
    QueueKeepsRows(c, s.projections, a.owner, t.records[a.candidateID], now);
    StepKeepsQueued(c, s, t, a.owner);
  }

  lemma ExpiredQueued(c: Config, s: Repo, owner: Owner, now: Time, ids: set<string>)
    requires Inv(c, s) && ids <= ExpiringIDs(s, owner, now)
    ensures OutboxInv(c, Expire(s, owner, now, ids))
  {
    hide RecordsInv, RowInv, ProjectionID, ExpiringIDs, RecordStep;
    ExpiredRecords(s, owner, now, ids);
    StepKeepsQueued(c, s, Expire(s, owner, now, ids), owner);
  }

  // Rows change their status, attempts and times only.
  predicate SameRow(p: Projection, q: Projection) {
    q == p.(status := q.status, attempt := q.attempt, availableAt := q.availableAt, claimedAt := q.claimedAt,
            processedAt := q.processedAt, lastErrorCode := q.lastErrorCode)
  }

  ghost predicate SameRows(projections: map<string, Projection>, more: map<string, Projection>) {
    more.Keys == projections.Keys && forall id :: id in projections ==> SameRow(projections[id], more[id])
  }

  lemma RowsKept(c: Config, s: Repo, t: Repo)
    requires OutboxInv(c, s) && t.records == s.records && SameRows(s.projections, t.projections)
    ensures OutboxInv(c, t)
  {
    hide ProjectionID;
    forall id | id in t.projections
      ensures RowInv(c, t.projections, id) && RowRecord(t.records, t.projections[id])
    {
      assert RowInv(c, s.projections, id) && RowRecord(s.records, s.projections[id]);
    }
    forall id | id in t.records
      ensures Queued(c, t.projections, t.records[id])
    {
      assert Queued(c, s.projections, s.records[id]);
    }
  }

  // ---- Versions ----

  // An operation of one owner counts itself when it changes that owner's records.
  ghost predicate Counted(s: Repo, t: Repo, owner: Owner) {
    && (forall o :: o != owner ==> Version(t, o) == Version(s, o))
    && (Version(t, owner) == Version(s, owner) + 1 || (t.versions == s.versions && t.records == s.records))
  }

  function OwnerOf(a: Action): Owner {
    match a
    case Committing(m, _) => m.owner
    case Transitioning(t) => t.owner
    case Activating(act, _) => act.owner
    case Expiring(owner, _, _, _) => owner
    case Claiming(_, _, _) => Owner(0, 0)
    case Completing(owner, _, _) => owner
    case Failing(owner, _, _, _, _) => owner
  }

  lemma StepCounted(c: Config, s: Repo, a: Action)
    ensures Counted(s, Step(c, s, a), OwnerOf(a))
  {
    hide Queue, ApplyTargets, CommitRefusal, ExpireEach, Replay, ClaimEach, IsClaim, IsExpiry, ProperMutation, MayActivate, ValidActivation;
  }

  // ---- Every step ----

  lemma RecordsUnchanged(s: Repo, t: Repo, owner: Owner)
    requires t.records == s.records
    ensures RecordsStep(s.records, t.records, owner)
    ensures RecordsInv(s.records) ==> RecordsInv(t.records)
  {
  }

  lemma ProjectionStepKeeps(c: Config, s: Repo, a: Action)
    requires Inv(c, s) && (a.Claiming? || a.Completing? || a.Failing?)
    ensures Step(c, s, a).records == s.records && OutboxInv(c, Step(c, s, a))
  {
    hide RecordsInv, OutboxInv, CommitMutation, TransitionMemory, ActivateCandidateSuperseding, Expire, IsExpiry, ProperMutation, IsClaim;
    RowsKept(c, s, Step(c, s, a));
  }

  lemma StepKeeps(c: Config, s: Repo, a: Action)
    requires Inv(c, s)
    ensures Inv(c, Step(c, s, a)) && RecordsStep(s.records, Step(c, s, a).records, OwnerOf(a))
  {
    hide RecordsInv, OutboxInv, RecordsStep, Committed, Activated, CommitRefusal, Replay, ExpiringIDs;
    var t := Step(c, s, a);
    RecordsUnchanged(s, s, OwnerOf(a));
    if Enabled(s, a) && t != s {
      match a
      case Committing(m, clock) =>
        CommittedRecords(c, s, m, Now(m.occurredAt, clock));
        CommittedQueued(c, s, m, Now(m.occurredAt, clock));
      case Transitioning(m) =>
        TransitionedRecords(c, s, m);
        TransitionedQueued(c, s, m);
      case Activating(m, clock) =>
        ActivatedRecords(c, s, m, Now(m.occurredAt, clock));
        ActivatedQueued(c, s, m, Now(m.occurredAt, clock));
      case Expiring(owner, now, limit, ids) =>
        ExpiredRecords(s, owner, now, ids);
        ExpiredQueued(c, s, owner, now, ids);
      case _ =>
        ProjectionStepKeeps(c, s, a);
        RecordsUnchanged(s, t, OwnerOf(a));
    }
  }

  lemma InitInv(c: Config)
    ensures Inv(c, EMPTY_REPO)
  {
    var rank: map<string, nat> := map[];
    assert Ranks(EMPTY_REPO.records, rank);
  }

  lemma {:induction false} Reachable(c: Config, actions: seq<Action>)
    ensures Inv(c, Exec(c, EMPTY_REPO, actions))
    decreases |actions|
  {
    if actions == [] {
      InitInv(c);
    } else {
      Reachable(c, actions[..|actions| - 1]);
      StepKeeps(c, Exec(c, EMPTY_REPO, actions[..|actions| - 1]), actions[|actions| - 1]);
    }
  }
}
