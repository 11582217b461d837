// What each accepted operation of the memory store makes of it, told over the stored
// statuses, versions and outbox rows, and what stays true of it afterwards.
module MemoryEffects {
  import opened Basics
  import opened Ordering
  import opened Scans
  import opened MemorySpec
  import opened MemorySystem
  import opened MemoryProofs
  import opened MemoryTheorems

  // ---- The outbox and the version counter ----

  // The row an activated record waits in: pending, never tried, available at once.
  ghost predicate QueuedNow(c: Config, s: Repo, r: Record, now: Time) {
    var key := ProjectionID(r.owner, r.id, r.contentHash, c.projectionVersion);
    && key in s.projections
    && var p := s.projections[key];
       && p.id == key && p.owner == r.owner && p.memoryID == r.id && p.contentHash == r.contentHash && p.modelVersion == c.projectionVersion
       && p.status.ProjectionPending? && p.attempt == 0 && p.availableAt == now && p.claimedAt.None? && p.processedAt.None?
  }

  // Nothing but that row changed, and that only for an active record.
  ghost predicate OnlyRow(c: Config, s: Repo, t: Repo, r: Record) {
    forall key :: (key in s.projections || key in t.projections)
                  && !(r.status.Active? && key == ProjectionID(r.owner, r.id, r.contentHash, c.projectionVersion)) ==>
      key in s.projections && key in t.projections && t.projections[key] == s.projections[key]
  }

  // The answer is remembered under the key, and the owner's version moved on by one.
  ghost predicate Counted(s: Repo, t: Repo, owner: Owner, key: string, inputHash: string, result: MutationResult) {
    && t.remembered == s.remembered[(owner, key) := Remembered(result, inputHash)]
    && Version(t, owner) == Version(s, owner) + 1
    && forall other :: other != owner ==> Version(t, other) == Version(s, other)
  }

  lemma QueuedRow(c: Config, s: Repo, owner: Owner, r: Record, now: Time)
    requires r.owner == owner
    ensures var t := s.(projections := Queue(c, s.projections, owner, r, now));
            OnlyRow(c, s, t, r) && (r.status.Active? ==> QueuedNow(c, t, r, now))
  {
    hide ProjectionID;
  }

  // ---- Activation ----

  // An activation is made exactly for the owner's candidate and active target at the
  // versions given, the candidate superseding the target as a later version of its
  // lineage.
  lemma ActivatedExactly(c: Config, s: Repo, a: Activation, clock: Time)
    requires (a.owner, a.idempotencyKey) !in s.remembered
    ensures ActivateCandidateSuperseding(c, s, a, clock).1.Ok? <==>
              && a.owner.tenantID != 0 && a.owner.userID != 0 && a.candidateID != "" && a.supersededID != "" && a.candidateID != a.supersededID
              && a.candidateVersion != 0 && a.targetVersion != 0 && a.idempotencyKey != "" && a.inputHash != ""
              && c.auditRefusal(a.actor, a.reasonCode).None?
              && a.candidateID in s.records && a.supersededID in s.records
              && var candidate, target := s.records[a.candidateID], s.records[a.supersededID];
                 && candidate.owner == a.owner && target.owner == a.owner
                 && candidate.rowVersion == a.candidateVersion && target.rowVersion == a.targetVersion
                 && candidate.status.Candidate? && target.status.Active? && candidate.supersedesID == target.id
                 && candidate.lineageID == target.lineageID && candidate.lineageVersion > target.lineageVersion
  {
  }

  // It makes the candidate active and the target superseded by it, each one version on,
  // queues the candidate, and changes no other record and no other row.
  ghost predicate ActivationDone(c: Config, s: Repo, t: Repo, a: Activation, now: Time)
    requires a.candidateID in s.records && a.supersededID in s.records
  {
    var candidate, target := s.records[a.candidateID], s.records[a.supersededID];
    && t.records.Keys == s.records.Keys
    && t.records[a.candidateID] == candidate.(status := Active, rowVersion := candidate.rowVersion + 1, updatedAt := now)
    && t.records[a.supersededID] == target.(status := Superseded, supersededBy := a.candidateID, rowVersion := target.rowVersion + 1, updatedAt := now)
    && (forall id :: id in s.records && id != a.candidateID && id != a.supersededID ==> t.records[id] == s.records[id])
    && QueuedNow(c, t, t.records[a.candidateID], now) && OnlyRow(c, s, t, t.records[a.candidateID])
  }

  lemma ActivationMade(c: Config, s: Repo, a: Activation, clock: Time)
    requires (a.owner, a.idempotencyKey) !in s.remembered && ActivateCandidateSuperseding(c, s, a, clock).1.Ok?
    ensures var (t, r) := ActivateCandidateSuperseding(c, s, a, clock);
            var now := if a.occurredAt == ZERO_TIME then clock else a.occurredAt;
            && a.candidateID in s.records && a.supersededID in s.records
            && ActivationDone(c, s, t, a, now)
            && r.value.memory == t.records[a.candidateID] && !r.value.replayed
            && Counted(s, t, a.owner, a.idempotencyKey, a.inputHash, r.value)
  {
    hide Queue, QueuedNow, OnlyRow;
    var t := ActivateCandidateSuperseding(c, s, a, clock).0;
    var now := Now(a.occurredAt, clock);
    QueuedRow(c, s, a.owner, t.records[a.candidateID], now);
    RowsAlone(c, s.(projections := Queue(c, s.projections, a.owner, t.records[a.candidateID], now)), t, s, t.records[a.candidateID], now);
  }

  // The predicates about rows look at nothing else.
  lemma RowsAlone(c: Config, a: Repo, b: Repo, s: Repo, r: Record, now: Time)
    requires a.projections == b.projections
    ensures QueuedNow(c, a, r, now) == QueuedNow(c, b, r, now) && OnlyRow(c, s, a, r) == OnlyRow(c, s, b, r)
  {
  }

  // And afterwards, whatever follows, the candidate is active until it becomes obsolete,
  // never a candidate again, and the target stays superseded by it.
  lemma ActivationHolds(c: Config, before: seq<Action>, a: Activation, clock: Time, after: seq<Action>)
    requires var s := Exec(c, EMPTY_REPO, before);
             (a.owner, a.idempotencyKey) !in s.remembered && ActivateCandidateSuperseding(c, s, a, clock).1.Ok?
    ensures var records := Exec(c, EMPTY_REPO, before + [Activating(a, clock)] + after).records;
            && a.candidateID in records && a.supersededID in records
            && (records[a.candidateID].status.Active? || Obsolete(records[a.candidateID].status))
            && records[a.supersededID].status.Superseded? && records[a.supersededID].supersededBy == a.candidateID
  {
    hide Inv, Exec, Step, ActivateCandidateSuperseding, QueuedNow, OnlyRow;
    var s := Exec(c, EMPTY_REPO, before);
    var t := ActivateCandidateSuperseding(c, s, a, clock).0;
    Reachable(c, before);
    StepKeeps(c, s, Activating(a, clock));
    StepActivates(c, s, a, clock);
    ActivationMade(c, s, a, clock);
    ExecAppend(c, EMPTY_REPO, before, [Activating(a, clock)]);
    ExecOnce(c, s, Activating(a, clock));
    ExecAppend(c, EMPTY_REPO, before + [Activating(a, clock)], after);
    RecordsRun(c, t, after, a.supersededID);
    RecordsRun(c, t, after, a.candidateID);
  }

  lemma StepActivates(c: Config, s: Repo, a: Activation, clock: Time)
    ensures Step(c, s, Activating(a, clock)) == ActivateCandidateSuperseding(c, s, a, clock).0
  {
  }

  lemma ExecOnce(c: Config, s: Repo, a: Action)
    ensures Exec(c, s, [a]) == Step(c, s, a)
  {
    hide Step;
    assert [a][..0] == [];
    assert Exec(c, s, []) == s;
  }

  // ---- Transitions ----

  lemma TransitionedExactly(c: Config, s: Repo, m: Transition)
    requires (m.owner, m.idempotencyKey) !in s.remembered
    ensures TransitionMemory(c, s, m).1.Ok? <==>
              && c.auditRefusal(m.actor, m.reasonCode).None?
              && m.id in s.records && s.records[m.id].owner == m.owner && s.records[m.id].rowVersion == m.rowVersion
              && (|| (s.records[m.id].status.Candidate? && (m.to.Active? || m.to.Rejected? || m.to.Expired?))
                  || (s.records[m.id].status.Active? && (m.to.Superseded? || m.to.Revoked? || m.to.Expired?)))
  {
  }

  // A transition moves its record to the status asked for, one version on, queues it if
  // it became active, and changes no other record and no other row.
  lemma TransitionMade(c: Config, s: Repo, m: Transition)
    requires (m.owner, m.idempotencyKey) !in s.remembered && TransitionMemory(c, s, m).1.Ok? && s.records[m.id].id == m.id
    ensures var (t, r) := TransitionMemory(c, s, m);
            && m.id in s.records
            && t.records == s.records[m.id := s.records[m.id].(status := m.to, rowVersion := m.rowVersion + 1, updatedAt := m.occurredAt)]
            && OnlyRow(c, s, t, t.records[m.id]) && (m.to.Active? ==> QueuedNow(c, t, t.records[m.id], m.occurredAt))
            && r.value.memory == t.records[m.id] && !r.value.replayed
            && Counted(s, t, m.owner, m.idempotencyKey, m.inputHash, r.value)
  {
    hide Queue, QueuedNow, OnlyRow;
    var t := TransitionMemory(c, s, m).0;
    QueuedRow(c, s, m.owner, t.records[m.id], m.occurredAt);
    RowsAlone(c, s.(projections := Queue(c, s.projections, m.owner, t.records[m.id], m.occurredAt)), t, s, t.records[m.id], m.occurredAt);
  }

  // ---- Mutations ----

  // The owner's record at the version given, and a status it may move to.
  predicate Targetable(records: map<string, Record>, owner: Owner, t: MutationTarget) {
    && t.id in records && records[t.id].owner == owner && records[t.id].rowVersion == t.rowVersion
    && (|| (records[t.id].status.Candidate? && (t.newStatus.Active? || t.newStatus.Rejected? || t.newStatus.Expired?))
        || (records[t.id].status.Active? && (t.newStatus.Superseded? || t.newStatus.Revoked? || t.newStatus.Expired?)))
  }

  lemma {:induction false} TargetsExactly(records: map<string, Record>, owner: Owner, targets: seq<MutationTarget>)
    ensures TargetsRefusal(records, owner, targets).None? <==> forall i :: 0 <= i < |targets| ==> Targetable(records, owner, targets[i])
  {
    if targets != [] {
      TargetsExactly(records, owner, targets[1..]);
      assert forall i :: 1 <= i < |targets| ==> targets[i] == targets[1..][i - 1];
      if TargetsRefusal(records, owner, targets).None? {
        assert Targetable(records, owner, targets[0]);
        assert TargetsRefusal(records, owner, targets[1..]).None?;
      }
    }
  }

  // The slot of an active record: one owner's name in a scope.
  predicate SameSlot(a: Record, b: Record) {
    a.owner == b.owner && a.scope == b.scope && a.namespace == b.namespace && a.slotKey == b.slotKey
  }

  // A mutation is made exactly when the new record is valid, the owner's and new, every
  // target may move as asked, and an active record's slot is free or freed by superseding
  // its holder.
  lemma MutatedExactly(c: Config, s: Repo, m: Mutation, clock: Time)
    requires (m.owner, m.idempotencyKey) !in s.remembered && m.newMemory.Some? && forall id :: id in s.records ==> s.records[id].id == id
    ensures var now := if m.occurredAt == ZERO_TIME then clock else m.occurredAt;
            var value := m.newMemory.value;
            CommitMutation(c, s, m, clock).1.Ok? <==>
              && m.owner.tenantID != 0 && m.owner.userID != 0 && m.idempotencyKey != "" && m.inputHash != ""
              && c.auditRefusal(m.actor, m.reasonCode).None? && Refusal(c, value, now).None?
              && value.owner == m.owner && value.id !in s.records
              && (forall i :: 0 <= i < |m.targets| ==> Targetable(s.records, m.owner, m.targets[i]))
              && (value.status.Active? && value.slotKey != "" ==>
                    forall id :: id in s.records && s.records[id].status.Active? && SameSlot(s.records[id], value) ==>
                      exists i :: 0 <= i < |m.targets| && m.targets[i].id == id && m.targets[i].newStatus.Superseded?)
  {
    hide Refusal, TargetsRefusal, Targetable;
    TargetsExactly(s.records, m.owner, m.targets);
  }

  // It stores the new record as given, moves every target to the status asked for, one
  // version on, with the new record as successor where superseded, queues the new record
  // if active, and changes nothing else.
  ghost predicate MutationDone(s: Repo, t: Repo, m: Mutation, value: Record, now: Time) {
    && value.id in t.records && t.records[value.id] == value.(createdAt := now, updatedAt := now)
    && t.records.Keys == s.records.Keys + {value.id}
    && (forall i :: 0 <= i < |m.targets| ==>
          && m.targets[i].id in s.records && m.targets[i].id in t.records
          && var r := s.records[m.targets[i].id];
             t.records[m.targets[i].id] ==
               r.(status := m.targets[i].newStatus, rowVersion := r.rowVersion + 1, updatedAt := now,
                  supersededBy := if m.targets[i].newStatus.Superseded? then value.id else r.supersededBy))
    && (forall id :: id in s.records && id != value.id && (forall i :: 0 <= i < |m.targets| ==> m.targets[i].id != id) ==>
          id in t.records && t.records[id] == s.records[id])
  }

  lemma MutationMade(c: Config, s: Repo, m: Mutation, clock: Time)
    requires (m.owner, m.idempotencyKey) !in s.remembered && CommitMutation(c, s, m, clock).1.Ok? && DistinctTargets(m.targets)
    ensures var (t, r) := CommitMutation(c, s, m, clock);
            var now := if m.occurredAt == ZERO_TIME then clock else m.occurredAt;
            && m.newMemory.Some? && m.newMemory.value.id !in s.records
            && MutationDone(s, t, m, m.newMemory.value, now)
            && r.value.memory == t.records[m.newMemory.value.id] && !r.value.replayed
            && OnlyRow(c, s, t, r.value.memory) && (r.value.memory.status.Active? ==> QueuedNow(c, t, r.value.memory, now))
            && Counted(s, t, m.owner, m.idempotencyKey, m.inputHash, r.value)
  {
    hide Queue, QueuedNow, OnlyRow, ApplyTargets, CommitRefusal;
    var now := Now(m.occurredAt, clock);
    var t := CommitMutation(c, s, m, clock).0;
    var value := m.newMemory.value;
    NewRecord(c, s, m, now);
    TargetsWritten(c, s, m, now);
    QueuedRow(c, s, m.owner, t.records[value.id], now);
    RowsAlone(c, s.(projections := Queue(c, s.projections, m.owner, t.records[value.id], now)), t, s, t.records[value.id], now);
  }

  lemma TargetsWritten(c: Config, s: Repo, m: Mutation, now: Time)
    requires m.newMemory.Some? && CommitRefusal(c, s, m, now).None? && DistinctTargets(m.targets)
    ensures MutationDone(s, Committed(c, s, m, now).0, m, m.newMemory.value, now)
  {
    hide Committed, CommitRefusal, ApplyTargets, Targetable;
    CommittedAre(c, s, m, now);
    NewRecord(c, s, m, now);
    TargetsStand(c, s, m, now);
    var newID := m.newMemory.value.id;
    NoTargets(s.records, m.targets, newID, now);
    forall i | 0 <= i < |m.targets|
      ensures m.targets[i].id in s.records
      ensures ApplyTargets(s.records, m.targets, newID, now)[m.targets[i].id] == Retarget(s.records[m.targets[i].id], m.targets[i], newID, now)
    {
      TargetWritten(s.records, m.owner, m.targets, newID, now, i);
    }
    forall id | id in s.records && forall i :: 0 <= i < |m.targets| ==> m.targets[i].id != id
      ensures ApplyTargets(s.records, m.targets, newID, now)[id] == s.records[id]
    {
      TargetsApplied(s.records, m.targets, newID, now, id);
    }
  }

  lemma TargetsStand(c: Config, s: Repo, m: Mutation, now: Time)
    requires m.newMemory.Some? && CommitRefusal(c, s, m, now).None?
    ensures forall i :: 0 <= i < |m.targets| ==> Targetable(s.records, m.owner, m.targets[i])
  {
    hide Targetable, Refusal, TargetsRefusal, SlotTaken;
    TargetsExactly(s.records, m.owner, m.targets);
  }

  lemma TargetWritten(records: map<string, Record>, owner: Owner, targets: seq<MutationTarget>, newID: string, now: Time, i: nat)
    requires DistinctTargets(targets) && i < |targets| && Targetable(records, owner, targets[i])
    ensures targets[i].id in ApplyTargets(records, targets, newID, now)
    ensures ApplyTargets(records, targets, newID, now)[targets[i].id] == Retarget(records[targets[i].id], targets[i], newID, now)
  {
    hide ApplyTargets, Retarget;
    TargetsApplied(records, targets, newID, now, targets[i].id);
  }

  // So a mutation never leaves a second active record in the slot of the one it adds.
  lemma SlotHeldOnce(c: Config, s: Repo, m: Mutation, clock: Time, other: string)
    requires (m.owner, m.idempotencyKey) !in s.remembered && CommitMutation(c, s, m, clock).1.Ok? && DistinctTargets(m.targets)
    requires forall id :: id in s.records ==> s.records[id].id == id
    requires var t := CommitMutation(c, s, m, clock).0;
             && m.newMemory.value.status.Active? && m.newMemory.value.slotKey != "" && other != m.newMemory.value.id
             && other in t.records && t.records[other].status.Active?
             && forall i :: 0 <= i < |m.targets| ==> !m.targets[i].newStatus.Active?
    ensures !SameSlot(CommitMutation(c, s, m, clock).0.records[other], m.newMemory.value)
  {
    hide CommitMutation, QueuedNow, OnlyRow, Targetable, Refusal;
    MutationMade(c, s, m, clock);
    MutatedExactly(c, s, m, clock);
  }

  // ---- Expiry ----

  // An expiry takes only the owner's candidates and active records whose time has come:
  // all of them, or as many as a positive limit allows; they become expired, one version
  // on, and everything else stays.
  lemma ExpiryMade(s: Repo, owner: Owner, now: Time, limit: int, ids: set<string>, id: string)
    requires IsExpiry(s, owner, now, limit, ids) && id in s.records
    ensures var r := s.records[id];
            var due := r.owner == owner && (r.status.Candidate? || r.status.Active?) && r.expiresAt.Some? && r.expiresAt.value <= now;
            var t := Expire(s, owner, now, ids);
            && (id in ids ==> due) && (due && id !in ids ==> limit > 0 && |ids| == limit)
            && t.records.Keys == s.records.Keys && t.projections == s.projections && t.remembered == s.remembered
            && t.records[id] == (if id in ids then r.(status := Expired, rowVersion := r.rowVersion + 1, updatedAt := now) else r)
            && Version(t, owner) == Version(s, owner) + (if ids == {} then 0 else 1)
  {
    if id in ExpiringIDs(s, owner, now) && id !in ids && ids <= ExpiringIDs(s, owner, now) && |ids| >= |ExpiringIDs(s, owner, now)| {
      AllTaken(ids, ExpiringIDs(s, owner, now));
    }
  }

  lemma AllTaken(ids: set<string>, due: set<string>)
    requires ids <= due && |ids| >= |due|
    ensures ids == due
  {
    assert due == ids + (due - ids);
  }

  // ---- Projections ----

  // A claim of projections takes only rows that wait and are available: all of them, or
  // as many as a limit that is not negative allows; each is in processing with one more
  // attempt, and no other row changes.
  lemma ProjectionsClaimed(s: Repo, limit: int, now: Time, ids: set<string>, id: string)
    requires IsClaim(s, limit, now, ids) && id in s.projections
    ensures var p := s.projections[id];
            var ready := (p.status.ProjectionPending? || p.status.ProjectionFailed?) && p.availableAt <= now;
            var t := ClaimProjections(s, now, ids);
            && (id in ids ==> ready) && (ready && id !in ids ==> 0 <= limit == |ids|)
            && t.projections.Keys == s.projections.Keys && t.records == s.records
            && t.projections[id] == if id in ids then p.(status := ProjectionProcessing, attempt := p.attempt + 1, claimedAt := Some(now)) else p
  {
    if id in ClaimableIDs(s, now) && id !in ids && ids <= ClaimableIDs(s, now) && |ids| >= |ClaimableIDs(s, now)| {
      AllTaken(ids, ClaimableIDs(s, now));
    }
  }

  // ---- Exact queries ----

  // One of the query's selectors names the record.
  predicate Named(q: Query, r: Record) {
    || q.scopeOnly
    || (q.namespace != "" && q.slotKey != "" && r.namespace == q.namespace && r.slotKey == q.slotKey)
    || ((q.entity.kind != "" || q.entity.id != "") && r.entity == q.entity)
    || r.contentHash in q.contentHashes || (r.namespace, r.slotKey) in q.slots || r.entity in q.entities
  }

  // What the query asks for: the owner's records of the scope, active at the time, of a
  // layer and kind asked for and named by a selector.
  predicate Wanted(q: Query, r: Record) {
    && r.owner == q.owner && r.scope == q.scope && r.status.Active? && (r.expiresAt.None? || q.activeAt < r.expiresAt.value)
    && (q.layers == [] || r.layer in q.layers) && (q.kinds == [] || r.kind in q.kinds) && Named(q, r)
  }

  // An exact query answers only those, and one it leaves out is no newer than any it
  // answers, and the answer is full.
  lemma AnsweredExactly(s: Repo, q: Query, ids: seq<string>, id: string)
    requires IsExactAnswer(s, q, ids) && id in s.records
    ensures var r := s.records[id];
            && (id in ids ==> Wanted(q, r))
            && (Wanted(q, r) && id !in ids ==>
                  |ids| == q.limit && forall i :: 0 <= i < |ids| ==> ids[i] in s.records && s.records[ids[i]].createdAt >= r.createdAt)
  {
    if id in ids {
      assert id in SelectedIDs(s, q);
    }
    if id in SelectedIDs(s, q) && id !in ids {
      forall i | 0 <= i < |ids|
        ensures ids[i] in s.records && s.records[ids[i]].createdAt >= s.records[id].createdAt
      {
        assert Precedes(Newest(s), ids[i], id);
      }
    }
  }

  // ---- What is stored ----

  // A record as the store lets it in: a session memory belongs to a session or workflow
  // and expires, a long-term one to the user; hashes, texts and names are there, and
  // confidence and salience are fractions.
  predicate Sound(r: Record) {
    && r.owner.tenantID != 0 && r.owner.userID != 0 && ValidIdentifier(r.id) && ValidIdentifier(r.lineageID)
    && r.lineageVersion >= 1 && r.rowVersion >= 1
    && (match r.layer
        case LayerWorking => false
        case LayerSession => !r.scope.kind.ScopeUser? && ValidIdentifier(r.scope.id) && r.expiresAt.Some?
        case LayerLongTerm => r.scope.kind.ScopeUser? && !ValidIdentifier(r.scope.id))
    && ValidIdentifier(r.namespace) && ValidIdentifier(r.canonicalText) && r.contentHash != ""
    && 0.0 <= r.confidence <= 1.0 && 0.0 <= r.salience <= 1.0 && !r.authority.AuthorityUnknown?
  }

  lemma ValidIsSound(c: Config, r: Record, now: Time)
    requires Refusal(c, r, now).None?
    ensures Sound(r) && (r.status.Candidate? || r.status.Active?) && c.contentRefusal(r).None?
    ensures r.layer.LayerSession? ==> r.expiresAt.value > now
  {
  }

  lemma SteppedIsSound(r: Record, t: Record)
    requires Sound(r) && RecordStep(r, t)
    ensures Sound(t)
  {
    hide ValidIdentifier;
  }

  lemma StepKeepsSound(c: Config, s: Repo, a: Action)
    requires Inv(c, s) && forall id :: id in s.records ==> Sound(s.records[id])
    ensures forall id :: id in Step(c, s, a).records ==> Sound(Step(c, s, a).records[id])
  {
    hide Inv, Sound, RecordStep, Step;
    var t := Step(c, s, a);
    StepKeeps(c, s, a);
    forall id | id in t.records
      ensures Sound(t.records[id])
    {
      if id in s.records {
        SteppedIsSound(s.records[id], t.records[id]);
      } else {
        NewIsSound(c, s, a, id);
      }
    }
  }

  lemma NewIsSound(c: Config, s: Repo, a: Action, id: string)
    requires id in Step(c, s, a).records && id !in s.records
    ensures Sound(Step(c, s, a).records[id])
  {
    hide Sound, CommitMutation, Queue, ClaimEach;
    if a.Committing? {
      NewIsGiven(c, s, a.m, a.clock, id);
      ValidIsSound(c, a.m.newMemory.value, Now(a.m.occurredAt, a.clock));
      RestampedIsSound(a.m.newMemory.value, Now(a.m.occurredAt, a.clock));
    }
  }

  lemma NewIsGiven(c: Config, s: Repo, m: Mutation, clock: Time, id: string)
    requires id in CommitMutation(c, s, m, clock).0.records && id !in s.records
    ensures var now := Now(m.occurredAt, clock);
            && m.newMemory.Some? && Refusal(c, m.newMemory.value, now).None?
            && CommitMutation(c, s, m, clock).0.records[id] == m.newMemory.value.(createdAt := now, updatedAt := now)
  {
    hide Refusal, Queue, ApplyTargets, SlotTaken, TargetsRefusal;
    var now := Now(m.occurredAt, clock);
    NoTargets(s.records, m.targets, m.newMemory.value.id, now);
  }

  lemma RestampedIsSound(r: Record, now: Time)
    requires Sound(r)
    ensures Sound(r.(createdAt := now, updatedAt := now))
  {
  }

  // Every record in every reachable state is sound.
  lemma {:induction false} StoredIsSound(c: Config, actions: seq<Action>, id: string)
    requires id in Exec(c, EMPTY_REPO, actions).records
    ensures Sound(Exec(c, EMPTY_REPO, actions).records[id])
  {
    AllSound(c, actions);
  }

  lemma {:induction false} AllSound(c: Config, actions: seq<Action>)
    ensures forall id :: id in Exec(c, EMPTY_REPO, actions).records ==> Sound(Exec(c, EMPTY_REPO, actions).records[id])
    decreases |actions|
  {
    hide Sound, Step, Inv;
    if actions != [] {
      var last := |actions| - 1;
      AllSound(c, actions[..last]);
      Reachable(c, actions[..last]);
      StepKeepsSound(c, Exec(c, EMPTY_REPO, actions[..last]), actions[last]);
    }
  }
}
