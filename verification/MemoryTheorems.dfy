// What the memory store guarantees over every sequence of operations.
module MemoryTheorems {
  import opened Basics
  import opened MemorySpec
  import opened MemorySystem
  import opened MemoryProofs

  lemma {:induction false} ExecAppend(c: Config, s: Repo, a: seq<Action>, b: seq<Action>)
    ensures Exec(c, s, a + b) == Exec(c, Exec(c, s, a), b)
    decreases |b|
  {
    if b == [] {
      assert a + b == a;
    } else {
      var last := |b| - 1;
      assert (a + b)[..|a + b| - 1] == a + b[..last];
      ExecAppend(c, s, a, b[..last]);
    }
  }

  // ---- The life of a record ----

  lemma RunThenStep(r: Record, t: Record, u: Record)
    requires RecordRun(r, t) && RecordStep(t, u)
    ensures RecordRun(r, u)
  {
  }

  // Whatever happens, a record keeps its content and lineage, its status moves only
  // along allowed transitions, an obsolete record never changes again, and a row
  // version stands for one value.
  lemma {:induction false} RecordsRun(c: Config, s: Repo, actions: seq<Action>, id: string)
    requires Inv(c, s) && id in s.records
    ensures Inv(c, Exec(c, s, actions))
    ensures id in Exec(c, s, actions).records && RecordRun(s.records[id], Exec(c, s, actions).records[id])
    decreases |actions|
  {
    hide Inv, Step, RecordRun, RecordStep;
    if actions == [] {
      RunItself(s.records[id]);
    } else {
      var last := |actions| - 1;
      var t := Exec(c, s, actions[..last]);
      RecordsRun(c, s, actions[..last], id);
      StepKeeps(c, t, actions[last]);
      RunThenStep(s.records[id], t.records[id], Step(c, t, actions[last]).records[id]);
    }
  }

  lemma RunItself(r: Record)
    ensures RecordRun(r, r)
  {
  }

  // A successor, once set, stays.
  lemma SuccessorIsFinal(c: Config, s: Repo, actions: seq<Action>, id: string)
    requires Inv(c, s) && id in s.records && s.records[id].supersededBy != ""
    ensures id in Exec(c, s, actions).records && Exec(c, s, actions).records[id] == s.records[id]
  {
    assert RecordInv(s.records, id);
    RecordsRun(c, s, actions, id);
  }

  // ---- Chains of successors ----

  ghost predicate Links(records: map<string, Record>, path: seq<string>) {
    && path != []
    && (forall i :: 0 <= i < |path| ==> path[i] in records)
    && (forall i :: 0 <= i < |path| - 1 ==> records[path[i]].supersededBy == path[i + 1])
  }

  // Following successors from any record ends, meets no record twice, and stays with
  // the owner.
  lemma ChainEnds(c: Config, actions: seq<Action>, id: string) returns (path: seq<string>)
    requires id in Exec(c, EMPTY_REPO, actions).records
    ensures var records := Exec(c, EMPTY_REPO, actions).records;
            && Links(records, path) && path[0] == id
            && records[path[|path| - 1]].supersededBy == ""
            && (forall i, j :: 0 <= i < j < |path| ==> path[i] != path[j])
            && (forall i :: 0 <= i < |path| ==> records[path[i]].owner == records[id].owner)
  {
    var records := Exec(c, EMPTY_REPO, actions).records;
    Reachable(c, actions);
    var rank :| Ranks(records, rank);
    var bound := RankBound(rank);
    path := Follow(records, rank, bound, id);
  }

  lemma {:induction false} Follow(records: map<string, Record>, rank: map<string, nat>, bound: nat, id: string) returns (path: seq<string>)
    requires forall k :: k in records ==> RecordInv(records, k)
    requires Ranks(records, rank) && id in records
    requires forall k :: k in rank ==> rank[k] < bound
    ensures Links(records, path) && path[0] == id
    ensures records[path[|path| - 1]].supersededBy == ""
    ensures forall i :: 0 < i < |path| ==> rank[id] < rank[path[i]]
    ensures forall i, j :: 0 <= i < j < |path| ==> path[i] != path[j]
    ensures forall i :: 0 <= i < |path| ==> records[path[i]].owner == records[id].owner
    decreases bound - rank[id]
  {
    hide ValidIdentifier;
    if records[id].supersededBy == "" {
      path := [id];
    } else {
      assert RecordInv(records, id);
      var next := records[id].supersededBy;
      var rest := Follow(records, rank, bound, next);
      path := [id] + rest;
    }
  }

  // ---- Lineages ----

  // Callers that never ask a mutation to supersede its targets, as the capture
  // workflow does not.
  predicate RejectsOnly(a: Action) {
    a.Committing? ==> forall i :: 0 <= i < |a.m.targets| ==> !a.m.targets[i].newStatus.Superseded?
  }

  // The successor is a later version of the same lineage.
  predicate LaterVersion(r: Record, next: Record) {
    next.lineageID == r.lineageID && next.lineageVersion > r.lineageVersion
  }

  ghost predicate LineageInv(records: map<string, Record>) {
    forall id :: id in records && records[id].supersededBy != "" ==>
      records[id].supersededBy in records && LaterVersion(records[id], records[records[id].supersededBy])
  }

  lemma NoNewSuccessors(records: map<string, Record>, more: map<string, Record>, owner: Owner)
    requires LineageInv(records) && RecordsStep(records, more, owner)
    requires forall id :: id in more && id !in records ==> more[id].supersededBy == ""
    requires forall id :: id in records ==> more[id].supersededBy == records[id].supersededBy
    ensures LineageInv(more)
  {
  }

  lemma RejectingKeepsSuccessors(c: Config, s: Repo, m: Mutation, now: Time, id: string)
    requires m.newMemory.Some? && CommitRefusal(c, s, m, now).None? && ProperMutation(m) && id in s.records
    requires forall i :: 0 <= i < |m.targets| ==> !m.targets[i].newStatus.Superseded?
    ensures var more := Committed(c, s, m, now).0.records; id in more && more[id].supersededBy == s.records[id].supersededBy
  {
    hide CommitRefusal, Queue, ApplyTargets;
    NewRecord(c, s, m, now);
    TargetsApplied(s.records, m.targets, m.newMemory.value.id, now, id);
  }

  lemma ActivationLinksLineage(c: Config, s: Repo, a: Activation, now: Time)
    requires LineageInv(s.records) && Inv(c, s) && ValidActivation(a) && a.candidateID in s.records && a.supersededID in s.records
    requires MayActivate(s.records[a.candidateID], s.records[a.supersededID], a)
    ensures LineageInv(Activated(c, s, a, now).0.records)
  {
    hide Queue, OutboxInv, ValidIdentifier, Ranks;
    var more := Activated(c, s, a, now).0.records;
    assert RecordInv(s.records, a.candidateID);
    forall id | id in more && more[id].supersededBy != ""
      ensures more[id].supersededBy in more && LaterVersion(more[id], more[more[id].supersededBy])
    {
      if id != a.supersededID {
        assert LaterVersion(s.records[id], s.records[s.records[id].supersededBy]);
      }
    }
  }

  lemma StepKeepsLineage(c: Config, s: Repo, a: Action)
    requires Inv(c, s) && LineageInv(s.records) && RejectsOnly(a)
    ensures LineageInv(Step(c, s, a).records)
  {
    hide Inv, LineageInv, RecordsStep, Committed, Activated, CommitRefusal, Replay, Queue, ClaimEach, ExpiringIDs, IsClaim, MayActivate, ValidActivation;
    var t := Step(c, s, a);
    StepKeeps(c, s, a);
    if t.records != s.records {
      match a
      case Committing(m, clock) =>
        forall id | id in s.records
          ensures id in t.records && t.records[id].supersededBy == s.records[id].supersededBy
        {
          RejectingKeepsSuccessors(c, s, m, Now(m.occurredAt, clock), id);
        }
        CommittedKeys(c, s, m, Now(m.occurredAt, clock));
        NoNewSuccessors(s.records, t.records, m.owner);
      case Activating(m, clock) =>
        ActivationLinksLineage(c, s, m, Now(m.occurredAt, clock));
      case _ =>
        NoNewSuccessors(s.records, t.records, OwnerOf(a));
    }
  }

  lemma CommittedKeys(c: Config, s: Repo, m: Mutation, now: Time)
    requires m.newMemory.Some? && ProperMutation(m)
    ensures var more := Committed(c, s, m, now).0.records;
            forall id :: id in more && id !in s.records ==> more[id].supersededBy == ""
  {
    hide ApplyTargets, Queue;
    NoTargets(s.records, m.targets, m.newMemory.value.id, now);
  }

  // With such callers every successor in every reachable state is a later version of
  // the same lineage.
  lemma {:induction false} SuccessorsStayInLineage(c: Config, actions: seq<Action>)
    requires forall i :: 0 <= i < |actions| ==> RejectsOnly(actions[i])
    ensures LineageInv(Exec(c, EMPTY_REPO, actions).records)
    decreases |actions|
  {
    if actions != [] {
      var last := |actions| - 1;
      SuccessorsStayInLineage(c, actions[..last]);
      Reachable(c, actions[..last]);
      StepKeepsLineage(c, Exec(c, EMPTY_REPO, actions[..last]), actions[last]);
    }
  }

  // Whatever mutations came before or come after, the successor an accepted activation
  // sets is a later version of the same lineage for good.
  lemma ActivationStaysInLineage(c: Config, before: seq<Action>, a: Activation, clock: Time, after: seq<Action>)
    requires var s := Exec(c, EMPTY_REPO, before);
             (a.owner, a.idempotencyKey) !in s.remembered && ActivateCandidateSuperseding(c, s, a, clock).1.Ok?
    ensures var records := Exec(c, EMPTY_REPO, before + [Activating(a, clock)] + after).records;
            && a.supersededID in records && a.candidateID in records
            && records[a.supersededID].supersededBy == a.candidateID
            && LaterVersion(records[a.supersededID], records[a.candidateID])
  {
    hide Inv, Queue, RecordStep;
    var s := Exec(c, EMPTY_REPO, before);
    var t := ActivateCandidateSuperseding(c, s, a, clock).0;
    Reachable(c, before);
    StepKeeps(c, s, Activating(a, clock));
    ExecAppend(c, EMPTY_REPO, before, [Activating(a, clock)]);
    assert [Activating(a, clock)][..0] == [];
    assert Exec(c, s, [Activating(a, clock)]) == Step(c, Exec(c, s, []), Activating(a, clock)) == t;
    ExecAppend(c, EMPTY_REPO, before + [Activating(a, clock)], after);
    SuccessorIsFinal(c, t, after, a.supersededID);
    RecordsRun(c, t, after, a.candidateID);
  }

  // ---- Versions ----

  function OwnerRecords(s: Repo, owner: Owner): map<string, Record> {
    map id | id in s.records && s.records[id].owner == owner :: s.records[id]
  }

  lemma StepVersion(c: Config, s: Repo, a: Action, owner: Owner)
    requires Inv(c, s)
    ensures Version(Step(c, s, a), owner) >= Version(s, owner)
    ensures Version(Step(c, s, a), owner) == Version(s, owner) ==> OwnerRecords(Step(c, s, a), owner) == OwnerRecords(s, owner)
  {
    hide Inv, Step, CanTransition;
    StepKeeps(c, s, a);
    StepCounted(c, s, a);
  }

  lemma {:induction false} VersionGrows(c: Config, s: Repo, actions: seq<Action>, owner: Owner)
    requires Inv(c, s)
    ensures Inv(c, Exec(c, s, actions))
    ensures Version(Exec(c, s, actions), owner) >= Version(s, owner)
    ensures Version(Exec(c, s, actions), owner) == Version(s, owner) ==> OwnerRecords(Exec(c, s, actions), owner) == OwnerRecords(s, owner)
    decreases |actions|
  {
    hide Inv, Step, OwnerRecords, Version;
    if actions != [] {
      var last := |actions| - 1;
      VersionGrows(c, s, actions[..last], owner);
      StepVersion(c, Exec(c, s, actions[..last]), actions[last], owner);
      StepKeeps(c, Exec(c, s, actions[..last]), actions[last]);
    }
  }

  // At two points of a run with the same version of an owner, the owner's records are
  // the same: a snapshot taken at a version stays valid while the version stands.
  lemma EqualVersionsEqualRecords(c: Config, actions: seq<Action>, i: nat, j: nat, owner: Owner)
    requires i <= j <= |actions|
    requires Version(Exec(c, EMPTY_REPO, actions[..i]), owner) == Version(Exec(c, EMPTY_REPO, actions[..j]), owner)
    ensures OwnerRecords(Exec(c, EMPTY_REPO, actions[..i]), owner) == OwnerRecords(Exec(c, EMPTY_REPO, actions[..j]), owner)
  {
    hide Inv, Step, OwnerRecords, Version;
    Reachable(c, actions[..i]);
    assert actions[..j] == actions[..i] + actions[i..j];
    ExecAppend(c, EMPTY_REPO, actions[..i], actions[i..j]);
    VersionGrows(c, Exec(c, EMPTY_REPO, actions[..i]), actions[i..j], owner);
  }

  // ---- Replays ----

  lemma StepRemembers(c: Config, s: Repo, a: Action, key: (Owner, string))
    requires key in s.remembered
    ensures key in Step(c, s, a).remembered && Step(c, s, a).remembered[key] == s.remembered[key]
  {
    hide Queue, ApplyTargets, CommitRefusal, ExpireEach, ClaimEach, IsClaim, IsExpiry, ProperMutation, MayActivate;
  }

  lemma {:induction false} Remembers(c: Config, s: Repo, actions: seq<Action>, key: (Owner, string))
    requires key in s.remembered
    ensures key in Exec(c, s, actions).remembered && Exec(c, s, actions).remembered[key] == s.remembered[key]
    decreases |actions|
  {
    hide Step;
    if actions != [] {
      Remembers(c, s, actions[..|actions| - 1], key);
      StepRemembers(c, Exec(c, s, actions[..|actions| - 1]), actions[|actions| - 1], key);
    }
  }

  // The result remembered under a key, or else the one a call now returns.
  function First(s: Repo, owner: Owner, key: string, now: Result<MutationResult>): MutationResult
    requires now.Ok?
  {
    if (owner, key) in s.remembered then s.remembered[(owner, key)].result else now.value
  }

  // What repeating a call answers: the first result, marked, for the same input.
  function Repeated(first: MutationResult, sameInput: bool): Result<MutationResult> {
    if sameInput then Ok(first.(replayed := true)) else Err(IdempotencyConflict)
  }

  // Repeating a mutation that succeeded, at any later time, changes nothing and
  // returns the first result; the same key for another input is a conflict.
  lemma MutationReplays(c: Config, s: Repo, m: Mutation, clock: Time, actions: seq<Action>, again: Mutation, later: Time)
    requires CommitMutation(c, s, m, clock).1.Ok?
    requires again.owner == m.owner && again.idempotencyKey == m.idempotencyKey
    requires again.newMemory.Some? && again.inputHash != "" && c.auditRefusal(again.actor, again.reasonCode).None?
    ensures var (done, result) := CommitMutation(c, s, m, clock);
            var t := Exec(c, done, actions);
            CommitMutation(c, t, again, later) ==
              (t, Repeated(First(s, m.owner, m.idempotencyKey, result), again.inputHash == m.inputHash))
  {
    hide Exec, CommitRefusal, Queue, ApplyTargets;
    Remembers(c, CommitMutation(c, s, m, clock).0, actions, (m.owner, m.idempotencyKey));
  }

  lemma TransitionReplays(c: Config, s: Repo, m: Transition, actions: seq<Action>, again: Transition)
    requires TransitionMemory(c, s, m).1.Ok?
    requires again.owner == m.owner && again.idempotencyKey == m.idempotencyKey
    requires c.auditRefusal(again.actor, again.reasonCode).None?
    ensures var (done, result) := TransitionMemory(c, s, m);
            var t := Exec(c, done, actions);
            TransitionMemory(c, t, again) ==
              (t, Repeated(First(s, m.owner, m.idempotencyKey, result), again.inputHash == m.inputHash))
  {
    hide Exec, Queue;
    Remembers(c, TransitionMemory(c, s, m).0, actions, (m.owner, m.idempotencyKey));
  }

  lemma ActivationReplays(c: Config, s: Repo, m: Activation, clock: Time, actions: seq<Action>, again: Activation, later: Time)
    requires ActivateCandidateSuperseding(c, s, m, clock).1.Ok?
    requires again.owner == m.owner && again.idempotencyKey == m.idempotencyKey
    requires ValidActivation(again) && c.auditRefusal(again.actor, again.reasonCode).None?
    ensures var (done, result) := ActivateCandidateSuperseding(c, s, m, clock);
            var t := Exec(c, done, actions);
            ActivateCandidateSuperseding(c, t, again, later) ==
              (t, Repeated(First(s, m.owner, m.idempotencyKey, result), again.inputHash == m.inputHash))
  {
    hide Exec, Queue;
    Remembers(c, ActivateCandidateSuperseding(c, s, m, clock).0, actions, (m.owner, m.idempotencyKey));
  }

  // ---- The outbox ----

  // Content hashes, being digests, hold no colon, so a row's key fixes its owner,
  // record and hash, whatever the ids and the projection version contain.
  lemma ProjectionIDInjective(o: Owner, id: string, hash: string, p: Owner, other: string, otherHash: string, version: string)
    requires ':' !in hash && ':' !in otherHash
    requires ProjectionID(o, id, hash, version) == ProjectionID(p, other, otherHash, version)
    ensures o == p && id == other && hash == otherHash
  {
    ColonEnds(Decimal(o.tenantID), Decimal(o.userID) + ":" + (id + ":" + (hash + (":" + version))),
              Decimal(p.tenantID), Decimal(p.userID) + ":" + (other + ":" + (otherHash + (":" + version))));
    ColonEnds(Decimal(o.userID), id + ":" + (hash + (":" + version)), Decimal(p.userID), other + ":" + (otherHash + (":" + version)));
    DecimalInjective(o.tenantID, p.tenantID);
    DecimalInjective(o.userID, p.userID);
    var a, b := id + ":" + hash, other + ":" + otherHash;
    assert a + (":" + version) == id + ":" + (hash + (":" + version));
    assert b + (":" + version) == other + ":" + (otherHash + (":" + version));
    assert a == (a + (":" + version))[..|a|] && b == (b + (":" + version))[..|b|];
    ColonStarts(id, hash, other, otherHash);
  }

  // Every active record, in every reachable state, has an outbox row naming it, its
  // content and the projection version. Content hashes are digests.
  lemma ActiveIsQueued(c: Config, actions: seq<Action>, id: string)
    requires var s := Exec(c, EMPTY_REPO, actions);
             id in s.records && s.records[id].status.Active? && forall k :: k in s.records ==> ':' !in s.records[k].contentHash
    ensures var s := Exec(c, EMPTY_REPO, actions);
            var key := ProjectionID(s.records[id].owner, id, s.records[id].contentHash, c.projectionVersion);
            && key in s.projections
            && s.projections[key].owner == s.records[id].owner
            && s.projections[key].memoryID == id
            && s.projections[key].contentHash == s.records[id].contentHash
            && s.projections[key].modelVersion == c.projectionVersion
  {
    hide ProjectionID;
    var s := Exec(c, EMPTY_REPO, actions);
    Reachable(c, actions);
    var r := s.records[id];
    assert Queued(c, s.projections, r) && RecordInv(s.records, id);
    var key := ProjectionID(r.owner, r.id, r.contentHash, c.projectionVersion);
    assert RowInv(c, s.projections, key) && RowRecord(s.records, s.projections[key]);
    var p := s.projections[key];
    ProjectionIDInjective(r.owner, r.id, r.contentHash, p.owner, p.memoryID, p.contentHash, c.projectionVersion);
  }
}
