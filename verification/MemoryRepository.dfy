// The memory store as an object: each method is one atomic step. Records are filed
// under their own ids.
module MemoryRepository {
  import opened Basics
  import opened MemorySpec
  import opened Ordering
  import opened Scans
  import Spec = MemorySpec

  class FakeRepository {
    const config: Config
    var records: map<string, Record>
    var remembered: map<(Owner, string), Remembered>
    var projections: map<string, Projection>
    var versions: map<Owner, nat>

    function Contents(): (s: Repo)
      reads this
    {
      Repo(records, remembered, projections, versions)
    }

    constructor (config: Config)
      ensures this.config == config && Contents() == EMPTY_REPO
    {
      this.config := config;
      records, remembered, projections, versions := map[], map[], map[], map[];
    }

    method BatchGet(owner: Owner, ids: seq<string>) returns (r: seq<Record>)
      ensures r == Spec.BatchGet(Contents(), owner, ids)
    {
      r := [];
      for i := 0 to |ids|
        invariant r == Spec.BatchGet(Contents(), owner, ids[..i])
      {
        assert ids[..i + 1][..i] == ids[..i];
        if ids[i] in records && records[ids[i]].owner == owner {
          r := r + [records[ids[i]]];
        }
      }
      assert ids[..|ids|] == ids;
    }

    method FindExact(q: Query) returns (r: Result<seq<Record>>, ghost ids: seq<string>)
      requires q.limit > 0
      ensures config.queryRefused(q) ==> r == Err(InvalidInput)
      ensures !config.queryRefused(q) && !HasSelector(q) ==> r == Ok([])
      ensures !config.queryRefused(q) && HasSelector(q) ==>
                && IsExactAnswer(Contents(), q, ids) && r.Ok? && |r.value| == |ids|
                && forall i :: 0 <= i < |ids| ==> ids[i] in records && r.value[i] == records[ids[i]]
    {
      ids := [];
      if config.queryRefused(q) {
        return Err(InvalidInput), ids;
      }
      if !HasSelector(q) {
        return Ok([]), ids;
      }
      var batch := TakeBatch(SelectedIDs(Contents(), q), Newest(Contents()), q.limit);
      ids := batch;
      var out: seq<Record> := [];
      for i := 0 to |batch|
        invariant |out| == i && forall k :: 0 <= k < i ==> batch[k] in records && out[k] == records[batch[k]]
      {
        assert batch[i] in SelectedIDs(Contents(), q);
        out := out + [records[batch[i]]];
      }
      r := Ok(out);
    }

    method CheckTargets(owner: Owner, targets: seq<MutationTarget>) returns (refusal: Option<MemoryError>)
      ensures refusal == TargetsRefusal(records, owner, targets)
    {
      for i := 0 to |targets|
        invariant TargetsRefusal(records, owner, targets) == TargetsRefusal(records, owner, targets[i..])
      {
        var t := targets[i];
        assert targets[i..][0] == t && targets[i..][1..] == targets[i + 1..];
        if t.id !in records || records[t.id].owner != owner {
          return Some(NotFound);
        }
        if records[t.id].rowVersion != t.rowVersion || !CanTransition(records[t.id].status, t.newStatus) {
          return Some(StateConflict);
        }
      }
      return None;
    }

    method FindSuperseding(targets: seq<MutationTarget>, id: string) returns (found: bool)
      ensures found == Supersedes(targets, id)
    {
      found := false;
      for i := 0 to |targets|
        invariant found == Supersedes(targets[..i], id)
      {
        if targets[i].id == id && targets[i].newStatus == Superseded {
          found := true;
          assert targets[..i + 1][i] == targets[i];
        }
        assert forall k :: 0 <= k < i ==> targets[..i][k] == targets[..i + 1][k];
      }
      assert targets[..|targets|] == targets;
    }

    // Records are met in no particular order.
    method CheckSlot(value: Record, targets: seq<MutationTarget>) returns (taken: bool)
      ensures taken == SlotTaken(records, value, targets)
    {
      var keys := records.Keys;
      while keys != {}
        invariant keys <= records.Keys
        invariant forall id :: id in records && HoldsSlot(value, records[id]) && !Supersedes(targets, records[id].id) ==> id in keys
      {
        var id :| id in keys;
        if HoldsSlot(value, records[id]) {
          var found := FindSuperseding(targets, records[id].id);
          if !found {
            return true;
          }
        }
        keys := keys - {id};
      }
      return false;
    }

    method CommitMutation(m: Mutation, clock: Time) returns (r: Result<MutationResult>)
      modifies this
      ensures (Contents(), r) == Spec.CommitMutation(config, old(Contents()), m, clock)
    {
      if !ValidOwner(m.owner) || m.newMemory.None? || m.idempotencyKey == "" || m.inputHash == "" {
        return Err(InvalidInput);
      }
      var audit := config.auditRefusal(m.actor, m.reasonCode);
      if audit.Some? {
        return Err(audit.value);
      }
      var key := (m.owner, m.idempotencyKey);
      if key in remembered {
        return Replay(Contents(), key, m.inputHash);
      }
      var now := if m.occurredAt == ZERO_TIME then clock else m.occurredAt;
      var value := m.newMemory.value;
      var refusal := Refusal(config, value, now);
      if refusal.Some? {
        return Err(refusal.value);
      }
      if value.owner != m.owner {
        return Err(NotFound);
      }
      if value.id in records {
        return Err(StateConflict);
      }
      refusal := CheckTargets(m.owner, m.targets);
      if refusal.Some? {
        return Err(refusal.value);
      }
      var taken := CheckSlot(value, m.targets);
      if taken {
        return Err(StateConflict);
      }
      RewriteTargets(m.targets, value.id, now);
      value := value.(createdAt := now, updatedAt := now);
      if value.status == Active {
        var row := RowFor(config, m.owner, value, now);
        projections := projections[row.id := row];
      }
      records := records[value.id := value];
      var result := MutationResult(value, m.relations, false);
      remembered := remembered[key := Remembered(result, m.inputHash)];
      versions := Bump(versions, m.owner);
      return Ok(result);
    }

    method RewriteTargets(targets: seq<MutationTarget>, newID: string, now: Time)
      modifies `records
      ensures records == ApplyTargets(old(records), targets, newID, now)
    {
      for i := 0 to |targets|
        invariant records == ApplyTargets(old(records), targets[..i], newID, now)
      {
        assert targets[..i + 1][..i] == targets[..i];
        var t := targets[i];
        if t.id in records {
          var value := records[t.id];
          value := value.(status := t.newStatus, rowVersion := value.rowVersion + 1, updatedAt := now);
          if t.newStatus == Superseded {
            value := value.(supersededBy := newID);
          }
          records := records[t.id := value];
        }
      }
      assert targets[..|targets|] == targets;
    }

    method TransitionMemory(m: Transition) returns (r: Result<MutationResult>)
      modifies this
      ensures (Contents(), r) == Spec.TransitionMemory(config, old(Contents()), m)
    {
      var audit := config.auditRefusal(m.actor, m.reasonCode);
      if audit.Some? {
        return Err(audit.value);
      }
      var key := (m.owner, m.idempotencyKey);
      if key in remembered {
        return Replay(Contents(), key, m.inputHash);
      }
      if m.id !in records || records[m.id].owner != m.owner {
        return Err(NotFound);
      }
      var value := records[m.id];
      if value.rowVersion != m.rowVersion || !CanTransition(value.status, m.to) {
        return Err(StateConflict);
      }
      value := value.(status := m.to, rowVersion := value.rowVersion + 1, updatedAt := m.occurredAt);
      records := records[m.id := value];
      if m.to == Active {
        var row := RowFor(config, m.owner, value, m.occurredAt);
        projections := projections[row.id := row];
      }
      var result := MutationResult(value, [], false);
      remembered := remembered[key := Remembered(result, m.inputHash)];
      versions := Bump(versions, m.owner);
      return Ok(result);
    }

    method ActivateCandidateSuperseding(a: Activation, clock: Time) returns (r: Result<MutationResult>)
      modifies this
      ensures (Contents(), r) == Spec.ActivateCandidateSuperseding(config, old(Contents()), a, clock)
    {
      if !ValidActivation(a) {
        return Err(InvalidInput);
      }
      var audit := config.auditRefusal(a.actor, a.reasonCode);
      if audit.Some? {
        return Err(audit.value);
      }
      var key := (a.owner, a.idempotencyKey);
      if key in remembered {
        return Replay(Contents(), key, a.inputHash);
      }
      if a.candidateID !in records || a.supersededID !in records {
        return Err(NotFound);
      }
      var candidate, target := records[a.candidateID], records[a.supersededID];
      if candidate.owner != a.owner || target.owner != a.owner {
        return Err(NotFound);
      }
      if !MayActivate(candidate, target, a) {
        return Err(StateConflict);
      }
      var now := if a.occurredAt == ZERO_TIME then clock else a.occurredAt;
      target := target.(status := Superseded, supersededBy := a.candidateID, rowVersion := target.rowVersion + 1, updatedAt := now);
      candidate := candidate.(status := Active, rowVersion := candidate.rowVersion + 1, updatedAt := now);
      records := records[a.supersededID := target][a.candidateID := candidate];
      var row := RowFor(config, a.owner, candidate, now);
      projections := projections[row.id := row];
      var result := MutationResult(candidate, [Relation(a.candidateID, a.supersededID, "supersedes", a.reasonCode)], false);
      remembered := remembered[key := Remembered(result, a.inputHash)];
      versions := Bump(versions, a.owner);
      return Ok(result);
    }

    method ExpireOne(owner: Owner, now: Time, id: string) returns (expired: bool)
      requires id in records
      modifies `records
      ensures expired == Expires(old(records)[id], owner, now)
      ensures records == if expired then old(records)[id := Moved(old(records)[id], Expired, now)] else old(records)
    {
      var value := records[id];
      expired := value.owner == owner && (value.status == Active || value.status == Candidate)
                 && value.expiresAt.Some? && now >= value.expiresAt.value;
      if expired {
        records := records[id := value.(status := Expired, rowVersion := value.rowVersion + 1, updatedAt := now)];
      }
    }

    // Records are met in no particular order, so a limited call expires some of the due.
    method Expire(owner: Owner, now: Time, limit: int) returns (count: nat, ghost ids: set<string>)
      modifies this
      ensures IsExpiry(old(Contents()), owner, now, limit, ids)
      ensures Contents() == Spec.Expire(old(Contents()), owner, now, ids) && count == |ids|
    {
      hide ExpiringIDs, ExpireEach, Expires, Scanned, Moved, Bump, Chosen;
      ghost var was := records;
      ghost var due := ExpiringIDs(Contents(), owner, now);
      ExpireNone(Contents(), owner, now);
      count, ids := 0, {};
      var keys := records.Keys;
      while keys != {} && !(count == limit && limit > 0)
        invariant Scanned(was.Keys, due, ids, keys)
        invariant count == |ids| && (limit > 0 ==> count <= limit)
        invariant records == ExpireEach(was, ids, now)
        invariant remembered == old(remembered) && projections == old(projections) && versions == old(versions)
        decreases keys
      {
        var id :| id in keys;
        ExpireStep(old(Contents()), owner, now, ids, keys, id);
        var expired := ExpireOne(owner, now, id);
        if expired {
          ids := ids + {id};
          count := count + 1;
        }
        keys := keys - {id};
      }
      Enough(was.Keys, due, ids, keys, if limit <= 0 then -1 else limit);
      if count > 0 {
        versions := Bump(versions, owner);
      }
    }

    method ClaimIfDue(now: Time, id: string) returns (due: bool)
      requires id in projections
      modifies `projections
      ensures due == Claimable(old(projections)[id], now)
      ensures projections == if due then old(projections)[id := ClaimOne(old(projections)[id], now)] else old(projections)
    {
      var p := projections[id];
      due := (p.status == ProjectionPending || p.status == ProjectionFailed) && p.availableAt <= now;
      if due {
        p := p.(status := ProjectionProcessing, attempt := p.attempt + 1, claimedAt := Some(now));
        projections := projections[id := p];
      }
    }

    // Rows are met in no particular order; `order` is the order in which they were taken.
    method ClaimProjections(limit: int, now: Time) returns (claimed: seq<Projection>, ghost order: seq<string>)
      modifies this
      ensures var ids := set id | id in order;
              && IsOrder(order, ids) && IsClaim(old(Contents()), limit, now, ids)
              && Contents() == Spec.ClaimProjections(old(Contents()), now, ids)
      ensures |claimed| == |order|
      ensures forall i :: 0 <= i < |order| ==> order[i] in projections && claimed[i] == projections[order[i]]
    {
      hide ClaimableIDs, ClaimEach, ClaimOne, Claimable, Scanned, IsOrder, Chosen;
      ghost var was := projections;
      ghost var due := ClaimableIDs(Contents(), now);
      ClaimNone(Contents(), now);
      claimed, order := [], [];
      ghost var ids: set<string> := {};
      var keys := projections.Keys;
      while keys != {} && |claimed| != limit
        invariant Scanned(was.Keys, due, ids, keys)
        invariant IsOrder(order, ids) && |ids| == |order| == |claimed|
        invariant 0 <= limit ==> |claimed| <= limit
        invariant projections == ClaimEach(was, ids, now)
        invariant ClaimedAre(order, claimed, projections)
        invariant remembered == old(remembered) && records == old(records) && versions == old(versions)
        decreases keys
      {
        var id :| id in keys;
        ClaimStep(old(Contents()), now, ids, keys, id);
        ghost var before := projections;
        var taken := ClaimIfDue(now, id);
        if taken {
          OrderGrows(order, ids, id);
          ClaimedGrows(order, claimed, before, id, ClaimOne(before[id], now));
          ids := ids + {id};
          order := order + [id];
          claimed := claimed + [projections[id]];
        }
        keys := keys - {id};
      }
      Enough(was.Keys, due, ids, keys, limit);
      OrderIs(order, ids);
    }

    method CompleteProjection(owner: Owner, id: string, now: Time) returns (error: Option<MemoryError>)
      modifies this
      ensures (Contents(), error) == Spec.CompleteProjection(old(Contents()), owner, id, now)
    {
      if id !in projections || projections[id].owner != owner {
        return Some(NotFound);
      }
      projections := projections[id := projections[id].(status := ProjectionCompleted, processedAt := Some(now), lastErrorCode := "")];
      return None;
    }

    method FailProjection(owner: Owner, id: string, code: string, next: Time, permanent: bool) returns (error: Option<MemoryError>)
      modifies this
      ensures (Contents(), error) == Spec.FailProjection(config, old(Contents()), owner, id, code, next, permanent)
    {
      if id !in projections || projections[id].owner != owner {
        return Some(NotFound);
      }
      var p := projections[id].(status := ProjectionFailed, availableAt := next, lastErrorCode := config.bounded(code));
      if permanent {
        p := p.(status := ProjectionPermanentFailed);
      }
      projections := projections[id := p];
      return None;
    }
  }

  lemma ExpireNone(s: Repo, owner: Owner, now: Time)
    ensures ExpireEach(s.records, {}, now) == s.records
    ensures Scanned(s.records.Keys, ExpiringIDs(s, owner, now), {}, s.records.Keys)
  {
  }

  lemma ExpireOneMore(records: map<string, Record>, ids: set<string>, now: Time, id: string)
    requires id in records && id !in ids
    ensures var t := ExpireEach(records, ids, now);
            id in t && t[id] == records[id] && t[id := Moved(records[id], Expired, now)] == ExpireEach(records, ids + {id}, now)
  {
  }

  lemma ClaimNone(s: Repo, now: Time)
    ensures ClaimEach(s.projections, {}, now) == s.projections
    ensures Scanned(s.projections.Keys, ClaimableIDs(s, now), {}, s.projections.Keys) && IsOrder([], {})
  {
  }

  // One step of the scan, whether the record it meets is due or not.
  lemma ExpireStep(s: Repo, owner: Owner, now: Time, ids: set<string>, rest: set<string>, id: string)
    requires Scanned(s.records.Keys, ExpiringIDs(s, owner, now), ids, rest) && id in rest
    ensures var due, t := ExpiringIDs(s, owner, now), ExpireEach(s.records, ids, now);
            && id in t && |ids + {id}| == |ids| + 1
            && (if Expires(t[id], owner, now) then
                  && Scanned(s.records.Keys, due, ids + {id}, rest - {id})
                  && t[id := Moved(t[id], Expired, now)] == ExpireEach(s.records, ids + {id}, now)
                else Scanned(s.records.Keys, due, ids, rest - {id}))
  {
    ScanStep(s.records.Keys, ExpiringIDs(s, owner, now), ids, rest, id);
    ExpireOneMore(s.records, ids, now, id);
  }

  lemma ClaimStep(s: Repo, now: Time, ids: set<string>, rest: set<string>, id: string)
    requires Scanned(s.projections.Keys, ClaimableIDs(s, now), ids, rest) && id in rest
    ensures var due, t := ClaimableIDs(s, now), ClaimEach(s.projections, ids, now);
            && id in t && id !in ids && |ids + {id}| == |ids| + 1
            && (if Claimable(t[id], now) then
                  && Scanned(s.projections.Keys, due, ids + {id}, rest - {id})
                  && t[id := ClaimOne(t[id], now)] == ClaimEach(s.projections, ids + {id}, now)
                else Scanned(s.projections.Keys, due, ids, rest - {id}))
  {
  }

  // What was handed out is what is stored.
  ghost predicate ClaimedAre(order: seq<string>, claimed: seq<Projection>, projections: map<string, Projection>) {
    |claimed| == |order| && forall i :: 0 <= i < |order| ==> order[i] in projections && claimed[i] == projections[order[i]]
  }

  lemma ClaimedGrows(order: seq<string>, claimed: seq<Projection>, projections: map<string, Projection>, id: string, p: Projection)
    requires ClaimedAre(order, claimed, projections) && id !in order
    ensures ClaimedAre(order + [id], claimed + [p], projections[id := p])
  {
  }

  // Each of the ids once.
  ghost predicate IsOrder(order: seq<string>, ids: set<string>) {
    ids == (set id | id in order) && forall i, j :: 0 <= i < j < |order| ==> order[i] != order[j]
  }

  lemma OrderGrows(order: seq<string>, ids: set<string>, id: string)
    requires IsOrder(order, ids) && id !in ids
    ensures IsOrder(order + [id], ids + {id}) && id !in order
  {
  }

  lemma OrderIs(order: seq<string>, ids: set<string>)
    requires IsOrder(order, ids)
    ensures ids == set id | id in order
  {
  }
}
