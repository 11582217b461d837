// The memory store under any sequence of operations, and what every one of them keeps.
module MemorySystem {
  import opened Basics
  import opened MemorySpec

  datatype Action =
    | Committing(m: Mutation, clock: Time)
    | Transitioning(t: Transition)
    | Activating(a: Activation, clock: Time)
    | Expiring(owner: Owner, now: Time, limit: int, ids: set<string>)
    | Claiming(limit: int, now: Time, ids: set<string>)
    | Completing(owner: Owner, id: string, now: Time)
    | Failing(owner: Owner, id: string, code: string, next: Time, permanent: bool)

  // How callers use CommitMutation: a new record supersedes nothing yet is superseded
  // by nothing, each target is named once, and no target is asked to become active.
  predicate ProperMutation(m: Mutation) {
    && (m.newMemory.Some? ==> m.newMemory.value.supersededBy == "")
    && (forall i, j :: 0 <= i < j < |m.targets| ==> m.targets[i].id != m.targets[j].id)
    && (forall i :: 0 <= i < |m.targets| ==> !m.targets[i].newStatus.Active?)
  }

  ghost predicate Enabled(s: Repo, a: Action) {
    match a
    case Committing(m, _) => ProperMutation(m)
    case Expiring(owner, now, limit, ids) => IsExpiry(s, owner, now, limit, ids)
    case Claiming(limit, now, ids) => IsClaim(s, limit, now, ids)
    case _ => true
  }

  ghost function Step(c: Config, s: Repo, a: Action): Repo {
    if !Enabled(s, a) then s
    else
      match a
      case Committing(m, clock) => CommitMutation(c, s, m, clock).0
      case Transitioning(t) => TransitionMemory(c, s, t).0
      case Activating(act, clock) => ActivateCandidateSuperseding(c, s, act, clock).0
      case Expiring(owner, now, _, ids) => Expire(s, owner, now, ids)
      case Claiming(_, now, ids) => ClaimProjections(s, now, ids)
      case Completing(owner, id, now) => CompleteProjection(s, owner, id, now).0
      case Failing(owner, id, code, next, permanent) => FailProjection(c, s, owner, id, code, next, permanent).0
  }

  ghost function Exec(c: Config, s: Repo, actions: seq<Action>): Repo
    decreases |actions|
  {
    if actions == [] then s
    else
      var last := |actions| - 1;
      Step(c, Exec(c, s, actions[..last]), actions[last])
  }

  // ---- How one record changes ----

  // Everything but the status, the row version, the successor and the update time.
  predicate SameContent(r: Record, t: Record) {
    t == r.(status := t.status, rowVersion := t.rowVersion, supersededBy := t.supersededBy, updatedAt := t.updatedAt)
  }

  // One operation: an allowed change of status, one version on, and a successor only
  // for a record that was just superseded.
  predicate RecordStep(r: Record, t: Record) {
    t == r ||
      (&& SameContent(r, t)
       && CanTransition(r.status, t.status)
       && t.rowVersion == r.rowVersion + 1
       && (t.supersededBy != r.supersededBy ==> t.status.Superseded?))
  }

  // Any number of operations.
  predicate NetChange(from: Status, to: Status) {
    from == to || CanTransition(from, to) || (from.Candidate? && (to.Superseded? || to.Revoked?))
  }

  predicate RecordRun(r: Record, t: Record) {
    && SameContent(r, t)
    && NetChange(r.status, t.status)
    && r.rowVersion <= t.rowVersion
    && (r.rowVersion == t.rowVersion ==> t == r)
    && (Obsolete(r.status) ==> t == r)
  }

  // ---- The invariant ----

  ghost predicate RecordInv(records: map<string, Record>, id: string)
    requires id in records
  {
    var r := records[id];
    && r.id == id
    && ValidIdentifier(id)
    && (r.supersededBy != "" ==>
          r.status.Superseded? && r.supersededBy in records && records[r.supersededBy].owner == r.owner)
  }

  // Successors rank higher, so following them ends.
  ghost predicate Ranks(records: map<string, Record>, rank: map<string, nat>) {
    && rank.Keys == records.Keys
    && forall id :: id in records && records[id].supersededBy != "" ==>
         records[id].supersededBy in rank && rank[id] < rank[records[id].supersededBy]
  }

  predicate RowInv(c: Config, projections: map<string, Projection>, id: string)
    requires id in projections
  {
    var p := projections[id];
    p.id == id && p.modelVersion == c.projectionVersion && id == ProjectionID(p.owner, p.memoryID, p.contentHash, p.modelVersion)
  }

  // A row is about a record of its owner with its content.
  predicate RowRecord(records: map<string, Record>, p: Projection) {
    p.memoryID in records && records[p.memoryID].owner == p.owner && records[p.memoryID].contentHash == p.contentHash
  }

  // An active record has its outbox row.
  predicate Queued(c: Config, projections: map<string, Projection>, r: Record) {
    r.status.Active? ==> ProjectionID(r.owner, r.id, r.contentHash, c.projectionVersion) in projections
  }

  ghost predicate RecordsInv(records: map<string, Record>) {
    && (forall id :: id in records ==> RecordInv(records, id))
    && exists rank :: Ranks(records, rank)
  }

  ghost predicate OutboxInv(c: Config, s: Repo) {
    && (forall id :: id in s.projections ==> RowInv(c, s.projections, id))
    && (forall id :: id in s.projections ==> RowRecord(s.records, s.projections[id]))
    && (forall id :: id in s.records ==> Queued(c, s.projections, s.records[id]))
  }

  ghost predicate Inv(c: Config, s: Repo) {
    RecordsInv(s.records) && OutboxInv(c, s)
  }
}
