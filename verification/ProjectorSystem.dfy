// Projections retried over any history: batches, crashes between claim and outcome,
// and memory operations in between, in any interleaving.
module ProjectorSystem {
  import opened Basics
  import opened Scans
  import opened MemorySpec
  import opened MemorySystem
  import opened MemoryProofs
  import opened MemoryTheorems
  import opened ProjectorSpec

  // `jobs` are the projections claimed and not yet handled, by their ids. A crashed
  // worker never handles its own.
  datatype System = System(repo: Repo, jobs: map<string, Projection>)

  const INIT := System(EMPTY_REPO, map[])

  datatype Event =
    | Storing(a: Action)
    | Claim(limit: int, now: Time, ids: set<string>)
    | Handling(id: string, answer: Answer, now: Time)

  // Content hashes are digests: they hold no colon.
  ghost predicate Allowed(sys: System, e: Event) {
    match e
    case Storing(a) =>
      && !a.Claiming? && !a.Completing? && !a.Failing?
      && (a.Committing? && a.m.newMemory.Some? ==> ':' !in a.m.newMemory.value.contentHash)
    case Claim(limit, now, ids) => IsClaim(sys.repo, limit, now, ids)
    case Handling(id, _, _) => id in sys.jobs
  }

  ghost function Next(c: Config, k: ProjectorConfig, sys: System, e: Event): System
    requires ValidConfig(k)
  {
    if !Allowed(sys, e) then sys
    else
      match e
      case Storing(a) => sys.(repo := Step(c, sys.repo, a))
      case Claim(_, now, ids) =>
        var t := ClaimProjections(sys.repo, now, ids);
        System(t, sys.jobs + map id | id in ids && id in t.projections :: t.projections[id])
      case Handling(id, answer, now) =>
        System(Handle(c, k, sys.repo, sys.jobs[id], answer, now).0, sys.jobs - {id})
  }

  ghost function Run(c: Config, k: ProjectorConfig, sys: System, events: seq<Event>): System
    requires ValidConfig(k)
    decreases |events|
  {
    if events == [] then sys
    else Next(c, k, Run(c, k, sys, events[..|events| - 1]), events[|events| - 1])
  }

  // ---- The invariant ----

  // A row not claimed has attempts left; none has had more than its share.
  predicate AttemptInv(k: ProjectorConfig, p: Projection) {
    && p.attempt <= k.maxAttempts
    && (p.status.ProjectionPending? || p.status.ProjectionFailed? ==> p.attempt < k.maxAttempts)
  }

  // A row is about a record that has left the candidate state.
  predicate RowSettled(records: map<string, Record>, p: Projection) {
    p.memoryID in records && !records[p.memoryID].status.Candidate?
  }

  predicate JobInv(projections: map<string, Projection>, id: string, job: Projection) {
    && job.id == id
    && id in projections && projections[id].status.ProjectionProcessing? && projections[id].attempt == job.attempt
  }

  ghost predicate ColonFree(records: map<string, Record>) {
    forall id :: id in records ==> ':' !in records[id].contentHash
  }

  ghost predicate RowsInv(k: ProjectorConfig, s: Repo) {
    && ColonFree(s.records)
    && (forall id :: id in s.projections ==> AttemptInv(k, s.projections[id]))
    && (forall id :: id in s.projections ==> RowSettled(s.records, s.projections[id]))
  }

  ghost predicate SysInv(c: Config, k: ProjectorConfig, sys: System) {
    && Inv(c, sys.repo)
    && RowsInv(k, sys.repo)
    && (forall id :: id in sys.jobs ==> JobInv(sys.repo.projections, id, sys.jobs[id]))
  }

  // ---- Memory operations leave rows alone ----

  // A record about to become active has no row yet.
  lemma RowIsFresh(c: Config, s: Repo, owner: Owner, r: Record, now: Time)
    requires OutboxInv(c, s) && ColonFree(s.records) && ':' !in r.contentHash
    requires forall id :: id in s.projections ==> RowSettled(s.records, s.projections[id])
    requires r.id in s.records ==> s.records[r.id].status.Candidate?
    ensures RowFor(c, owner, r, now).id !in s.projections
  {
    hide ProjectionID;
    var key := RowFor(c, owner, r, now).id;
    if key in s.projections {
      var p := s.projections[key];
      assert RowInv(c, s.projections, key) && RowRecord(s.records, p) && RowSettled(s.records, p);
      ProjectionIDInjective(owner, r.id, r.contentHash, p.owner, p.memoryID, p.contentHash, c.projectionVersion);
      assert false;
    }
  }

  // Every row stays as it is, and what is new is a pending row of an active record.
  ghost predicate OnlyNewRows(s: Repo, t: Repo) {
    && (forall id :: id in s.projections ==> id in t.projections && t.projections[id] == s.projections[id])
    && (forall id :: id in t.projections && id !in s.projections ==>
          && t.projections[id].status.ProjectionPending? && t.projections[id].attempt == 0
          && t.projections[id].memoryID in t.records && t.records[t.projections[id].memoryID].status.Active?)
  }

  lemma QueuedOnly(c: Config, s: Repo, t: Repo, owner: Owner, r: Record, now: Time)
    requires OutboxInv(c, s) && ColonFree(s.records) && ':' !in r.contentHash
    requires forall id :: id in s.projections ==> RowSettled(s.records, s.projections[id])
    requires r.status.Active? ==> (r.id in s.records ==> s.records[r.id].status.Candidate?) && r.id in t.records && t.records[r.id].status.Active?
    requires t.projections == Queue(c, s.projections, owner, r, now)
    ensures OnlyNewRows(s, t)
  {
    hide ProjectionID;
    if r.status.Active? {
      RowIsFresh(c, s, owner, r, now);
    }
  }

  lemma NothingQueued(s: Repo, t: Repo)
    requires t.projections == s.projections
    ensures OnlyNewRows(s, t)
  {
  }

  lemma CommitQueuesOnly(c: Config, s: Repo, m: Mutation, now: Time)
    requires Inv(c, s) && ColonFree(s.records) && m.newMemory.Some? && CommitRefusal(c, s, m, now).None? && ProperMutation(m)
    requires ':' !in m.newMemory.value.contentHash
    requires forall id :: id in s.projections ==> RowSettled(s.records, s.projections[id])
    ensures OnlyNewRows(s, Committed(c, s, m, now).0) && ColonFree(Committed(c, s, m, now).0.records)
  {
    hide ApplyTargets, CommitRefusal, Queue, RecordsInv, OutboxInv, RowSettled, OnlyNewRows;
    var t := Committed(c, s, m, now).0;
    var value := m.newMemory.value.(createdAt := now, updatedAt := now);
    NewRecord(c, s, m, now);
    QueuedOnly(c, s, t, m.owner, value, now);
    CommitRewrites(c, s, m, now);
  }

  lemma StoreQueuesOnly(c: Config, s: Repo, a: Action)
    requires Inv(c, s) && ColonFree(s.records) && Allowed(System(s, map[]), Storing(a))
    requires forall id :: id in s.projections ==> RowSettled(s.records, s.projections[id])
    ensures OnlyNewRows(s, Step(c, s, a)) && ColonFree(Step(c, s, a).records)
  {
    hide Committed, CommitRefusal, Replay, Queue, RecordsInv, OutboxInv, RowSettled, OnlyNewRows, ProperMutation, ExpiringIDs, ProjectionID;
    var t := Step(c, s, a);
    NothingQueued(s, s);
    if t != s {
      match a
      case Committing(m, clock) =>
        CommitQueuesOnly(c, s, m, Now(m.occurredAt, clock));
      case Transitioning(m) =>
        FiledUnderID(s.records, m.id);
        QueuedOnly(c, s, t, m.owner, t.records[m.id], m.occurredAt);
      case Activating(m, clock) =>
        FiledUnderID(s.records, m.candidateID);
        QueuedOnly(c, s, t, m.owner, t.records[m.candidateID], Now(m.occurredAt, clock));
      case Expiring(_, _, _, _) =>
        NothingQueued(s, t);
    }
  }

  lemma SettledKept(s: Repo, t: Repo, owner: Owner, p: Projection)
    requires RecordsStep(s.records, t.records, owner) && RowSettled(s.records, p)
    ensures RowSettled(t.records, p)
  {
  }

  lemma StoringKeeps(c: Config, k: ProjectorConfig, sys: System, a: Action)
    requires ValidConfig(k) && SysInv(c, k, sys) && Allowed(sys, Storing(a))
    ensures SysInv(c, k, sys.(repo := Step(c, sys.repo, a)))
  {
    hide Step, Inv, RecordsStep, RowSettled, ColonFree;
    var s, t := sys.repo, Step(c, sys.repo, a);
    StepKeeps(c, s, a);
    StoreQueuesOnly(c, s, a);
    forall id | id in t.projections
      ensures AttemptInv(k, t.projections[id]) && RowSettled(t.records, t.projections[id])
    {
      if id in s.projections {
        SettledKept(s, t, OwnerOf(a), s.projections[id]);
      } else {
        NewRowSettled(t, id);
      }
    }
  }

  lemma NewRowSettled(t: Repo, id: string)
    requires id in t.projections && t.projections[id].memoryID in t.records && t.records[t.projections[id].memoryID].status.Active?
    ensures RowSettled(t.records, t.projections[id])
  {
  }

  // ---- Claims and outcomes ----

  lemma ClaimKeeps(c: Config, k: ProjectorConfig, sys: System, limit: int, now: Time, ids: set<string>)
    requires ValidConfig(k) && SysInv(c, k, sys) && IsClaim(sys.repo, limit, now, ids)
    ensures SysInv(c, k, Next(c, k, sys, Claim(limit, now, ids)))
  {
    hide Inv, RowsInv, IsClaim, Handle, Step;
    var s, t := sys.repo, Next(c, k, sys, Claim(limit, now, ids));
    ClaimStep(c, s, limit, now, ids);
    ClaimedWere(s, limit, now, ids);
    ClaimedRows(k, s, now, ids);
    forall id | id in t.jobs
      ensures JobInv(t.repo.projections, id, t.jobs[id])
    {
      if id in ids {
        RowOwnID(c, s, id);
      } else {
        assert JobInv(s.projections, id, sys.jobs[id]);
      }
    }
  }

  lemma ClaimStep(c: Config, s: Repo, limit: int, now: Time, ids: set<string>)
    requires Inv(c, s) && IsClaim(s, limit, now, ids)
    ensures Inv(c, ClaimProjections(s, now, ids))
  {
    hide Inv, IsClaim, ClaimEach;
    StepKeeps(c, s, Action.Claiming(limit, now, ids));
  }

  lemma ClaimedRows(k: ProjectorConfig, s: Repo, now: Time, ids: set<string>)
    requires RowsInv(k, s) && forall id :: id in ids ==> id in s.projections && Claimable(s.projections[id], now)
    ensures RowsInv(k, ClaimProjections(s, now, ids))
  {
  }

  lemma ClaimedWere(s: Repo, limit: int, now: Time, ids: set<string>)
    requires IsClaim(s, limit, now, ids)
    ensures forall id :: id in ids ==> id in s.projections && Claimable(s.projections[id], now)
  {
  }

  lemma RowOwnID(c: Config, s: Repo, id: string)
    requires Inv(c, s) && id in s.projections
    ensures s.projections[id].id == id
  {
  }

  // What an outcome does to its row: it ends it, or sends it back with attempts left.
  lemma HandleRow(c: Config, k: ProjectorConfig, s: Repo, p: Projection, answer: Answer, now: Time)
    requires ValidConfig(k) && p.id in s.projections && s.projections[p.id].attempt == p.attempt <= k.maxAttempts
    ensures var t := Handle(c, k, s, p, answer, now).0;
            && t.records == s.records && t.projections.Keys == s.projections.Keys
            && (forall id :: id in s.projections && id != p.id ==> t.projections[id] == s.projections[id])
            && (t.projections[p.id] == s.projections[p.id] || AttemptInv(k, t.projections[p.id]))
            && t.projections[p.id].memoryID == s.projections[p.id].memoryID
  {
    hide Delay, Current, OutcomeOf, CodeOf, AttemptInv;
    RetriesHaveAttemptsLeft(k, s, p, answer, now);
    var next := if p.modelVersion != k.modelVersion then now else Later(k, p, now);
    match OutcomeOf(k, s, p, answer, now)
    case Indexed => Completed(k, s, p, now);
    case Skipped => Completed(k, s, p, now);
    case GivenUp => Failed(c, k, s, p, CodeOf(k, p, answer), next, true);
    case RetryLater => Failed(c, k, s, p, CodeOf(k, p, answer), Later(k, p, now), false);
  }

  lemma RetriesHaveAttemptsLeft(k: ProjectorConfig, s: Repo, p: Projection, answer: Answer, now: Time)
    ensures OutcomeOf(k, s, p, answer, now).RetryLater? ==> p.attempt < k.maxAttempts
  {
  }

  lemma Completed(k: ProjectorConfig, s: Repo, p: Projection, now: Time)
    requires p.id in s.projections && s.projections[p.id].attempt <= k.maxAttempts
    ensures var t := CompleteProjection(s, p.owner, p.id, now).0;
            t.projections[p.id] == s.projections[p.id] || AttemptInv(k, t.projections[p.id])
  {
  }

  lemma Failed(c: Config, k: ProjectorConfig, s: Repo, p: Projection, code: string, next: Time, permanent: bool)
    requires p.id in s.projections && s.projections[p.id].attempt == p.attempt <= k.maxAttempts
    requires !permanent ==> p.attempt < k.maxAttempts
    ensures var t := FailProjection(c, s, p.owner, p.id, code, next, permanent).0;
            t.projections[p.id] == s.projections[p.id] || AttemptInv(k, t.projections[p.id])
  {
  }

  lemma HandlingInv(c: Config, k: ProjectorConfig, s: Repo, p: Projection, answer: Answer, now: Time)
    requires ValidConfig(k) && Inv(c, s)
    ensures Inv(c, Handle(c, k, s, p, answer, now).0)
  {
    hide Inv, Delay, Current, OutcomeOf, CodeOf;
    var t := Handle(c, k, s, p, answer, now).0;
    match OutcomeOf(k, s, p, answer, now)
    case Indexed => StepKeeps(c, s, Completing(p.owner, p.id, now));
    case Skipped => StepKeeps(c, s, Completing(p.owner, p.id, now));
    case GivenUp =>
      var next := if p.modelVersion != k.modelVersion then now else Later(k, p, now);
      StepKeeps(c, s, Failing(p.owner, p.id, CodeOf(k, p, answer), next, true));
    case RetryLater => StepKeeps(c, s, Failing(p.owner, p.id, CodeOf(k, p, answer), Later(k, p, now), false));
  }

  lemma HandlingKeeps(c: Config, k: ProjectorConfig, sys: System, id: string, answer: Answer, now: Time)
    requires ValidConfig(k) && SysInv(c, k, sys) && id in sys.jobs
    ensures SysInv(c, k, Next(c, k, sys, Handling(id, answer, now)))
  {
    hide Inv, Handle, ColonFree;
    var s, t := sys.repo, Next(c, k, sys, Handling(id, answer, now));
    assert JobInv(s.projections, id, sys.jobs[id]) && AttemptInv(k, s.projections[id]);
    HandleRow(c, k, s, sys.jobs[id], answer, now);
    HandlingInv(c, k, s, sys.jobs[id], answer, now);
    forall r | r in t.repo.projections
      ensures AttemptInv(k, t.repo.projections[r]) && RowSettled(t.repo.records, t.repo.projections[r])
    {
      assert AttemptInv(k, s.projections[r]) && RowSettled(s.records, s.projections[r]);
    }
    forall r | r in t.jobs
      ensures JobInv(t.repo.projections, r, t.jobs[r])
    {
      assert JobInv(s.projections, r, sys.jobs[r]);
    }
  }

  lemma NextKeeps(c: Config, k: ProjectorConfig, sys: System, e: Event)
    requires ValidConfig(k) && SysInv(c, k, sys)
    ensures SysInv(c, k, Next(c, k, sys, e))
  {
    hide SysInv, Step, Handle, ClaimProjections, IsClaim;
    if Allowed(sys, e) {
      match e
      case Storing(a) => StoringKeeps(c, k, sys, a);
      case Claim(limit, now, ids) => ClaimKeeps(c, k, sys, limit, now, ids);
      case Handling(id, answer, now) => HandlingKeeps(c, k, sys, id, answer, now);
    }
  }

  lemma {:induction false} RunKeeps(c: Config, k: ProjectorConfig, events: seq<Event>)
    requires ValidConfig(k)
    ensures SysInv(c, k, Run(c, k, INIT, events))
    decreases |events|
  {
    if events == [] {
      InitInv(c);
    } else {
      RunKeeps(c, k, events[..|events| - 1]);
      NextKeeps(c, k, Run(c, k, INIT, events[..|events| - 1]), events[|events| - 1]);
    }
  }

  // No projection is ever claimed more often than the configured number of attempts,
  // and one that has used them up is never claimed again.
  lemma AttemptsBounded(c: Config, k: ProjectorConfig, events: seq<Event>, id: string)
    requires ValidConfig(k) && id in Run(c, k, INIT, events).repo.projections
    ensures var p := Run(c, k, INIT, events).repo.projections[id];
            && p.attempt <= k.maxAttempts
            && (p.attempt == k.maxAttempts ==> forall now :: !Claimable(p, now))
  {
    RunKeeps(c, k, events);
    assert AttemptInv(k, Run(c, k, INIT, events).repo.projections[id]);
  }
}
