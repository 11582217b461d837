// The outbox invariant holds in every reachable state, and what follows from it.
module ReminderProofs {
  import opened Basics
  import opened Ordering
  import opened ReminderSpec
  import opened ReminderSystem

  // ---- How a step may change the repository ----

  // Reminders and deliveries are kept; each either keeps what its version stands for
  // or moves to a newer version; a delivery keeps what it delivers and to whom.
  ghost predicate Evolves(a: Repo, b: Repo) {
    && a.reminders.Keys <= b.reminders.Keys
    && (forall id :: id in a.reminders ==> NotNewer(a.reminders[id], b.reminders[id]))
    && a.deliveries.Keys <= b.deliveries.Keys
    && (forall id :: id in a.deliveries ==> SameDelivery(a.deliveries[id], b.deliveries[id]))
  }

  predicate SameDelivery(a: Delivery, b: Delivery) {
    a.id == b.id && a.key == b.key && a.reminderID == b.reminderID && a.text == b.text
  }

  lemma KeepsDelivery(a: Repo, b: Repo, reminderID: string)
    requires forall id :: id in a.deliveries ==> id in b.deliveries && b.deliveries[id].reminderID == a.deliveries[id].reminderID
    ensures HasDelivery(a, reminderID) ==> HasDelivery(b, reminderID)
  {
  }

  lemma ReminderHasID(s: Repo, id: string)
    requires RepoInv(s) && id in s.reminders
    ensures s.reminders[id].id == id && !s.reminders[id].status.StatusUnset?
  {
  }

  // A change of a reminder no delivery depends on: handled reminders keep status and content.
  predicate Aside(a: Reminder, b: Reminder) {
    && NotNewer(a, b)
    && !b.status.StatusUnset?
    && (Handled(a.status) || Handled(b.status) ==> b.status == a.status && b.content == a.content)
  }

  // Reminders changed aside from the deliveries, or were added unhandled.
  ghost predicate ChangedAside(s: Repo, next: Repo) {
    && next.deliveries == s.deliveries && next.occurrences == s.occurrences
    && s.reminders.Keys <= next.reminders.Keys
    && (forall id :: id in s.reminders ==> Aside(s.reminders[id], next.reminders[id]))
    && (forall id :: id in next.reminders && id !in s.reminders ==>
          next.reminders[id].id == id && !next.reminders[id].status.StatusUnset? && !Handled(next.reminders[id].status))
  }

  lemma AsideDelivery(s: Repo, next: Repo, d: string)
    requires ChangedAside(s, next) && d in s.deliveries && DeliveryInv(s, d)
    ensures DeliveryInv(next, d)
  {
    hide OccurrenceFor;
  }

  lemma AsideReminder(s: Repo, next: Repo, id: string)
    requires ChangedAside(s, next) && id in next.reminders && (id in s.reminders ==> ReminderInv(s, id))
    ensures ReminderInv(next, id)
  {
  }

  lemma AsideEvolves(s: Repo, next: Repo)
    requires RepoInv(s) && ChangedAside(s, next)
    ensures RepoInv(next) && Evolves(s, next)
  {
    hide DeliveryInv, ReminderInv;
    forall d | d in next.deliveries
      ensures DeliveryInv(next, d)
    {
      AsideDelivery(s, next, d);
    }
    forall id | id in next.reminders
      ensures ReminderInv(next, id)
    {
      AsideReminder(s, next, id);
    }
  }

  lemma CreateEvolves(rules: Rules, s: Repo, input: CreateInput)
    requires RepoInv(s) && input.reminder.status.StatusScheduled?
    ensures var next := Create(rules, s, input).0;
            && RepoInv(next) && Evolves(s, next) && next.deliveries == s.deliveries
  {
    hide Refusal, Replay, RepoInv, Evolves;
    AllReminderIDs(s);
    AsideEvolves(s, Create(rules, s, input).0);
  }

  lemma AllReminderIDs(s: Repo)
    requires RepoInv(s)
    ensures forall id :: id in s.reminders ==> s.reminders[id].id == id && !s.reminders[id].status.StatusUnset?
  {
  }

  lemma MutateEvolves(rules: Rules, s: Repo, input: MutateInput, cancel: bool)
    requires RepoInv(s)
    ensures var next := Mutate(rules, s, input, cancel).0;
            && RepoInv(next) && Evolves(s, next) && next.deliveries == s.deliveries
  {
    hide Replay, RepoInv, Evolves;
    AllReminderIDs(s);
    AsideEvolves(s, Mutate(rules, s, input, cancel).0);
  }

  lemma ClaimDueEvolves(s: Repo, due: DueRequest, ids: seq<string>)
    requires RepoInv(s) && IsDueBatch(s, due, ids)
    ensures var next := ClaimDue(s, due, ids);
            && RepoInv(next) && Evolves(s, next) && next.deliveries == s.deliveries
  {
    AllReminderIDs(s);
    DueUnhandled(s, due.now);
    assert forall id :: id in ids ==> id in DueIDs(s, due.now);
    hide RepoInv, Evolves, DueIDs, IsBatch;
    AsideEvolves(s, ClaimDue(s, due, ids));
  }

  lemma DueUnhandled(s: Repo, now: Time)
    ensures forall id :: id in DueIDs(s, now) ==> id in s.reminders && !Handled(s.reminders[id].status)
  {
  }

  lemma RenewEvolves(s: Repo, id: string, version: nat, token: string, until: Time)
    requires RepoInv(s)
    ensures var next := RenewClaim(s, id, version, token, until).0;
            && RepoInv(next) && Evolves(s, next) && next.deliveries == s.deliveries
  {
    hide RepoInv, Evolves;
    AllReminderIDs(s);
    AsideEvolves(s, RenewClaim(s, id, version, token, until).0);
  }

  // ---- Steps that change deliveries ----

  // Deliveries and reminders moved, each delivery still matching its reminder.
  ghost predicate Moved(s: Repo, next: Repo) {
    && next.occurrences == s.occurrences
    && next.deliveries.Keys == s.deliveries.Keys
    && next.reminders.Keys == s.reminders.Keys
    && (forall d :: d in s.deliveries ==> SameDelivery(s.deliveries[d], next.deliveries[d]))
    && (forall id :: id in s.reminders ==>
          && NotNewer(s.reminders[id], next.reminders[id])
          && next.reminders[id].content == s.reminders[id].content
          && !next.reminders[id].status.StatusUnset?
          && (Handled(next.reminders[id].status) ==> Handled(s.reminders[id].status)))
    && (forall d :: d in s.deliveries ==> MatchesIn(next, s.deliveries[d].reminderID, next.deliveries[d]))
  }

  predicate MatchesIn(s: Repo, reminderID: string, d: Delivery) {
    reminderID in s.reminders && Matches(d.status, s.reminders[reminderID].status)
  }

  lemma MovedEvolves(s: Repo, next: Repo)
    requires RepoInv(s) && Moved(s, next)
    ensures RepoInv(next) && Evolves(s, next)
  {
    hide DeliveryInv, ReminderInv, MatchesIn, NotNewer;
    forall d | d in next.deliveries
      ensures DeliveryInv(next, d)
    {
      MovedDelivery(s, next, d);
    }
    forall id | id in next.reminders
      ensures ReminderInv(next, id)
    {
      MovedReminder(s, next, id);
    }
    assert OneDelivery(next);
    MovedNewer(s, next);
  }

  lemma MovedNewer(s: Repo, next: Repo)
    requires Moved(s, next)
    ensures Evolves(s, next)
  {
    hide MatchesIn;
  }

  lemma MovedDelivery(s: Repo, next: Repo, d: string)
    requires Moved(s, next) && d in s.deliveries && DeliveryInv(s, d)
    ensures DeliveryInv(next, d)
  {
  }

  lemma MovedReminder(s: Repo, next: Repo, id: string)
    requires Moved(s, next) && id in s.reminders && ReminderInv(s, id)
    ensures ReminderInv(next, id)
  {
  }

  lemma AllDeliveriesMatch(s: Repo)
    requires RepoInv(s)
    ensures forall d :: d in s.deliveries ==> s.deliveries[d].id == d && MatchesIn(s, s.deliveries[d].reminderID, s.deliveries[d])
  {
  }

  lemma TakeMoves(s: Repo, work: WorkRequest, ids: seq<string>)
    requires forall id :: id in s.reminders ==> !s.reminders[id].status.StatusUnset?
    requires forall d :: d in s.deliveries ==> MatchesIn(s, s.deliveries[d].reminderID, s.deliveries[d])
    requires forall id :: id in ids ==> id in s.deliveries && Open(s.deliveries[id])
    ensures Moved(s, ClaimDeliveries(s, work, ids))
  {
    var next := ClaimDeliveries(s, work, ids);
    forall d | d in s.deliveries
      ensures SameDelivery(s.deliveries[d], next.deliveries[d])
      ensures MatchesIn(next, s.deliveries[d].reminderID, next.deliveries[d])
    {
      assert MatchesIn(s, s.deliveries[d].reminderID, s.deliveries[d]);
    }
    hide MatchesIn, SameDelivery;
  }

  lemma TakeEvolves(s: Repo, work: WorkRequest, ids: seq<string>)
    requires RepoInv(s) && IsWorkBatch(s, work, ids)
    ensures var next := ClaimDeliveries(s, work, ids);
            && RepoInv(next) && Evolves(s, next)
  {
    hide RepoInv, Evolves, IsBatch, Moved, MatchesIn, ClaimDeliveries;
    AllReminderIDs(s);
    AllDeliveriesMatch(s);
    BatchOpen(s, work, ids);
    TakeMoves(s, work, ids);
    MovedEvolves(s, ClaimDeliveries(s, work, ids));
  }

  lemma BatchOpen(s: Repo, work: WorkRequest, ids: seq<string>)
    requires IsWorkBatch(s, work, ids)
    ensures forall id :: id in ids ==> id in s.deliveries && Open(s.deliveries[id])
  {
  }

  // One delivery and its reminder move together.
  lemma TogetherMoves(s: Repo, id: string, d: Delivery, r: Reminder)
    requires forall x :: x in s.reminders ==> s.reminders[x].id == x && !s.reminders[x].status.StatusUnset?
    requires forall x :: x in s.deliveries ==> s.deliveries[x].id == x && MatchesIn(s, s.deliveries[x].reminderID, s.deliveries[x])
    requires id in s.deliveries
    requires forall x :: x in s.deliveries && s.deliveries[x].reminderID == s.deliveries[id].reminderID ==> x == id
    requires SameDelivery(s.deliveries[id], d)
    requires d.reminderID in s.reminders && r.id == d.reminderID && NotNewer(s.reminders[d.reminderID], r)
    requires r.content == s.reminders[d.reminderID].content
    requires Matches(d.status, r.status)
    ensures Moved(s, s.(deliveries := s.deliveries[id := d], reminders := s.reminders[r.id := r]))
  {
  }

  lemma MoveTogether(s: Repo, id: string, d: Delivery, r: Reminder)
    requires RepoInv(s) && id in s.deliveries
    requires SameDelivery(s.deliveries[id], d)
    requires d.reminderID in s.reminders && r.id == d.reminderID && NotNewer(s.reminders[d.reminderID], r)
    requires r.content == s.reminders[d.reminderID].content
    requires Matches(d.status, r.status)
    ensures d.id == id
    ensures var next := s.(deliveries := s.deliveries[id := d], reminders := s.reminders[r.id := r]);
            && RepoInv(next) && Evolves(s, next)
  {
    hide RepoInv, Evolves, Moved, MatchesIn;
    AllReminderIDs(s);
    AllDeliveriesMatch(s);
    OnlyOne(s, id);
    TogetherMoves(s, id, d, r);
    MovedEvolves(s, s.(deliveries := s.deliveries[id := d], reminders := s.reminders[r.id := r]));
  }

  lemma OnlyOne(s: Repo, id: string)
    requires RepoInv(s) && id in s.deliveries
    ensures forall x :: x in s.deliveries && s.deliveries[x].reminderID == s.deliveries[id].reminderID ==> x == id
  {
    hide DeliveryInv, ReminderInv;
  }

  // ---- A new occurrence ----

  lemma CommitDelivery(s: Repo, input: CommitInput, d: string)
    requires RepoInv(s) && input.reminderID in s.reminders && input.occurrenceID !in s.occurrences
    requires OccurrenceFor(input.reminderID, input.occurrenceID)
    requires MayCommit(s.reminders[input.reminderID], input)
    requires d == input.occurrenceID || d in s.deliveries
    ensures var next := CommitOccurrence(s, input).0;
            && d in next.deliveries && DeliveryInv(next, d)
            && (d in s.deliveries ==> s.deliveries[d].reminderID != input.reminderID)
  {
  }

  lemma CommitReminder(s: Repo, input: CommitInput, id: string)
    requires RepoInv(s) && input.reminderID in s.reminders && input.occurrenceID !in s.occurrences
    requires MayCommit(s.reminders[input.reminderID], input)
    requires id in s.reminders
    ensures var next := CommitOccurrence(s, input).0;
            && id in next.reminders && ReminderInv(next, id) && NotNewer(s.reminders[id], next.reminders[id])
  {
    hide DeliveryInv, OneDelivery;
    var next := CommitOccurrence(s, input).0;
    ReminderHasID(s, input.reminderID);
    assert ReminderInv(s, id);
    KeepsDelivery(s, next, id);
    if id == input.reminderID {
      assert next.deliveries[input.occurrenceID].reminderID == id;
    }
  }

  lemma CommitKeepsParts(s: Repo, input: CommitInput)
    requires RepoInv(s) && input.reminderID in s.reminders && input.occurrenceID !in s.occurrences
    requires OccurrenceFor(input.reminderID, input.occurrenceID)
    requires MayCommit(s.reminders[input.reminderID], input)
    ensures var next := CommitOccurrence(s, input).0;
            && (forall d :: d in next.deliveries ==> DeliveryInv(next, d))
            && (forall id :: id in next.reminders ==> ReminderInv(next, id))
            && (forall id :: id in s.reminders ==> id in next.reminders && NotNewer(s.reminders[id], next.reminders[id]))
            && (forall d :: d in s.deliveries ==> s.deliveries[d].reminderID != input.reminderID)
  {
    hide DeliveryInv, ReminderInv, NotNewer, RepoInv;
    ReminderHasID(s, input.reminderID);
    var next := CommitOccurrence(s, input).0;
    forall d | d == input.occurrenceID || d in s.deliveries
      ensures DeliveryInv(next, d)
      ensures d in s.deliveries ==> s.deliveries[d].reminderID != input.reminderID
    {
      CommitDelivery(s, input, d);
    }
    forall id | id in s.reminders
      ensures ReminderInv(next, id) && NotNewer(s.reminders[id], next.reminders[id])
    {
      CommitReminder(s, input, id);
    }
  }

  lemma CommitEvolves(s: Repo, input: CommitInput)
    requires RepoInv(s) && OccurrenceFor(input.reminderID, input.occurrenceID)
    ensures var next := CommitOccurrence(s, input).0;
            && RepoInv(next) && Evolves(s, next)
  {
    hide DeliveryInv, ReminderInv, NotNewer, OccurrenceFor;
    if input.reminderID in s.reminders && input.occurrenceID !in s.occurrences && MayCommit(s.reminders[input.reminderID], input) {
      ReminderHasID(s, input.reminderID);
      CommitKeepsParts(s, input);
    } else {
      NothingMoved(s);
    }
  }

  lemma NothingMoved(s: Repo)
    requires RepoInv(s)
    ensures Evolves(s, s)
  {
  }

  // The reminder of an open delivery is there and is processing: completing never
  // meets the state conflict, and failing never writes a reminder that is not its own.
  lemma OpenDeliveryReminder(s: Repo, id: string)
    requires RepoInv(s) && id in s.deliveries
    ensures var d := s.deliveries[id];
            && d.id == id
            && d.reminderID in s.reminders
            && Lookup(s, d.reminderID).id == d.reminderID
            && (Open(d) <==> Lookup(s, d.reminderID).status.StatusProcessing?)
  {
  }

  lemma CompleteEvolves(s: Repo, id: string, token: string, now: Time)
    requires RepoInv(s)
    ensures var (next, e) := CompleteDelivery(s, id, token, now);
            && RepoInv(next) && Evolves(s, next) && e != Some(StateConflict)
  {
    hide RepoInv, Evolves;
    var next := CompleteDelivery(s, id, token, now).0;
    if id in s.deliveries && s.deliveries[id].status.DeliveryProcessing? && s.deliveries[id].claimToken == token {
      OpenDeliveryReminder(s, id);
      var d := s.deliveries[id];
      var r := Lookup(s, d.reminderID);
      MoveTogether(s, id, d.(status := DeliveryCompleted, claimToken := "", leaseUntil := None),
        r.(status := StatusFired, rowVersion := r.rowVersion + 1, updatedAt := now));
    } else {
      NothingMoved(s);
    }
  }

  lemma FailEvolves(s: Repo, f: Failure)
    requires RepoInv(s)
    ensures var next := FailDelivery(s, f).0;
            && RepoInv(next) && Evolves(s, next)
  {
    hide RepoInv, Evolves;
    if f.id in s.deliveries && s.deliveries[f.id].status.DeliveryProcessing? && s.deliveries[f.id].claimToken == f.token {
      OpenDeliveryReminder(s, f.id);
      var d := s.deliveries[f.id].(lastErrorCode := f.errorCode, claimToken := "", leaseUntil := None);
      var r := Lookup(s, d.reminderID);
      if f.permanent {
        MoveTogether(s, f.id, d.(status := DeliveryPermanentFailed),
          r.(status := StatusFailed, lastErrorCode := f.errorCode, rowVersion := r.rowVersion + 1, updatedAt := f.now));
      } else {
        MoveTogether(s, f.id, d.(status := DeliveryPending, availableAt := f.nextAvailable), r);
      }
    } else {
      NothingMoved(s);
    }
  }

  // ---- The rest of the invariant ----

  // Items handed out earlier keep their meaning when no delivery appears.
  lemma ItemsKeep(a: Repo, b: Repo, item: DueItem)
    requires Evolves(a, b) && ItemInv(a, item)
    requires Keyed(item.reminder.id, item.reminder.rowVersion) in b.deliveries ==>
               Keyed(item.reminder.id, item.reminder.rowVersion) in a.deliveries
    ensures ItemInv(b, item)
  {
    hide Keyed;
  }

  lemma JobsKeep(a: Repo, b: Repo, job: Job)
    requires Evolves(a, b) && JobInv(a, job)
    ensures JobInv(b, job)
  {
  }

  lemma AdapterKeeps(a: Repo, b: Repo, adapter: Adapter)
    requires Evolves(a, b) && AdapterInv(a, adapter)
    ensures AdapterInv(b, adapter)
  {
  }

  // A step that changes only the repository, and adds no delivery.
  lemma RepoStep(sys: System, repo: Repo)
    requires Inv(sys) && RepoInv(repo) && Evolves(sys.repo, repo)
    requires repo.deliveries.Keys == sys.repo.deliveries.Keys
    requires CompletedInv(repo, sys.adapter.results)
    ensures Inv(sys.(repo := repo))
  {
    hide RepoInv, Evolves, AdapterInv, CompletedInv, ItemInv, JobInv;
    AdapterKeeps(sys.repo, repo, sys.adapter);
    forall item | item in sys.items
      ensures ItemInv(repo, item)
    {
      ItemsKeep(sys.repo, repo, item);
    }
    forall job | job in sys.jobs
      ensures JobInv(repo, job)
    {
      JobsKeep(sys.repo, repo, job);
    }
  }

  lemma DispatchStep(sys: System, item: DueItem)
    requires Inv(sys) && item in sys.items
    ensures Inv(sys.(repo := CommitOccurrence(sys.repo, OccurrenceOf(item)).0))
  {
    hide RepoInv, Evolves, AdapterInv, JobInv;
    var s := sys.repo;
    var input := OccurrenceOf(item);
    assert OccurrenceFor(input.reminderID, input.occurrenceID);
    CommitEvolves(s, input);
    var next := CommitOccurrence(s, input).0;
    AdapterKeeps(s, next, sys.adapter);
    forall other | other in sys.items
      ensures ItemInv(next, other)
    {
      DispatchKeepsItem(s, item, other);
    }
    forall job | job in sys.jobs
      ensures JobInv(next, job)
    {
      JobsKeep(s, next, job);
    }
    DispatchKeepsCompleted(sys, item);
  }

  lemma DispatchKeepsCompleted(sys: System, item: DueItem)
    requires CompletedInv(sys.repo, sys.adapter.results)
    ensures CompletedInv(CommitOccurrence(sys.repo, OccurrenceOf(item)).0, sys.adapter.results)
  {
    hide Keyed;
  }

  lemma DispatchKeepsItem(s: Repo, item: DueItem, other: DueItem)
    requires RepoInv(s) && ItemInv(s, item) && ItemInv(s, other)
    ensures ItemInv(CommitOccurrence(s, OccurrenceOf(item)).0, other)
  {
    hide Keyed, RepoInv;
    var next := CommitOccurrence(s, OccurrenceOf(item)).0;
    ReminderHasID(s, item.reminder.id);
    if Keyed(other.reminder.id, other.reminder.rowVersion) == Keyed(item.reminder.id, item.reminder.rowVersion) {
      KeyedInjective(other.reminder.id, other.reminder.rowVersion, item.reminder.id, item.reminder.rowVersion);
    }
  }

  lemma ClaimingStep(sys: System, due: DueRequest, ids: seq<string>)
    requires Inv(sys) && IsDueBatch(sys.repo, due, ids)
    ensures Inv(sys.(repo := ClaimDue(sys.repo, due, ids), items := sys.items + ItemsOf(sys.repo, due, ids)))
  {
    var next := ClaimDue(sys.repo, due, ids);
    ClaimDueEvolves(sys.repo, due, ids);
    RepoStep(sys, next) by { hide RepoInv, Evolves; }
    hide RepoInv, Evolves, AdapterInv, CompletedInv, JobInv, Keyed, IsBatch;
    forall item | item in ItemsOf(sys.repo, due, ids)
      ensures ItemInv(next, item)
    {
      var i :| 0 <= i < |ids| && item == DueItem(Claimed(sys.repo.reminders[ids[i]], due), due.token, due.now);
      NewItem(sys.repo, due, ids, i);
    }
  }

  lemma NewItem(s: Repo, due: DueRequest, ids: seq<string>, i: nat)
    requires RepoInv(s) && IsDueBatch(s, due, ids) && i < |ids|
    ensures ItemInv(ClaimDue(s, due, ids), DueItem(Claimed(s.reminders[ids[i]], due), due.token, due.now))
  {
    hide Keyed;
    var id := ids[i];
    assert ReminderInv(s, id);
    var key := Keyed(id, s.reminders[id].rowVersion + 1);
    if key in s.deliveries {
      assert DeliveryInv(s, key);
      var d := s.deliveries[key];
      var version :| key == Keyed(d.reminderID, version);
      KeyedInjective(d.reminderID, version, id, s.reminders[id].rowVersion + 1);
    }
  }

  lemma TakingStep(sys: System, work: WorkRequest, ids: seq<string>)
    requires Inv(sys) && IsWorkBatch(sys.repo, work, ids)
    ensures Inv(sys.(repo := ClaimDeliveries(sys.repo, work, ids), jobs := sys.jobs + JobsOf(sys.repo, work, ids)))
  {
    hide RepoInv, AdapterInv, ItemInv, Matches, Evolves;
    var next := ClaimDeliveries(sys.repo, work, ids);
    TakeEvolves(sys.repo, work, ids);
    RepoStep(sys, next);
    AllDeliveriesMatch(sys.repo);
    AllKeys(sys.repo);
    forall job | job in JobsOf(sys.repo, work, ids)
      ensures JobInv(next, job)
    {
      var i :| 0 <= i < |ids| && job == Job(Taken(sys.repo.deliveries[ids[i]], work), work.token, work.now);
    }
  }

  lemma AllKeys(s: Repo)
    requires RepoInv(s)
    ensures forall d :: d in s.deliveries ==> s.deliveries[d].key == d
  {
  }

  lemma DeliveringStep(rules: Rules, sys: System, job: Job)
    requires Inv(sys) && job in sys.jobs
    ensures Inv(Step(rules, sys, Delivering(job)))
  {
    hide RepoInv, ItemInv, Keyed, AdapterInv;
    var request := RequestOf(job.delivery);
    assert JobInv(sys.repo, job);
    DeliverKeeps(sys.repo, sys.adapter, request);
  }

  lemma DeliverKeeps(s: Repo, a: Adapter, request: Request)
    requires AdapterInv(s, a) && EffectInv(s, request)
    ensures AdapterInv(s, Deliver(a, request).0)
  {
    hide EffectInv;
    var adapter := Deliver(a, request).0;
    if adapter != a {
      forall key | key in adapter.results
        ensures exists i :: 0 <= i < |adapter.effects| && adapter.effects[i].key == key
      {
        if key == request.key {
          assert adapter.effects[|a.effects|].key == key;
        } else {
          var i :| 0 <= i < |a.effects| && a.effects[i].key == key;
          assert adapter.effects[i].key == key;
        }
      }
    }
  }

  lemma CompletingStep(sys: System, job: Job)
    requires Inv(sys) && job in sys.delivered
    ensures Inv(sys.(repo := CompleteDelivery(sys.repo, job.delivery.id, job.token, job.at).0))
  {
    hide RepoInv, Evolves, AdapterInv, ItemInv;
    CompleteEvolves(sys.repo, job.delivery.id, job.token, job.at);
    assert JobInv(sys.repo, job);
    RepoStep(sys, CompleteDelivery(sys.repo, job.delivery.id, job.token, job.at).0);
  }

  lemma FailingStep(sys: System, f: Failure)
    requires Inv(sys)
    ensures Inv(sys.(repo := FailDelivery(sys.repo, f).0))
  {
    hide RepoInv, Evolves, AdapterInv, ItemInv, JobInv;
    FailEvolves(sys.repo, f);
    if f.id in sys.repo.deliveries {
      OpenDeliveryReminder(sys.repo, f.id);
    }
    RepoStep(sys, FailDelivery(sys.repo, f).0);
  }

  lemma StepKeepsInv(rules: Rules, sys: System, a: Action)
    requires Inv(sys)
    ensures Inv(Step(rules, sys, a))
  {
    hide Inv, RepoInv, Evolves, AdapterInv, ItemInv, JobInv, CompletedInv, IsDueBatch, IsWorkBatch;
    if Enabled(sys, a) {
      match a
      case Creating(input) =>
        InvRepo(sys);
        CreateEvolves(rules, sys.repo, input);
        RepoStep(sys, Create(rules, sys.repo, input).0);
      case Mutating(input, cancel) =>
        InvRepo(sys);
        MutateEvolves(rules, sys.repo, input, cancel);
        RepoStep(sys, Mutate(rules, sys.repo, input, cancel).0);
      case Claiming(due, ids) => ClaimingStep(sys, due, ids);
      case Renewing(id, version, token, until) =>
        InvRepo(sys);
        RenewEvolves(sys.repo, id, version, token, until);
        RepoStep(sys, RenewClaim(sys.repo, id, version, token, until).0);
      case Dispatching(item) => DispatchStep(sys, item);
      case Taking(work, ids) => TakingStep(sys, work, ids);
      case Delivering(job) => DeliveringStep(rules, sys, job);
      case Completing(job) => CompletingStep(sys, job);
      case Failing(job, code, next, permanent) =>
        FailingStep(sys, Failure(job.delivery.id, job.token, code, job.at, next, permanent));
    }
  }

  lemma InvRepo(sys: System)
    requires Inv(sys)
    ensures RepoInv(sys.repo)
    ensures forall repo: Repo :: repo.deliveries == sys.repo.deliveries ==> CompletedInv(repo, sys.adapter.results)
  {
  }

  lemma {:induction false} Reachable(rules: Rules, actions: seq<Action>)
    ensures Inv(Exec(rules, INIT, actions))
    decreases |actions|
  {
    hide Step;
    if actions != [] {
      var last := |actions| - 1;
      Reachable(rules, actions[..last]);
      StepKeepsInv(rules, Exec(rules, INIT, actions[..last]), actions[last]);
    }
  }
}
