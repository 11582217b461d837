// The repository as an object: each method is one atomic step.
module ReminderRepository {
  import opened Basics
  import opened Ordering
  import opened ReminderSpec
  import Spec = ReminderSpec

  class FakeRepository {
    const rules: Rules
    var reminders: map<string, Reminder>
    var remembered: map<(Owner, string), Remembered>
    var deliveries: map<string, Delivery>
    var occurrences: map<string, string>

    function Contents(): (s: Repo)
      reads this
    {
      Repo(reminders, remembered, deliveries, occurrences)
    }

    constructor (rules: Rules)
      ensures this.rules == rules && Contents() == EMPTY_REPO
    {
      this.rules := rules;
      reminders, remembered, deliveries, occurrences := map[], map[], map[], map[];
    }

    method Create(input: CreateInput) returns (r: Result<Mutation>)
      modifies this
      ensures (Contents(), r) == Spec.Create(rules, old(Contents()), input)
    {
      var value := input.reminder;
      if !ValidIdentifier(input.idempotencyKey) || !rules.validHash(input.inputHash) || !ValidOwner(value.owner) {
        return Err(InvalidInput);
      }
      var refusal := Refusal(rules, value, value.createdAt);
      if refusal.Some? {
        return Err(refusal.value);
      }
      var key := (value.owner, input.idempotencyKey);
      if key in remembered {
        return Replay(Contents(), key, input.inputHash);
      }
      if value.id in reminders {
        return Err(StateConflict);
      }
      reminders := reminders[value.id := value];
      remembered := remembered[key := Remembered(value, input.inputHash)];
      return Ok(Mutation(value, false));
    }

    method Mutate(input: MutateInput, cancel: bool) returns (r: Result<Mutation>)
      modifies this
      ensures (Contents(), r) == Spec.Mutate(rules, old(Contents()), input, cancel)
    {
      if !ValidOwner(input.owner) || !ValidIdentifier(input.id) || input.rowVersion == 0 || input.idempotencyKey == ""
         || !rules.validHash(input.inputHash) {
        return Err(InvalidInput);
      }
      var key := (input.owner, input.idempotencyKey);
      if key in remembered {
        return Replay(Contents(), key, input.inputHash);
      }
      if input.id !in reminders || reminders[input.id].owner != input.owner {
        return Err(NotFound);
      }
      var value := reminders[input.id];
      if value.rowVersion != input.rowVersion || value.status != StatusScheduled {
        return Err(StateConflict);
      }
      if cancel {
        value := value.(status := StatusCancelled, claim := None);
      } else {
        var refusal := rules.updateRefusal(input.content);
        if refusal.Some? {
          return Err(refusal.value);
        }
        if input.content.fireAt <= input.occurredAt {
          return Err(InvalidInput);
        }
        value := value.(content := input.content);
      }
      value := value.(rowVersion := value.rowVersion + 1, updatedAt := input.occurredAt);
      reminders := reminders[input.id := value];
      remembered := remembered[key := Remembered(value, input.inputHash)];
      return Ok(Mutation(value, false));
    }

    method ClaimDue(request: DueRequest) returns (r: Result<seq<Reminder>>, ghost ids: seq<string>)
      modifies this
      ensures !ValidDue(request) ==> r == Err(InvalidInput) && Contents() == old(Contents())
      ensures ValidDue(request) ==>
                && IsDueBatch(old(Contents()), request, ids)
                && r == Ok(ClaimedReminders(old(Contents()), request, ids))
                && Contents() == Spec.ClaimDue(old(Contents()), request, ids)
    {
      ids := [];
      if !ValidDue(request) {
        return Err(InvalidInput), ids;
      }
      ghost var before := Contents();
      var batch := TakeBatch(DueIDs(Contents(), request.now), FireTimes(Contents()), request.limit);
      ids := batch;
      BatchDistinct(DueIDs(before, request.now), FireTimes(before), request.limit, batch);
      ClaimDueNone(before, request);
      var out: seq<Reminder> := [];
      for i := 0 to |batch|
        invariant Contents() == Spec.ClaimDue(before, request, batch[..i])
        invariant out == ClaimedReminders(before, request, batch[..i])
      {
        var id := batch[i];
        ClaimDueOne(before, request, batch[..i], id);
        var value := reminders[id];
        value := value.(claim := Some(Claim(request.token, request.now + request.lease)),
                        rowVersion := value.rowVersion + 1, updatedAt := request.now);
        reminders := reminders[id := value];
        out := out + [value];
        assert batch[..i + 1] == batch[..i] + [id];
      }
      assert batch[..|batch|] == batch;
      r := Ok(out);
    }

    method RenewClaim(id: string, version: nat, token: string, until: Time) returns (error: Option<RepoError>)
      modifies this
      ensures (Contents(), error) == Spec.RenewClaim(old(Contents()), id, version, token, until)
    {
      if id !in reminders {
        return Some(NotFound);
      }
      var value := reminders[id];
      if value.rowVersion != version || value.claim.None? || value.claim.value.token != token {
        return Some(LeaseLost);
      }
      reminders := reminders[id := value.(claim := Some(value.claim.value.(leaseUntil := until)))];
      return None;
    }

    method CommitOccurrence(input: CommitInput) returns (r: Result<Committed>)
      modifies this
      ensures (Contents(), r) == Spec.CommitOccurrence(old(Contents()), input)
    {
      if input.reminderID !in reminders {
        return Err(NotFound);
      }
      var value := reminders[input.reminderID];
      if input.occurrenceID in occurrences {
        return Ok(Committed(DeliveryOf(Contents(), occurrences[input.occurrenceID]), true));
      }
      if value.rowVersion != input.rowVersion || value.status != StatusScheduled || value.claim.None?
         || value.claim.value.token != input.token || value.claim.value.leaseUntil <= input.occurredAt {
        return Err(LeaseLost);
      }
      value := value.(status := StatusProcessing, rowVersion := value.rowVersion + 1, claim := None, updatedAt := input.occurredAt);
      var delivery := Delivery(input.occurrenceID, value.id, value.owner, value.content.text, input.occurrenceID,
                               DeliveryPending, 0, input.occurredAt, "", None, "");
      reminders := reminders[value.id := value];
      deliveries := deliveries[delivery.id := delivery];
      occurrences := occurrences[input.occurrenceID := delivery.id];
      return Ok(Committed(delivery, false));
    }

    method ClaimDeliveries(request: WorkRequest) returns (r: Result<seq<Delivery>>, ghost ids: seq<string>)
      modifies this
      ensures !ValidWork(request) ==> r == Err(InvalidInput) && Contents() == old(Contents())
      ensures ValidWork(request) ==>
                && IsWorkBatch(old(Contents()), request, ids)
                && r == Ok(TakenDeliveries(old(Contents()), request, ids))
                && Contents() == Spec.ClaimDeliveries(old(Contents()), request, ids)
    {
      ids := [];
      if !ValidWork(request) {
        return Err(InvalidInput), ids;
      }
      ghost var before := Contents();
      var batch := TakeBatch(AvailableIDs(Contents(), request.now), NoTimes(Contents()), request.limit);
      ids := batch;
      BatchDistinct(AvailableIDs(before, request.now), NoTimes(before), request.limit, batch);
      ClaimDeliveriesNone(before, request);
      var out: seq<Delivery> := [];
      for i := 0 to |batch|
        invariant Contents() == Spec.ClaimDeliveries(before, request, batch[..i])
        invariant out == TakenDeliveries(before, request, batch[..i])
      {
        var id := batch[i];
        ClaimDeliveriesOne(before, request, batch[..i], id);
        var value := deliveries[id];
        value := value.(status := DeliveryProcessing, claimToken := request.token,
                        leaseUntil := Some(request.now + request.lease), attempt := value.attempt + 1);
        deliveries := deliveries[id := value];
        out := out + [value];
        assert batch[..i + 1] == batch[..i] + [id];
      }
      assert batch[..|batch|] == batch;
      r := Ok(out);
    }

    method CompleteDelivery(id: string, token: string, now: Time) returns (error: Option<RepoError>)
      modifies this
      ensures (Contents(), error) == Spec.CompleteDelivery(old(Contents()), id, token, now)
    {
      if id !in deliveries {
        return Some(NotFound);
      }
      var delivery := deliveries[id];
      if delivery.status == DeliveryCompleted {
        return None;
      }
      if delivery.status != DeliveryProcessing || delivery.claimToken != token {
        return Some(LeaseLost);
      }
      var value := Lookup(Contents(), delivery.reminderID);
      if value.status != StatusProcessing {
        return Some(StateConflict);
      }
      deliveries := deliveries[id := delivery.(status := DeliveryCompleted, claimToken := "", leaseUntil := None)];
      reminders := reminders[value.id := value.(status := StatusFired, rowVersion := value.rowVersion + 1, updatedAt := now)];
      return None;
    }

    method FailDelivery(f: Failure) returns (error: Option<RepoError>)
      modifies this
      ensures (Contents(), error) == Spec.FailDelivery(old(Contents()), f)
    {
      if f.id !in deliveries {
        return Some(NotFound);
      }
      var delivery := deliveries[f.id];
      if delivery.status != DeliveryProcessing || delivery.claimToken != f.token {
        return Some(LeaseLost);
      }
      delivery := delivery.(lastErrorCode := f.errorCode, claimToken := "", leaseUntil := None);
      var value := Lookup(Contents(), delivery.reminderID);
      if f.permanent {
        delivery := delivery.(status := DeliveryPermanentFailed);
        value := value.(status := StatusFailed, lastErrorCode := f.errorCode, rowVersion := value.rowVersion + 1, updatedAt := f.now);
      } else {
        delivery := delivery.(status := DeliveryPending, availableAt := f.nextAvailable);
      }
      deliveries := deliveries[delivery.id := delivery];
      reminders := reminders[value.id := value];
      return None;
    }
  }
}
