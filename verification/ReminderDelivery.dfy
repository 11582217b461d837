// The dispatcher's and the delivery worker's ticks as they run against the
// repository and the recording adapter: each tick is a sequence of the system's steps.
module ReminderDelivery {
  import opened Basics
  import opened ReminderSpec
  import opened ReminderRepository
  import opened ReminderSystem
  import opened ReminderTheorems
  import Outbox = ReminderSystem

  class RecordingAdapter {
    var results: map<string, string>
    var calls: nat
    ghost var effects: seq<Request>

    ghost function Contents(): (a: Adapter)
      reads this
    {
      Adapter(results, calls, effects)
    }

    constructor ()
      ensures Contents() == IDLE_ADAPTER
    {
      results, calls, effects := map[], 0, [];
    }

    method Deliver(request: Request) returns (r: Result<string>)
      modifies this
      ensures (Contents(), r) == Outbox.Deliver(old(Contents()), request)
    {
      if !ValidIdentifier(request.key) {
        return Err(InvalidInput);
      }
      if request.key in results {
        return Ok(results[request.key]);
      }
      calls := calls + 1;
      var result := "recorded:" + request.key;
      results := results[request.key := result];
      effects := effects + [request];
      return Ok(result);
    }
  }

  lemma ExecSnoc(rules: Rules, sys: System, steps: seq<Action>, a: Action)
    ensures Exec(rules, sys, steps + [a]) == Step(rules, Exec(rules, sys, steps), a)
  {
  }

  // How many of the steps committed a claimed reminder.
  ghost function Dispatched(rules: Rules, sys: System, steps: seq<Action>): nat
    decreases |steps|
  {
    if steps == [] then 0
    else
      var last := |steps| - 1;
      var before := Exec(rules, sys, steps[..last]);
      Dispatched(rules, sys, steps[..last]) +
        if && steps[last].Dispatching? && Enabled(before, steps[last])
           && CommitOccurrence(before.repo, OccurrenceOf(steps[last].item)).1.Ok? then 1 else 0
  }

  lemma DispatchedSnoc(rules: Rules, sys: System, steps: seq<Action>, a: Action)
    ensures var before := Exec(rules, sys, steps);
            Dispatched(rules, sys, steps + [a]) == Dispatched(rules, sys, steps) +
              if a.Dispatching? && Enabled(before, a) && CommitOccurrence(before.repo, OccurrenceOf(a.item)).1.Ok? then 1 else 0
  {
  }

  // How many reminders the steps claimed.
  function Picked(steps: seq<Action>): nat {
    if steps == [] then 0
    else Picked(steps[..|steps| - 1]) + if steps[|steps| - 1].Claiming? then |steps[|steps| - 1].dueIDs| else 0
  }

  lemma PickedMore(steps: seq<Action>, a: Action)
    ensures Picked(steps + [a]) == Picked(steps) + if a.Claiming? then |a.dueIDs| else 0
  {
    assert (steps + [a])[..|steps|] == steps;
  }

  // How many batches the steps claimed, and whether one of them was not full.
  function Batches(steps: seq<Action>): nat {
    if steps == [] then 0
    else Batches(steps[..|steps| - 1]) + if steps[|steps| - 1].Claiming? || steps[|steps| - 1].Taking? then 1 else 0
  }

  ghost predicate Short(steps: seq<Action>, size: int) {
    exists a :: a in steps && ((a.Claiming? && |a.dueIDs| < size) || (a.Taking? && |a.workIDs| < size))
  }

  lemma BatchesMore(steps: seq<Action>, a: Action)
    ensures Batches(steps + [a]) == Batches(steps) + if a.Claiming? || a.Taking? then 1 else 0
  {
    assert (steps + [a])[..|steps|] == steps;
  }

  lemma {:induction false} BatchesSame(steps: seq<Action>, rest: seq<Action>)
    requires forall a :: a in rest ==> !a.Claiming? && !a.Taking?
    ensures Batches(steps + rest) == Batches(steps)
    decreases |rest|
  {
    if rest == [] {
      assert steps + rest == steps;
    } else {
      var last := |rest| - 1;
      BatchesSame(steps, rest[..last]);
      BatchesMore(steps + rest[..last], rest[last]);
      assert steps + rest == steps + rest[..last] + [rest[last]];
    }
  }

  class Dispatcher {
    const repository: FakeRepository
    const batchSize: int
    const maxBatches: nat
    const lease: int

    constructor (repository: FakeRepository, batchSize: int, maxBatches: int, lease: int)
      requires 1 <= batchSize <= MAX_PAGE_SIZE && maxBatches >= 1 && lease >= SECOND
      ensures this.repository == repository && this.batchSize == batchSize
      ensures this.maxBatches == maxBatches && this.lease == lease
    {
      this.repository := repository;
      this.batchSize := batchSize;
      this.maxBatches := maxBatches;
      this.lease := lease;
    }

    // `now` and `token` are the clock reading and the new token of each batch.
    method Tick(now: nat -> Time, token: nat -> string, ghost sys: System)
      returns (total: nat, error: Option<RepoError>, ghost steps: seq<Action>)
      requires sys.repo == repository.Contents()
      modifies repository
      ensures Exec(repository.rules, sys, steps).repo == repository.Contents()
      ensures total == Dispatched(repository.rules, sys, steps)
      ensures error.None? ==> total == Picked(steps) && (Batches(steps) == maxBatches || Short(steps, batchSize))
    {
      hide Picked, Batches;
      NonePicked();
      total, error, steps := 0, None, [];
      var batch := 0;
      while batch < maxBatches
        invariant Exec(repository.rules, sys, steps).repo == repository.Contents()
        invariant total == Dispatched(repository.rules, sys, steps) == Picked(steps)
        invariant batch <= maxBatches && batch == Batches(steps)
      {
        if !ValidIdentifier(token(batch)) {
          return total, Some(InvalidInput), steps;
        }
        var request := DueRequest(batchSize, now(batch), lease, token(batch));
        var values, ids := repository.ClaimDue(request);
        if values.Err? {
          return total, Some(values.error), steps;
        }
        ghost var claiming := Claiming(request, ids);
        ExecSnoc(repository.rules, sys, steps, claiming);
        DispatchedSnoc(repository.rules, sys, steps, claiming);
        ghost var before := Exec(repository.rules, sys, steps);
        PickedMore(steps, claiming);
        BatchesMore(steps, claiming);
        steps := steps + [claiming];
        assert claiming in steps;
        assert forall k :: 0 <= k < |values.value| ==> DueItem(values.value[k], request.token, request.now) in Exec(repository.rules, sys, steps).items by {
          ItemsListed(before.repo, request, ids);
        }
        total, error, steps := CommitAll(values.value, request, total, sys, steps);
        if error.Some? {
          return;
        }
        if |values.value| < batchSize {
          break;
        }
        batch := batch + 1;
      }
    }

    // The inner loop over one batch.
    method CommitAll(values: seq<Reminder>, request: DueRequest, before: nat, ghost sys: System, ghost done: seq<Action>)
      returns (total: nat, error: Option<RepoError>, ghost steps: seq<Action>)
      requires Exec(repository.rules, sys, done).repo == repository.Contents()
      requires before == Dispatched(repository.rules, sys, done)
      requires forall k :: 0 <= k < |values| ==> DueItem(values[k], request.token, request.now) in Exec(repository.rules, sys, done).items
      modifies repository
      ensures Exec(repository.rules, sys, steps).repo == repository.Contents()
      ensures total == Dispatched(repository.rules, sys, steps)
      ensures error.None? ==> total == before + |values|
      ensures Picked(steps) == Picked(done) && Batches(steps) == Batches(done) && done <= steps
    {
      hide Picked, Batches;
      total, error, steps := before, None, done;
      for k := 0 to |values|
        invariant Exec(repository.rules, sys, steps).repo == repository.Contents()
        invariant Exec(repository.rules, sys, steps).items == Exec(repository.rules, sys, done).items
        invariant total == Dispatched(repository.rules, sys, steps) && total == before + k
        invariant error.None? && Picked(steps) == Picked(done) && Batches(steps) == Batches(done) && done <= steps
      {
        var value := values[k];
        var item := DueItem(value, request.token, request.now);
        ghost var dispatching := Dispatching(item);
        ExecSnoc(repository.rules, sys, steps, dispatching);
        DispatchedSnoc(repository.rules, sys, steps, dispatching);
        PickedMore(steps, dispatching);
        BatchesMore(steps, dispatching);
        steps := steps + [dispatching];
        var r := repository.CommitOccurrence(CommitInput(
          value.id, value.rowVersion, request.token, Keyed(value.id, value.rowVersion), request.now));
        if r.Err? {
          error := Some(r.error);
          return;
        }
        total := total + 1;
      }
    }
  }

  lemma ItemsListed(s: Repo, due: DueRequest, ids: seq<string>)
    requires IsDueBatch(s, due, ids)
    ensures forall k :: 0 <= k < |ids| ==> DueItem(ClaimedReminders(s, due, ids)[k], due.token, due.now) in ItemsOf(s, due, ids)
  {
    hide Ordering.IsBatch;
  }

  lemma JobsListed(s: Repo, work: WorkRequest, ids: seq<string>)
    requires IsWorkBatch(s, work, ids)
    ensures forall k :: 0 <= k < |ids| ==> Job(TakenDeliveries(s, work, ids)[k], work.token, work.now) in JobsOf(s, work, ids)
  {
    hide Ordering.IsBatch;
  }

  // What the adapter or the completion hook may answer instead of success.
  datatype DeliveryError = DeliveryError(code: string, retryable: bool)

  // How many of the steps fired a reminder or found it fired.
  ghost function Fired(rules: Rules, sys: System, steps: seq<Action>): nat
    decreases |steps|
  {
    if steps == [] then 0
    else
      var last := |steps| - 1;
      Fired(rules, sys, steps[..last]) + if Fires(Exec(rules, sys, steps[..last]), steps[last]) then 1 else 0
  }

  ghost predicate Fires(sys: System, a: Action) {
    a.Completing? && Enabled(sys, a) && CompleteDelivery(sys.repo, a.job.delivery.id, a.job.token, a.job.at).1.None?
  }

  lemma FiredSnoc(rules: Rules, sys: System, steps: seq<Action>, a: Action)
    ensures Fired(rules, sys, steps + [a])
         == Fired(rules, sys, steps) + if Fires(Exec(rules, sys, steps), a) then 1 else 0
  {
  }

  // What each step of a worker does to the repository, the adapter and the jobs.
  lemma TakingOnward(rules: Rules, sys: System, steps: seq<Action>, work: WorkRequest, ids: seq<string>)
    requires IsWorkBatch(Exec(rules, sys, steps).repo, work, ids)
    ensures var before, after := Exec(rules, sys, steps), Exec(rules, sys, steps + [Taking(work, ids)]);
            && after.repo == ClaimDeliveries(before.repo, work, ids) && after.adapter == before.adapter
            && JobsIn(TakenDeliveries(before.repo, work, ids), work.token, work.now, after.jobs)
    ensures Fired(rules, sys, steps + [Taking(work, ids)]) == Fired(rules, sys, steps)
  {
    hide Exec, Fired, ClaimDeliveries, IsWorkBatch, TakenDeliveries, Deliver;
    ExecSnoc(rules, sys, steps, Taking(work, ids));
    FiredSnoc(rules, sys, steps, Taking(work, ids));
    JobsListed(Exec(rules, sys, steps).repo, work, ids);
  }

  ghost predicate JobsIn(values: seq<Delivery>, token: string, now: Time, jobs: set<Job>) {
    forall k :: 0 <= k < |values| ==> Job(values[k], token, now) in jobs
  }

  lemma DeliveringOnward(rules: Rules, sys: System, steps: seq<Action>, job: Job)
    requires job in Exec(rules, sys, steps).jobs
    ensures var before, after := Exec(rules, sys, steps), Exec(rules, sys, steps + [Delivering(job)]);
            var (adapter, r) := Deliver(before.adapter, RequestOf(job.delivery));
            && after.repo == before.repo && after.adapter == adapter && after.jobs == before.jobs
            && (r.Ok? ==> job in after.delivered)
    ensures Fired(rules, sys, steps + [Delivering(job)]) == Fired(rules, sys, steps)
  {
    hide Exec, Fired, Deliver;
    ExecSnoc(rules, sys, steps, Delivering(job));
    FiredSnoc(rules, sys, steps, Delivering(job));
  }

  lemma CompletingOnward(rules: Rules, sys: System, steps: seq<Action>, job: Job)
    requires job in Exec(rules, sys, steps).delivered
    ensures var before, after := Exec(rules, sys, steps), Exec(rules, sys, steps + [Completing(job)]);
            var (repo, error) := CompleteDelivery(before.repo, job.delivery.id, job.token, job.at);
            && after.repo == repo && after.adapter == before.adapter && after.jobs == before.jobs
            && Fired(rules, sys, steps + [Completing(job)]) == Fired(rules, sys, steps) + if error.None? then 1 else 0
  {
    hide Exec, Fired, CompleteDelivery;
    ExecSnoc(rules, sys, steps, Completing(job));
    FiredSnoc(rules, sys, steps, Completing(job));
  }

  lemma FailingOnward(rules: Rules, sys: System, steps: seq<Action>, job: Job, code: string, next: Time, permanent: bool)
    requires job in Exec(rules, sys, steps).jobs
    ensures var before, after := Exec(rules, sys, steps), Exec(rules, sys, steps + [Failing(job, code, next, permanent)]);
            && after.repo == FailDelivery(before.repo, Failure(job.delivery.id, job.token, code, job.at, next, permanent)).0
            && after.adapter == before.adapter && after.jobs == before.jobs
    ensures Fired(rules, sys, steps + [Failing(job, code, next, permanent)]) == Fired(rules, sys, steps)
  {
    hide Exec, Fired, FailDelivery;
    ExecSnoc(rules, sys, steps, Failing(job, code, next, permanent));
    FiredSnoc(rules, sys, steps, Failing(job, code, next, permanent));
  }

  // The steps by which a worker handles a job: it delivers, then completes the delivery
  // when both the adapter and the hook succeeded, and otherwise fails it: for good when
  // that cannot be tried again or the attempts are used up, or until the backoff is over.
  function StepsFor(job: Job, hook: Delivery -> Option<DeliveryError>, backoff: nat -> int, maxAttempts: int): seq<Action> {
    var d := job.delivery;
    var failure := if !ValidIdentifier(d.key) then Some(DeliveryError("delivery_error", false)) else hook(d);
    [Delivering(job)] + match failure
      case None => [Completing(job)]
      case Some(e) => [Failing(job, e.code, job.at + backoff(d.attempt), !e.retryable || d.attempt >= maxAttempts)]
  }

  // ... and all the jobs of a batch, one after the other.
  function StepsForAll(values: seq<Delivery>, token: string, now: Time, hook: Delivery -> Option<DeliveryError>, backoff: nat -> int,
                       maxAttempts: int): seq<Action>
  {
    if values == [] then []
    else
      var last := |values| - 1;
      StepsForAll(values[..last], token, now, hook, backoff, maxAttempts) + StepsFor(Job(values[last], token, now), hook, backoff, maxAttempts)
  }

  // The batch a worker took at this step, in the order it was given.
  ghost function TakenAt(rules: Rules, sys: System, steps: seq<Action>, i: nat): seq<Delivery>
    requires i < |steps| && steps[i].Taking?
  {
    var s := Exec(rules, sys, steps[..i]).repo;
    if forall k :: 0 <= k < |steps[i].workIDs| ==> steps[i].workIDs[k] in s.deliveries then TakenDeliveries(s, steps[i].work, steps[i].workIDs) else []
  }

  // The steps behind the i-th are the handling of the batch taken there.
  ghost predicate HandledAt(rules: Rules, sys: System, steps: seq<Action>, i: nat, hook: Delivery -> Option<DeliveryError>, backoff: nat -> int,
                            maxAttempts: int)
    requires i < |steps|
  {
    steps[i].Taking? ==>
      StepsForAll(TakenAt(rules, sys, steps, i), steps[i].work.token, steps[i].work.now, hook, backoff, maxAttempts) <= steps[i + 1..]
  }

  // Every batch taken is handled completely, in its order.
  ghost predicate AllHandled(rules: Rules, sys: System, steps: seq<Action>, hook: Delivery -> Option<DeliveryError>, backoff: nat -> int,
                             maxAttempts: int)
  {
    forall i :: 0 <= i < |steps| ==> HandledAt(rules, sys, steps, i, hook, backoff, maxAttempts)
  }

  lemma HandledMore(rules: Rules, sys: System, steps: seq<Action>, a: Action, rest: seq<Action>, hook: Delivery -> Option<DeliveryError>,
                    backoff: nat -> int, maxAttempts: int)
    requires AllHandled(rules, sys, steps, hook, backoff, maxAttempts) && a.Taking?
    requires rest == StepsForAll(TakenAt(rules, sys, steps + [a], |steps|), a.work.token, a.work.now, hook, backoff, maxAttempts)
    requires forall k :: 0 <= k < |rest| ==> !rest[k].Taking?
    ensures AllHandled(rules, sys, steps + [a] + rest, hook, backoff, maxAttempts)
  {
    hide Exec, StepsForAll, TakenDeliveries;
    var all := steps + [a] + rest;
    forall i | 0 <= i < |all|
      ensures HandledAt(rules, sys, all, i, hook, backoff, maxAttempts)
    {
      if i < |steps| {
        assert HandledAt(rules, sys, steps, i, hook, backoff, maxAttempts);
        assert all[..i] == steps[..i] && all[i + 1..] == steps[i + 1..] + ([a] + rest);
      } else if i == |steps| {
        assert all[..i] == (steps + [a])[..i] && all[i + 1..] == rest;
      }
    }
  }

  lemma {:induction false} StepsNeverTake(values: seq<Delivery>, token: string, now: Time, hook: Delivery -> Option<DeliveryError>,
                                          backoff: nat -> int, maxAttempts: int)
    ensures forall a :: a in StepsForAll(values, token, now, hook, backoff, maxAttempts) ==> !a.Taking? && !a.Claiming?
    decreases |values|
  {
    if values != [] {
      StepsNeverTake(values[..|values| - 1], token, now, hook, backoff, maxAttempts);
    }
  }

  class Worker {
    const repository: FakeRepository
    const adapter: RecordingAdapter
    const batchSize: int
    const maxBatches: nat
    const maxAttempts: int
    const lease: int

    constructor (repository: FakeRepository, adapter: RecordingAdapter, batchSize: int, maxBatches: int, maxAttempts: int, lease: int)
      requires 1 <= batchSize <= MAX_PAGE_SIZE && maxBatches >= 1 && maxAttempts >= 1 && lease >= SECOND
      ensures this.repository == repository && this.adapter == adapter && this.batchSize == batchSize
      ensures this.maxBatches == maxBatches && this.maxAttempts == maxAttempts && this.lease == lease
    {
      this.repository := repository;
      this.adapter := adapter;
      this.batchSize := batchSize;
      this.maxBatches := maxBatches;
      this.maxAttempts := maxAttempts;
      this.lease := lease;
    }

    // `hook` is the completion hook; `backoff` is the delay after a number of attempts.
    method Tick(now: nat -> Time, token: nat -> string, hook: Delivery -> Option<DeliveryError>, backoff: nat -> int, ghost sys: System)
      returns (total: nat, error: Option<RepoError>, ghost steps: seq<Action>)
      requires sys.repo == repository.Contents() && sys.adapter == adapter.Contents()
      modifies repository, adapter
      ensures Exec(repository.rules, sys, steps).repo == repository.Contents()
      ensures Exec(repository.rules, sys, steps).adapter == adapter.Contents()
      ensures total == Fired(repository.rules, sys, steps)
      ensures error.None? ==> AllHandled(repository.rules, sys, steps, hook, backoff, maxAttempts)
      ensures error.None? ==> Batches(steps) == maxBatches || Short(steps, batchSize)
    {
      hide Exec, Fired, IsWorkBatch, ClaimDeliveries, TakenDeliveries, AllHandled, TakenAt, StepsForAll, Batches;
      NonePicked();
      NoSteps(repository.rules, sys);
      NoneTaken(repository.rules, sys, hook, backoff, maxAttempts);
      total, error, steps := 0, None, [];
      var batch := 0;
      while batch < maxBatches
        invariant Exec(repository.rules, sys, steps).repo == repository.Contents()
        invariant Exec(repository.rules, sys, steps).adapter == adapter.Contents()
        invariant total == Fired(repository.rules, sys, steps)
        invariant AllHandled(repository.rules, sys, steps, hook, backoff, maxAttempts)
        invariant batch <= maxBatches && batch == Batches(steps)
      {
        if !ValidIdentifier(token(batch)) {
          return total, Some(InvalidInput), steps;
        }
        var request := WorkRequest(batchSize, now(batch), lease, token(batch));
        var values, ids := repository.ClaimDeliveries(request);
        if values.Err? {
          return total, Some(values.error), steps;
        }
        TakingOnward(repository.rules, sys, steps, request, ids);
        TakenHere(repository.rules, sys, steps, request, ids);
        ghost var before := steps;
        steps := steps + [Taking(request, ids)];
        total, error, steps := HandleAll(values.value, request, hook, backoff, total, sys, steps);
        if error.Some? {
          return;
        }
        ghost var rest := StepsForAll(values.value, request.token, request.now, hook, backoff, maxAttempts);
        StepsNeverTake(values.value, request.token, request.now, hook, backoff, maxAttempts);
        BatchesMore(before, Taking(request, ids));
        BatchesSame(before + [Taking(request, ids)], rest);
        assert Taking(request, ids) in steps;
        HandledMore(repository.rules, sys, before, Taking(request, ids), rest, hook, backoff, maxAttempts);
        if |values.value| < batchSize {
          break;
        }
        batch := batch + 1;
      }
    }

    // The inner loop over one batch.
    method HandleAll(values: seq<Delivery>, request: WorkRequest, hook: Delivery -> Option<DeliveryError>, backoff: nat -> int, before: nat,
                     ghost sys: System, ghost done: seq<Action>)
      returns (total: nat, error: Option<RepoError>, ghost steps: seq<Action>)
      requires Exec(repository.rules, sys, done).repo == repository.Contents()
      requires Exec(repository.rules, sys, done).adapter == adapter.Contents()
      requires before == Fired(repository.rules, sys, done)
      requires JobsIn(values, request.token, request.now, Exec(repository.rules, sys, done).jobs)
      modifies repository, adapter
      ensures Exec(repository.rules, sys, steps).repo == repository.Contents()
      ensures Exec(repository.rules, sys, steps).adapter == adapter.Contents()
      ensures total == Fired(repository.rules, sys, steps)
      ensures error.None? ==> steps == done + StepsForAll(values, request.token, request.now, hook, backoff, maxAttempts)
    {
      hide Exec, Fired, StepsFor;
      total, error, steps := before, None, done;
      for k := 0 to |values|
        invariant Exec(repository.rules, sys, steps).repo == repository.Contents()
        invariant Exec(repository.rules, sys, steps).adapter == adapter.Contents()
        invariant total == Fired(repository.rules, sys, steps) && error.None?
        invariant JobsIn(values, request.token, request.now, Exec(repository.rules, sys, steps).jobs)
        invariant steps == done + StepsForAll(values[..k], request.token, request.now, hook, backoff, maxAttempts)
      {
        assert values[..k + 1][..k] == values[..k];
        var fired;
        fired, error, steps := Handle(Job(values[k], request.token, request.now), hook, backoff, sys, steps);
        if fired {
          total := total + 1;
        }
        if error.Some? {
          return;
        }
      }
      assert values[..|values|] == values;
    }

    // One delivery: deliver, then complete or fail it.
    method Handle(job: Job, hook: Delivery -> Option<DeliveryError>, backoff: nat -> int, ghost sys: System, ghost done: seq<Action>)
      returns (fired: bool, error: Option<RepoError>, ghost steps: seq<Action>)
      requires Exec(repository.rules, sys, done).repo == repository.Contents()
      requires Exec(repository.rules, sys, done).adapter == adapter.Contents()
      requires job in Exec(repository.rules, sys, done).jobs
      modifies repository, adapter
      ensures Exec(repository.rules, sys, steps).repo == repository.Contents()
      ensures Exec(repository.rules, sys, steps).adapter == adapter.Contents()
      ensures Exec(repository.rules, sys, steps).jobs == Exec(repository.rules, sys, done).jobs
      ensures Fired(repository.rules, sys, steps) == Fired(repository.rules, sys, done) + if fired then 1 else 0
      ensures steps == done + StepsFor(job, hook, backoff, maxAttempts)
    {
      hide Exec, Fired, ReminderSystem.Deliver, ReminderSpec.CompleteDelivery, ReminderSpec.FailDelivery;
      fired, error, steps := false, None, done;
      DeliveringOnward(repository.rules, sys, steps, job);
      OnlyKeysRefused(adapter.Contents(), RequestOf(job.delivery));
      steps := steps + [Delivering(job)];
      var d := job.delivery;
      var delivered := adapter.Deliver(Request(d.key, d.reminderID, d.owner, d.text));
      var failure := if delivered.Err? then Some(DeliveryError("delivery_error", false)) else hook(d);
      if failure.None? {
        CompletingOnward(repository.rules, sys, steps, job);
        steps := steps + [Completing(job)];
        error := repository.CompleteDelivery(d.id, job.token, job.at);
        fired := error.None?;
        return;
      }
      var permanent := !failure.value.retryable || d.attempt >= maxAttempts;
      var next := job.at + backoff(d.attempt);
      FailingOnward(repository.rules, sys, steps, job, failure.value.code, next, permanent);
      steps := steps + [Failing(job, failure.value.code, next, permanent)];
      error := repository.FailDelivery(Failure(d.id, job.token, failure.value.code, job.at, next, permanent));
    }
  }

  lemma NoSteps(rules: Rules, sys: System)
    ensures Exec(rules, sys, []) == sys && Fired(rules, sys, []) == 0
  {
  }

  lemma NoneTaken(rules: Rules, sys: System, hook: Delivery -> Option<DeliveryError>, backoff: nat -> int, maxAttempts: int)
    ensures AllHandled(rules, sys, [], hook, backoff, maxAttempts)
  {
  }

  lemma TakenHere(rules: Rules, sys: System, steps: seq<Action>, work: WorkRequest, ids: seq<string>)
    requires IsWorkBatch(Exec(rules, sys, steps).repo, work, ids)
    ensures TakenAt(rules, sys, steps + [Taking(work, ids)], |steps|) == TakenDeliveries(Exec(rules, sys, steps).repo, work, ids)
  {
    hide Exec, TakenDeliveries, IsWorkBatch;
    WorkIsThere(Exec(rules, sys, steps).repo, work, ids);
    assert (steps + [Taking(work, ids)])[..|steps|] == steps;
  }

  lemma NonePicked()
    ensures Picked([]) == Batches([]) == 0
  {
  }

  lemma WorkIsThere(s: Repo, work: WorkRequest, ids: seq<string>)
    requires IsWorkBatch(s, work, ids)
    ensures forall k :: 0 <= k < |ids| ==> ids[k] in s.deliveries
  {
  }

  lemma OnlyKeysRefused(a: Adapter, r: Request)
    ensures Outbox.Deliver(a, r).1.Err? <==> !ValidIdentifier(r.key)
  {
  }
}
