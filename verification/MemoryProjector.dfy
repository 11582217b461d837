// A batch of the projector over the store object.
module MemoryProjector {
  import opened Basics
  import opened MemorySpec
  import opened MemoryRepository
  import opened ProjectorSpec

  class Projector {
    const repository: FakeRepository
    const config: ProjectorConfig

    constructor (repository: FakeRepository, config: ProjectorConfig)
      requires ValidConfig(config)
      ensures this.repository == repository && this.config == config
    {
      this.repository, this.config := repository, config;
    }

    // `way` are the values the delay takes: none exceeds the maximum, so nothing
    // overflows that the maximum does not.
    method Backoff(attempt: nat) returns (delay: int, ghost way: seq<int>)
      requires ValidConfig(config)
      ensures delay == Delay(config.baseBackoff, config.maxBackoff, attempt)
      ensures way != [] && way[0] == config.baseBackoff && way[|way| - 1] == delay
      ensures forall i :: 0 <= i < |way| ==> 0 < way[i] <= config.maxBackoff
      ensures forall i :: 0 <= i < |way| - 1 ==> way[i + 1] == 2 * way[i] || way[i + 1] == config.maxBackoff
    {
      hide Pow2, Delay;
      delay := config.baseBackoff;
      way := [delay];
      First(config.baseBackoff, config.maxBackoff, attempt);
      var i := 1;
      while i < attempt
        invariant 1 <= i && (if attempt <= 1 then i == 1 else i <= attempt)
        invariant delay == Doubled(config.baseBackoff, i - 1)
        invariant if i == 1 then delay <= config.maxBackoff else delay <= config.maxBackoff - 2
        invariant way != [] && way[0] == config.baseBackoff && way[|way| - 1] == delay
        invariant forall j :: 0 <= j < |way| ==> 0 < way[j] <= config.maxBackoff
        invariant forall j :: 0 <= j < |way| - 1 ==> way[j + 1] == 2 * way[j]
      {
        if delay >= config.maxBackoff / 2 {
          Reached(config.baseBackoff, config.maxBackoff, i, attempt);
          delay := config.maxBackoff;
          way := way + [delay];
          return;
        }
        DoubledOnce(config.baseBackoff, i);
        delay := delay * 2;
        way := way + [delay];
        i := i + 1;
      }
      if i > 1 {
        Unreached(config.baseBackoff, config.maxBackoff, attempt);
      }
      if delay > config.maxBackoff {
        delay := config.maxBackoff;
      }
    }

    method Fail(p: Projection, code: string, now: Time, permanent: bool) returns (error: Option<MemoryError>)
      requires ValidConfig(config)
      modifies repository
      ensures (repository.Contents(), error) ==
                FailProjection(repository.config, old(repository.Contents()), p.owner, p.id, code, Later(config, p, now), permanent)
    {
      var delay, _ := Backoff(p.attempt);
      error := repository.FailProjection(p.owner, p.id, code, now + delay, permanent);
    }

    method HandleOne(p: Projection, answer: Answer, now: Time) returns (outcome: Outcome, error: Option<MemoryError>)
      requires ValidConfig(config)
      modifies repository
      ensures outcome == OutcomeOf(config, old(repository.Contents()), p, answer, now)
      ensures (repository.Contents(), error) == Handle(repository.config, config, old(repository.Contents()), p, answer, now)
    {
      hide Delay;
      if p.modelVersion != config.modelVersion {
        error := repository.FailProjection(p.owner, p.id, "projection_version_mismatch", now, true);
        return GivenUp, error;
      }
      if answer.ReloadFails? {
        var permanent := p.attempt >= config.maxAttempts;
        error := Fail(p, "mysql_reload_failed", now, permanent);
        return if permanent then GivenUp else RetryLater, error;
      }
      var values := repository.BatchGet(p.owner, [p.memoryID]);
      assert [p.memoryID][..0] == [];
      if |values| != 1 || !ActiveAt(values[0], now) || values[0].contentHash != p.contentHash {
        error := repository.CompleteProjection(p.owner, p.id, now);
        return Skipped, error;
      }
      if answer.Accepts? {
        error := repository.CompleteProjection(p.owner, p.id, now);
        return Indexed, error;
      }
      var permanent := p.attempt >= config.maxAttempts || !answer.temporary;
      error := Fail(p, answer.code, now, permanent);
      return if permanent then GivenUp else RetryLater, error;
    }

    // The loop over what a batch claimed.
    method HandleBatch(batch: seq<Projection>, answers: nat -> Answer, now: Time) returns (r: BatchResult, error: Option<MemoryError>)
      requires ValidConfig(config)
      modifies repository
      ensures BatchHandled(repository.config, config, old(repository.Contents()), batch, answers, now, r, error, repository.Contents())
    {
      hide Handle, OutcomeOf, HandleAll, Outcomes, Tally, CountOutcome, Total;
      ghost var s := repository.Contents();
      NothingHandled(s, repository.config, config, batch, answers, now);
      r, error := BatchResult(|batch|, 0, 0, 0, 0), None;
      ghost var outcomes: seq<Outcome> := [];
      for i := 0 to |batch|
        invariant error.None?
        invariant outcomes == Outcomes(repository.config, config, s, batch[..i], answers, now)
        invariant r == Tally(outcomes).(claimed := |batch|) && Total(r) == i
        invariant repository.Contents() == HandleAll(repository.config, config, s, batch[..i], answers, now)
      {
        HandleNext(repository.config, config, s, batch, i, answers, now);
        var outcome;
        outcome, error := HandleOne(batch[i], answers(i), now);
        if error.Some? {
          RefusedLeaves(repository.config, config, HandleAll(repository.config, config, s, batch[..i], answers, now), batch[i], answers(i), now);
          return;
        }
        TallyNext(outcomes, outcome, |batch|);
        outcomes := outcomes + [outcome];
        r := CountOutcome(r, outcome);
      }
      assert batch[..|batch|] == batch;
    }

    // Every projection claimed by a batch that ends without an error is counted exactly
    // once, by its outcome; one that ends with an error has counted those before it.
    method RunBatch(now: Time, answers: nat -> Answer) returns (r: BatchResult, error: Option<MemoryError>, ghost claimed: seq<Projection>, ghost order: seq<string>)
      requires ValidConfig(config)
      modifies repository
      ensures var ids := set id | id in order;
              var s := ClaimProjections(old(repository.Contents()), now, ids);
              && IsOrder(order, ids) && IsClaim(old(repository.Contents()), config.batchSize, now, ids)
              && ClaimedAre(order, claimed, s.projections) && |claimed| <= config.batchSize
              && BatchHandled(repository.config, config, s, claimed, answers, now, r, error, repository.Contents())
    {
      hide IsClaim, ClaimProjections, IsOrder, ClaimedAre, BatchHandled;
      ghost var before := repository.Contents();
      var batch;
      batch, order := repository.ClaimProjections(config.batchSize, now);
      claimed := batch;
      BatchSize(before, config.batchSize, now, order, set id | id in order);
      AreClaimed(order, batch, repository.projections);
      r, error := HandleBatch(batch, answers, now);
    }
  }

  // What a batch leaves: without an error all its projections are handled and counted,
  // with one those before the projection that was refused.
  ghost predicate BatchHandled(c: Config, k: ProjectorConfig, s: Repo, claimed: seq<Projection>, answers: nat -> Answer, now: Time,
                               r: BatchResult, error: Option<MemoryError>, t: Repo)
    requires ValidConfig(k)
  {
    && r.claimed == |claimed| && Total(r) <= |claimed|
    && r == Tally(Outcomes(c, k, s, claimed[..Total(r)], answers, now)).(claimed := |claimed|)
    && t == HandleAll(c, k, s, claimed[..Total(r)], answers, now)
    && (if error.None? then r.claimed == Total(r)
        else Total(r) < r.claimed && Handle(c, k, t, claimed[Total(r)], answers(Total(r)), now) == (t, error))
  }

  lemma RefusedLeaves(c: Config, k: ProjectorConfig, s: Repo, p: Projection, answer: Answer, now: Time)
    requires ValidConfig(k) && Handle(c, k, s, p, answer, now).1.Some?
    ensures Handle(c, k, s, p, answer, now).0 == s
  {
    hide Delay, OutcomeOf;
  }

  lemma TallyNext(outcomes: seq<Outcome>, o: Outcome, claimed: nat)
    ensures Tally(outcomes + [o]).(claimed := claimed) == CountOutcome(Tally(outcomes).(claimed := claimed), o)
    ensures Total(CountOutcome(Tally(outcomes).(claimed := claimed), o)) == Total(Tally(outcomes).(claimed := claimed)) + 1
  {
    assert (outcomes + [o])[..|outcomes|] == outcomes;
  }

  lemma NothingHandled(s: Repo, c: Config, k: ProjectorConfig, claimed: seq<Projection>, answers: nat -> Answer, now: Time)
    requires ValidConfig(k)
    ensures HandleAll(c, k, s, claimed[..0], answers, now) == s
    ensures Outcomes(c, k, s, claimed[..0], answers, now) == []
    ensures forall n: nat :: Tally([]).(claimed := n) == BatchResult(n, 0, 0, 0, 0) && Total(BatchResult(n, 0, 0, 0, 0)) == 0
  {
  }

  lemma AreClaimed(order: seq<string>, claimed: seq<Projection>, projections: map<string, Projection>)
    requires |claimed| == |order| && forall i :: 0 <= i < |order| ==> order[i] in projections && claimed[i] == projections[order[i]]
    ensures ClaimedAre(order, claimed, projections)
  {
  }

  lemma BatchSize(s: Repo, limit: nat, now: Time, order: seq<string>, ids: set<string>)
    requires IsOrder(order, ids) && IsClaim(s, limit, now, ids)
    ensures |order| <= limit
  {
    OrderSize(order, ids);
  }

  lemma {:induction false} OrderSize(order: seq<string>, ids: set<string>)
    requires IsOrder(order, ids)
    ensures |order| == |ids|
    decreases |order|
  {
    if order != [] {
      var last := order[|order| - 1];
      var rest := order[..|order| - 1];
      assert order == rest + [last];
      assert forall id :: id in rest <==> id in ids - {last};
      assert (set id | id in rest) == ids - {last};
      OrderSize(rest, ids - {last});
    }
  }

  function Doubled(base: int, n: nat): int {
    base * Pow2(n)
  }

  lemma DoubledOnce(base: int, n: nat)
    requires n > 0
    ensures Doubled(base, n) == 2 * Doubled(base, n - 1)
  {
  }

  lemma First(base: int, max: int, attempt: nat)
    requires 0 < base <= max
    ensures Doubled(base, 0) == base
    ensures attempt <= 1 ==> Delay(base, max, attempt) == base
  {
  }

  // Once half the maximum is reached, every later attempt waits the maximum.
  lemma Reached(base: int, max: int, i: nat, attempt: nat)
    requires 0 < base <= max && 1 <= i < attempt
    requires Doubled(base, i - 1) >= max / 2
    ensures Delay(base, max, attempt) == max
  {
    Pow2Grows(i, attempt - 1);
    ProductGrows(base, Pow2(i), Pow2(attempt - 1));
    DoubledOnce(base, i);
  }

  lemma Unreached(base: int, max: int, attempt: nat)
    requires 0 < base <= max && attempt > 1 && Doubled(base, attempt - 1) <= max - 2
    ensures Delay(base, max, attempt) == Doubled(base, attempt - 1)
  {
  }
}
