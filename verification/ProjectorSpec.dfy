// The projector: claims queued projections, indexes the records they name, and retries
// with a growing delay.
module ProjectorSpec {
  import opened Basics
  import opened MemorySpec

  datatype ProjectorConfig = ProjectorConfig(batchSize: nat, baseBackoff: int, maxBackoff: int, maxAttempts: nat, modelVersion: string)

  predicate ValidConfig(k: ProjectorConfig) {
    && 1 <= k.batchSize <= 200 && 0 < k.baseBackoff <= k.maxBackoff && k.maxAttempts >= 1 && k.modelVersion != ""
  }

  // ---- The delay ----

  function Pow2(n: nat): (r: nat)
    ensures r >= 1
  {
    if n == 0 then 1 else 2 * Pow2(n - 1)
  }

  function Min(a: int, b: int): int {
    if a <= b then a else b
  }

  // The delay after an attempt: doubled each time, up to the maximum, where an odd
  // maximum one above a doubled delay is reached instead of that delay.
  function Delay(base: int, max: int, attempt: nat): int
    requires 0 < base <= max
  {
    if attempt <= 1 then base
    else
      var ideal := Min(max, base * Pow2(attempt - 1));
      if max % 2 == 1 && base * Pow2(attempt - 1) == max - 1 then max else ideal
  }

  lemma Pow2Grows(m: nat, n: nat)
    requires m <= n
    ensures Pow2(m) <= Pow2(n)
  {
  }

  lemma ProductGrows(base: int, p: int, q: int)
    requires base > 0 && p <= q
    ensures base * p <= base * q
  {
  }

  // Exact when the maximum is even, one too long in one case otherwise; never beyond
  // the maximum, and never shorter for a later attempt.
  lemma DelayBounds(base: int, max: int, attempt: nat)
    requires 0 < base <= max && attempt >= 1
    ensures 0 < Delay(base, max, attempt) <= max
    ensures Delay(base, max, attempt) <= Delay(base, max, attempt + 1)
    ensures max % 2 == 0 ==> Delay(base, max, attempt) == Min(max, base * Pow2(attempt - 1))
    ensures Delay(base, max, attempt) - Min(max, base * Pow2(attempt - 1)) ==
              if attempt > 1 && max % 2 == 1 && base * Pow2(attempt - 1) == max - 1 then 1 else 0
  {
  }

  // ---- One claimed projection ----

  // What the world answers: the reload fails, or the index accepts or refuses.
  datatype Answer = ReloadFails | Accepts | Refuses(code: string, temporary: bool)

  datatype Outcome = Indexed | Skipped | RetryLater | GivenUp

  function Later(k: ProjectorConfig, p: Projection, now: Time): Time
    requires ValidConfig(k)
  {
    now + Delay(k.baseBackoff, k.maxBackoff, p.attempt)
  }

  // The record still to be indexed for a projection, if there is one.
  function Current(s: Repo, p: Projection, now: Time): Option<Record> {
    if p.memoryID in s.records && s.records[p.memoryID].owner == p.owner && ActiveAt(s.records[p.memoryID], now)
       && s.records[p.memoryID].contentHash == p.contentHash then Some(s.records[p.memoryID])
    else None
  }

  function OutcomeOf(k: ProjectorConfig, s: Repo, p: Projection, answer: Answer, now: Time): Outcome {
    if p.modelVersion != k.modelVersion then GivenUp
    else if answer.ReloadFails? then if p.attempt >= k.maxAttempts then GivenUp else RetryLater
    else if Current(s, p, now).None? then Skipped
    else if answer.Accepts? then Indexed
    else if p.attempt >= k.maxAttempts || !answer.temporary then GivenUp
    else RetryLater
  }

  function CodeOf(k: ProjectorConfig, p: Projection, answer: Answer): string {
    if p.modelVersion != k.modelVersion then "projection_version_mismatch"
    else if answer.Refuses? then answer.code
    else "mysql_reload_failed"
  }

  function Handle(c: Config, k: ProjectorConfig, s: Repo, p: Projection, answer: Answer, now: Time): (Repo, Option<MemoryError>)
    requires ValidConfig(k)
  {
    match OutcomeOf(k, s, p, answer, now)
    case Indexed => CompleteProjection(s, p.owner, p.id, now)
    case Skipped => CompleteProjection(s, p.owner, p.id, now)
    case GivenUp =>
      var next := if p.modelVersion != k.modelVersion then now else Later(k, p, now);
      FailProjection(c, s, p.owner, p.id, CodeOf(k, p, answer), next, true)
    case RetryLater => FailProjection(c, s, p.owner, p.id, CodeOf(k, p, answer), Later(k, p, now), false)
  }

  // The store after the first projections of a batch have been handled.
  function HandleAll(c: Config, k: ProjectorConfig, s: Repo, claimed: seq<Projection>, answers: nat -> Answer, now: Time): Repo
    requires ValidConfig(k)
  {
    if claimed == [] then s
    else
      var last := |claimed| - 1;
      Handle(c, k, HandleAll(c, k, s, claimed[..last], answers, now), claimed[last], answers(last), now).0
  }

  datatype BatchResult = BatchResult(claimed: nat, indexed: nat, skipped: nat, failed: nat, permanentFailed: nat)

  function Total(r: BatchResult): nat {
    r.indexed + r.skipped + r.failed + r.permanentFailed
  }

  function CountOutcome(r: BatchResult, o: Outcome): BatchResult {
    match o
    case Indexed => r.(indexed := r.indexed + 1)
    case Skipped => r.(skipped := r.skipped + 1)
    case RetryLater => r.(failed := r.failed + 1)
    case GivenUp => r.(permanentFailed := r.permanentFailed + 1)
  }

  // The outcomes of a batch, one for each projection, in order.
  function Outcomes(c: Config, k: ProjectorConfig, s: Repo, claimed: seq<Projection>, answers: nat -> Answer, now: Time): (r: seq<Outcome>)
    requires ValidConfig(k)
    ensures |r| == |claimed|
  {
    if claimed == [] then []
    else
      var last := |claimed| - 1;
      Outcomes(c, k, s, claimed[..last], answers, now)
      + [OutcomeOf(k, HandleAll(c, k, s, claimed[..last], answers, now), claimed[last], answers(last), now)]
  }

  function Tally(outcomes: seq<Outcome>): (r: BatchResult)
    ensures Total(r) == |outcomes|
  {
    if outcomes == [] then BatchResult(0, 0, 0, 0, 0) else CountOutcome(Tally(outcomes[..|outcomes| - 1]), outcomes[|outcomes| - 1])
  }

  lemma HandleNext(c: Config, k: ProjectorConfig, s: Repo, claimed: seq<Projection>, i: nat, answers: nat -> Answer, now: Time)
    requires ValidConfig(k) && i < |claimed|
    ensures var before := HandleAll(c, k, s, claimed[..i], answers, now);
            && HandleAll(c, k, s, claimed[..i + 1], answers, now) == Handle(c, k, before, claimed[i], answers(i), now).0
            && Outcomes(c, k, s, claimed[..i + 1], answers, now)
               == Outcomes(c, k, s, claimed[..i], answers, now) + [OutcomeOf(k, before, claimed[i], answers(i), now)]
  {
    hide Handle, OutcomeOf;
    assert claimed[..i + 1][..i] == claimed[..i];
  }
}
