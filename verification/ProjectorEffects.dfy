// What a batch of the projector leaves of the rows it claimed.
module ProjectorEffects {
  import opened Basics
  import opened MemorySpec
  import opened ProjectorSpec

  // The record the row is about is no longer there to be indexed as the row says.
  predicate Stale(s: Repo, p: Projection, now: Time) {
    !(&& p.memoryID in s.records
      && var r := s.records[p.memoryID];
         r.owner == p.owner && r.status.Active? && (r.expiresAt.None? || now < r.expiresAt.value) && r.contentHash == p.contentHash)
  }

  // Failed for good, or to be claimed again after the backoff.
  function GivenBack(c: Config, k: ProjectorConfig, row: Projection, p: Projection, code: string, forGood: bool, now: Time): Projection
    requires ValidConfig(k)
  {
    row.(status := if forGood then ProjectionPermanentFailed else ProjectionFailed,
         availableAt := now + Delay(k.baseBackoff, k.maxBackoff, p.attempt), lastErrorCode := c.bounded(code))
  }

  function Finished(row: Projection, now: Time): Projection {
    row.(status := ProjectionCompleted, processedAt := Some(now), lastErrorCode := "")
  }

  // A row of another index version fails for good; a failed reload gives the row back; a
  // stale or an indexed row is completed; a refused one is given back. Whatever is given
  // back is given up when the attempts are used up or trying again is no use.
  ghost predicate RowEnds(c: Config, k: ProjectorConfig, s: Repo, p: Projection, answer: Answer, now: Time, row: Projection)
    requires ValidConfig(k) && p.id in s.projections
  {
    var was := s.projections[p.id];
    var exhausted := p.attempt >= k.maxAttempts;
    if p.modelVersion != k.modelVersion then
      row == was.(status := ProjectionPermanentFailed, availableAt := now, lastErrorCode := c.bounded("projection_version_mismatch"))
    else if answer.ReloadFails? then row == GivenBack(c, k, was, p, "mysql_reload_failed", exhausted, now)
    else if Stale(s, p, now) || answer.Accepts? then row == Finished(was, now)
    else row == GivenBack(c, k, was, p, answer.code, exhausted || !answer.temporary, now)
  }

  // How the batch counts it.
  ghost predicate CountedAs(k: ProjectorConfig, s: Repo, p: Projection, answer: Answer, now: Time, o: Outcome) {
    var exhausted := p.attempt >= k.maxAttempts;
    var ours, loaded := p.modelVersion == k.modelVersion, !answer.ReloadFails?;
    && (o.Indexed? <==> ours && loaded && !Stale(s, p, now) && answer.Accepts?)
    && (o.Skipped? <==> ours && loaded && Stale(s, p, now))
    && (o.RetryLater? <==> ours && !exhausted && (!loaded || (!Stale(s, p, now) && answer.Refuses? && answer.temporary)))
    && (o.GivenUp? <==> !ours || (!loaded && exhausted) || (loaded && !Stale(s, p, now) && answer.Refuses? && (exhausted || !answer.temporary)))
  }

  // Only this row and no record changed.
  ghost predicate OnlyRow(s: Repo, t: Repo, id: string) {
    && t.records == s.records && t.remembered == s.remembered && t.versions == s.versions && t.projections.Keys == s.projections.Keys
    && forall other :: other in s.projections && other != id ==> t.projections[other] == s.projections[other]
  }

  lemma HandledExactly(c: Config, k: ProjectorConfig, s: Repo, p: Projection, answer: Answer, now: Time)
    requires ValidConfig(k) && p.id in s.projections && s.projections[p.id].owner == p.owner
    ensures var (t, refusal) := Handle(c, k, s, p, answer, now);
            && refusal.None? && OnlyRow(s, t, p.id)
            && RowEnds(c, k, s, p, answer, now, t.projections[p.id])
            && CountedAs(k, s, p, answer, now, OutcomeOf(k, s, p, answer, now))
  {
    hide Delay, OutcomeOf, Current, Stale, RowEnds, CountedAs, OnlyRow;
    Counts(k, s, p, answer, now);
    match OutcomeOf(k, s, p, answer, now)
    case Indexed => Finishes(c, k, s, p, answer, now);
    case Skipped => Finishes(c, k, s, p, answer, now);
    case GivenUp => GivesBack(c, k, s, p, answer, now);
    case RetryLater => GivesBack(c, k, s, p, answer, now);
  }

  lemma Counts(k: ProjectorConfig, s: Repo, p: Projection, answer: Answer, now: Time)
    ensures CountedAs(k, s, p, answer, now, OutcomeOf(k, s, p, answer, now))
  {
    assert Current(s, p, now).None? <==> Stale(s, p, now);
    hide Current, Stale;
  }

  lemma Finishes(c: Config, k: ProjectorConfig, s: Repo, p: Projection, answer: Answer, now: Time)
    requires ValidConfig(k) && p.id in s.projections && s.projections[p.id].owner == p.owner
    requires OutcomeOf(k, s, p, answer, now).Indexed? || OutcomeOf(k, s, p, answer, now).Skipped?
    requires CountedAs(k, s, p, answer, now, OutcomeOf(k, s, p, answer, now))
    ensures var (t, refusal) := Handle(c, k, s, p, answer, now);
            refusal.None? && OnlyRow(s, t, p.id) && RowEnds(c, k, s, p, answer, now, t.projections[p.id])
  {
    hide Delay, OutcomeOf, Current, Stale;
  }

  lemma GivesBack(c: Config, k: ProjectorConfig, s: Repo, p: Projection, answer: Answer, now: Time)
    requires ValidConfig(k) && p.id in s.projections && s.projections[p.id].owner == p.owner
    requires OutcomeOf(k, s, p, answer, now).GivenUp? || OutcomeOf(k, s, p, answer, now).RetryLater?
    requires CountedAs(k, s, p, answer, now, OutcomeOf(k, s, p, answer, now))
    ensures var (t, refusal) := Handle(c, k, s, p, answer, now);
            refusal.None? && OnlyRow(s, t, p.id) && RowEnds(c, k, s, p, answer, now, t.projections[p.id])
  {
    hide Delay, OutcomeOf, Current, Stale;
  }

  // The claimed rows are there, their owners', and each only once.
  predicate InStore(s: Repo, claimed: seq<Projection>) {
    && (forall i :: 0 <= i < |claimed| ==> claimed[i].id in s.projections && s.projections[claimed[i].id].owner == claimed[i].owner)
    && (forall i, j :: 0 <= i < j < |claimed| ==> claimed[i].id != claimed[j].id)
  }

  ghost predicate BatchEnds(c: Config, k: ProjectorConfig, s: Repo, claimed: seq<Projection>, answers: nat -> Answer, now: Time,
                            t: Repo, outcomes: seq<Outcome>)
    requires ValidConfig(k) && InStore(s, claimed)
  {
    && t.records == s.records && t.projections.Keys == s.projections.Keys && |outcomes| == |claimed|
    && (forall i :: 0 <= i < |claimed| ==>
          && RowEnds(c, k, s, claimed[i], answers(i), now, t.projections[claimed[i].id])
          && CountedAs(k, s, claimed[i], answers(i), now, outcomes[i]))
    && (forall id :: id in s.projections && (forall i :: 0 <= i < |claimed| ==> claimed[i].id != id) ==> t.projections[id] == s.projections[id])
  }

  // A batch ends every row it claimed as its own answer says, whatever the others'
  // answers, counts it accordingly, and leaves the other rows and the records alone.
  lemma {:induction false} BatchLeaves(c: Config, k: ProjectorConfig, s: Repo, claimed: seq<Projection>, answers: nat -> Answer, now: Time)
    requires ValidConfig(k) && InStore(s, claimed)
    ensures BatchEnds(c, k, s, claimed, answers, now, HandleAll(c, k, s, claimed, answers, now), Outcomes(c, k, s, claimed, answers, now))
    decreases |claimed|
  {
    hide RowEnds, CountedAs, Handle, OutcomeOf, BatchEnds, OnlyRow;
    if claimed == [] {
      NoneClaimed(c, k, s, answers, now);
    } else {
      var last := |claimed| - 1;
      var before := HandleAll(c, k, s, claimed[..last], answers, now);
      BatchLeaves(c, k, s, claimed[..last], answers, now);
      LastStands(c, k, s, claimed, answers, now, before, Outcomes(c, k, s, claimed[..last], answers, now));
      HandledExactly(c, k, before, claimed[last], answers(last), now);
      OneMore(c, k, s, claimed, answers, now, before, Outcomes(c, k, s, claimed[..last], answers, now),
              Handle(c, k, before, claimed[last], answers(last), now).0, OutcomeOf(k, before, claimed[last], answers(last), now));
    }
  }

  lemma NoneClaimed(c: Config, k: ProjectorConfig, s: Repo, answers: nat -> Answer, now: Time)
    requires ValidConfig(k)
    ensures BatchEnds(c, k, s, [], answers, now, s, [])
  {
  }

  lemma LastStands(c: Config, k: ProjectorConfig, s: Repo, claimed: seq<Projection>, answers: nat -> Answer, now: Time, before: Repo, outcomes: seq<Outcome>)
    requires ValidConfig(k) && InStore(s, claimed) && claimed != []
    requires BatchEnds(c, k, s, claimed[..|claimed| - 1], answers, now, before, outcomes)
    ensures var p := claimed[|claimed| - 1]; p.id in before.projections && before.projections[p.id] == s.projections[p.id]
  {
    hide RowEnds, CountedAs;
  }

  lemma OneMore(c: Config, k: ProjectorConfig, s: Repo, claimed: seq<Projection>, answers: nat -> Answer, now: Time, before: Repo,
                outcomes: seq<Outcome>, t: Repo, o: Outcome)
    requires ValidConfig(k) && InStore(s, claimed) && claimed != []
    requires BatchEnds(c, k, s, claimed[..|claimed| - 1], answers, now, before, outcomes)
    requires var last := |claimed| - 1;
             var p := claimed[last];
             && p.id in before.projections && before.projections[p.id] == s.projections[p.id] && OnlyRow(before, t, p.id)
             && RowEnds(c, k, before, p, answers(last), now, t.projections[p.id]) && CountedAs(k, before, p, answers(last), now, o)
    ensures BatchEnds(c, k, s, claimed, answers, now, t, outcomes + [o])
  {
    hide RowEnds, CountedAs;
    var last := |claimed| - 1;
    SameEnd(c, k, s, before, claimed[last], answers(last), now);
    forall i | 0 <= i < |claimed|
      ensures RowEnds(c, k, s, claimed[i], answers(i), now, t.projections[claimed[i].id])
      ensures CountedAs(k, s, claimed[i], answers(i), now, (outcomes + [o])[i])
    {
      if i < last {
        assert claimed[..last][i] == claimed[i];
      }
    }
  }

  // What becomes of a row depends on the records and on the row itself.
  lemma SameEnd(c: Config, k: ProjectorConfig, s: Repo, before: Repo, p: Projection, answer: Answer, now: Time)
    requires ValidConfig(k) && p.id in s.projections && p.id in before.projections
    requires before.records == s.records && before.projections[p.id] == s.projections[p.id]
    ensures forall row :: RowEnds(c, k, before, p, answer, now, row) <==> RowEnds(c, k, s, p, answer, now, row)
    ensures forall o :: CountedAs(k, before, p, answer, now, o) <==> CountedAs(k, s, p, answer, now, o)
  {
    hide Delay;
  }
}
