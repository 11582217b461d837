// What the outbox's answers are worth afterwards: a cancelled reminder is never
// delivered, an updated one has the new content, a claimed one is nobody else's while
// its lease runs, and each delivery ends as its worker said.
module ReminderEffects {
  import opened Basics
  import opened Ordering
  import opened ReminderSpec
  import opened ReminderSystem
  import opened ReminderProofs
  import opened ReminderTheorems

  // ---- Changes ----

  // The change was made by this very call.
  ghost predicate MadeBy(rules: Rules, s: Repo, change: MutateInput, cancel: bool) {
    Mutate(rules, s, change, cancel).1.Ok? && !Mutate(rules, s, change, cancel).1.value.replayed
  }

  // Exactly when a change is made: the owner names a scheduled reminder at its current
  // version under a key of its own, and new content is acceptable and due later.
  lemma MadeExactly(rules: Rules, s: Repo, change: MutateInput, cancel: bool)
    ensures MadeBy(rules, s, change, cancel) <==>
              && change.owner.tenantID != 0 && change.owner.userID != 0
              && ValidIdentifier(change.id) && change.idempotencyKey != "" && rules.validHash(change.inputHash)
              && (change.owner, change.idempotencyKey) !in s.remembered
              && change.id in s.reminders && s.reminders[change.id].owner == change.owner
              && s.reminders[change.id].rowVersion == change.rowVersion != 0 && s.reminders[change.id].status.StatusScheduled?
              && (cancel || (rules.updateRefusal(change.content).None? && change.content.fireAt > change.occurredAt))
  {
  }

  lemma UpdateMade(rules: Rules, s: Repo, change: MutateInput)
    requires MadeBy(rules, s, change, false)
    ensures var t := Mutate(rules, s, change, false).0;
            && change.id in s.reminders && s.reminders[change.id].status.StatusScheduled?
            && t.reminders == s.reminders[change.id := s.reminders[change.id].(
                 content := change.content, rowVersion := change.rowVersion + 1, updatedAt := change.occurredAt)]
            && t.deliveries == s.deliveries && t.occurrences == s.occurrences
  {
  }

  lemma CancelMade(rules: Rules, s: Repo, change: MutateInput)
    requires MadeBy(rules, s, change, true)
    ensures var t := Mutate(rules, s, change, true).0;
            && change.id in s.reminders && s.reminders[change.id].status.StatusScheduled?
            && t.reminders == s.reminders[change.id := s.reminders[change.id].(
                 status := StatusCancelled, claim := None, rowVersion := change.rowVersion + 1, updatedAt := change.occurredAt)]
            && t.deliveries == s.deliveries && t.occurrences == s.occurrences
  {
  }

  // ---- The end of a reminder ----

  predicate Ended(r: Reminder) {
    r.status.StatusCancelled? || r.status.StatusFired? || r.status.StatusFailed?
  }

  // A reminder that is not handled has no delivery, and no effect was recorded for it.
  lemma UnhandledHasNone(sys: System, id: string)
    requires Inv(sys) && id in sys.repo.reminders && !Handled(sys.repo.reminders[id].status)
    ensures forall d :: d in sys.repo.deliveries ==> sys.repo.deliveries[d].reminderID != id
    ensures forall i :: 0 <= i < |sys.adapter.effects| ==> sys.adapter.effects[i].reminderID != id
  {
    hide ItemInv, JobInv, OccurrenceFor;
    InvRepo(sys);
    AllDeliveriesMatch(sys.repo);
  }

  // Cancelling cancels, for good: whatever follows, the reminder stays cancelled, is in
  // no batch of due reminders, and has no delivery and no recorded effect.
  lemma CancelledForGood(rules: Rules, actions: seq<Action>, change: MutateInput, more: seq<Action>)
    requires MadeBy(rules, Exec(rules, INIT, actions).repo, change, true)
    ensures var sys := Exec(rules, INIT, actions + [Mutating(change, true)] + more);
            && change.id in sys.repo.reminders && sys.repo.reminders[change.id].status.StatusCancelled?
            && (forall due, ids :: IsDueBatch(sys.repo, due, ids) ==> change.id !in ids)
            && (forall d :: d in sys.repo.deliveries ==> sys.repo.deliveries[d].reminderID != change.id)
            && (forall i :: 0 <= i < |sys.adapter.effects| ==> sys.adapter.effects[i].reminderID != change.id)
  {
    hide Exec, Inv, Step, MadeBy, Mutate;
    var sys := Exec(rules, INIT, actions);
    var a := Mutating(change, true);
    Reachable(rules, actions);
    StepKeepsInv(rules, sys, a);
    CancelMade(rules, sys.repo, change);
    StepMutates(rules, sys, change, true);
    ExecOne(rules, sys, a);
    ExecAppend(rules, INIT, actions, [a]);
    ExecAppend(rules, INIT, actions + [a], more);
    StatusStays(rules, Step(rules, sys, a), more, change.id);
    var end := Exec(rules, Step(rules, sys, a), more);
    UnhandledHasNone(end, change.id);
    forall due, ids | IsDueBatch(end.repo, due, ids)
      ensures change.id !in ids
    {
      if change.id in ids {
        OnlyScheduled(end.repo, due, ids, change.id);
      }
    }
  }

  lemma StepMutates(rules: Rules, sys: System, change: MutateInput, cancel: bool)
    ensures Step(rules, sys, Mutating(change, cancel)) == sys.(repo := Mutate(rules, sys.repo, change, cancel).0)
  {
  }

  lemma OnlyScheduled(s: Repo, due: DueRequest, ids: seq<string>, id: string)
    requires IsDueBatch(s, due, ids) && id in ids
    ensures id in s.reminders && s.reminders[id].status.StatusScheduled?
  {
    assert id in DueIDs(s, due.now);
  }

  // ---- The content of a reminder ----

  ghost predicate Updates(rules: Rules, sys: System, a: Action, id: string) {
    a.Mutating? && a.change.id == id && !a.cancel && MadeBy(rules, sys.repo, a.change, false)
  }

  lemma StepStands(rules: Rules, sys: System, a: Action, id: string)
    requires Inv(sys) && id in sys.repo.reminders && !Updates(rules, sys, a, id)
    ensures Stands(sys.repo, Step(rules, sys, a).repo, id)
  {
    hide Inv, RepoInv, Mutate, Create, ClaimDue, RenewClaim, CommitOccurrence, CompleteDelivery, FailDelivery, ItemsOf, JobsOf, IsDueBatch, IsWorkBatch,
         MatchesIn, Deliver, Ended;
    InvRepo(sys);
    AllReminderIDs(sys.repo);
    AllDeliveriesMatch(sys.repo);
    match a
    case Creating(input) => CreateMade(rules, sys.repo, input);
    case Mutating(input, cancel) => MutateStands(rules, sys.repo, input, cancel, id);
    case Claiming(due, ids) => if Enabled(sys, a) { ClaimStands(sys.repo, due, ids, id); }
    case Renewing(other, version, token, until) => RenewStands(sys.repo, other, version, token, until, id);
    case Dispatching(item) => CommitStands(sys.repo, OccurrenceOf(item), id);
    case Taking(_, _) =>
    case Delivering(_) =>
    case Completing(job) => CompleteStands(sys.repo, job.delivery.id, job.token, job.at, id);
    case Failing(job, code, next, permanent) =>
      FailStands(sys.repo, Failure(job.delivery.id, job.token, code, job.at, next, permanent), id);
  }

  // The content stays, and the status of a reminder that has ended.
  ghost predicate Stands(s: Repo, t: Repo, id: string) {
    id in s.reminders ==>
      && id in t.reminders && t.reminders[id].content == s.reminders[id].content
      && (Ended(s.reminders[id]) ==> t.reminders[id].status == s.reminders[id].status)
  }

  lemma MutateStands(rules: Rules, s: Repo, change: MutateInput, cancel: bool, id: string)
    requires change.id == id && !cancel ==> !MadeBy(rules, s, change, false)
    ensures Stands(s, Mutate(rules, s, change, cancel).0, id)
  {
  }

  lemma ClaimStands(s: Repo, due: DueRequest, ids: seq<string>, id: string)
    requires IsDueBatch(s, due, ids)
    ensures Stands(s, ClaimDue(s, due, ids), id)
  {
    if id in ids {
      OnlyScheduled(s, due, ids, id);
    }
  }

  lemma RenewStands(s: Repo, other: string, version: nat, token: string, until: Time, id: string)
    ensures Stands(s, RenewClaim(s, other, version, token, until).0, id)
  {
  }

  lemma CommitStands(s: Repo, input: CommitInput, id: string)
    requires forall k :: k in s.reminders ==> s.reminders[k].id == k
    ensures Stands(s, CommitOccurrence(s, input).0, id)
  {
  }

  lemma CompleteStands(s: Repo, d: string, token: string, now: Time, id: string)
    requires forall k :: k in s.reminders ==> s.reminders[k].id == k
    requires d in s.deliveries ==> MatchesIn(s, s.deliveries[d].reminderID, s.deliveries[d])
    ensures Stands(s, CompleteDelivery(s, d, token, now).0, id)
  {
  }

  lemma FailStands(s: Repo, f: Failure, id: string)
    requires forall k :: k in s.reminders ==> s.reminders[k].id == k
    requires f.id in s.deliveries ==> MatchesIn(s, s.deliveries[f.id].reminderID, s.deliveries[f.id]) && s.deliveries[f.id].id == f.id
    ensures Stands(s, FailDelivery(s, f).0, id)
  {
  }

  lemma {:induction false} ContentStands(rules: Rules, sys: System, actions: seq<Action>, id: string)
    requires Inv(sys) && id in sys.repo.reminders
    requires forall k :: 0 <= k < |actions| ==> !Updates(rules, Exec(rules, sys, actions[..k]), actions[k], id)
    ensures Inv(Exec(rules, sys, actions)) && id in Exec(rules, sys, actions).repo.reminders
    ensures Exec(rules, sys, actions).repo.reminders[id].content == sys.repo.reminders[id].content
    decreases |actions|
  {
    hide Inv, Step, Updates;
    if actions != [] {
      var last := |actions| - 1;
      var before := actions[..last];
      assert forall k :: 0 <= k < last ==> before[k] == actions[k] && before[..k] == actions[..k];
      ContentStands(rules, sys, before, id);
      StepStands(rules, Exec(rules, sys, before), actions[last], id);
      StepKeepsInv(rules, Exec(rules, sys, before), actions[last]);
    }
  }

  // An update takes effect: the reminder is still scheduled, has the new content until
  // the next update made, and when it has fired, that text was delivered.
  lemma UpdatedIsDelivered(rules: Rules, actions: seq<Action>, change: MutateInput, more: seq<Action>)
    requires MadeBy(rules, Exec(rules, INIT, actions).repo, change, false)
    requires var next := Step(rules, Exec(rules, INIT, actions), Mutating(change, false));
             forall k :: 0 <= k < |more| ==> !Updates(rules, Exec(rules, next, more[..k]), more[k], change.id)
    ensures var next := Step(rules, Exec(rules, INIT, actions), Mutating(change, false)).repo;
            change.id in next.reminders && next.reminders[change.id].status.StatusScheduled?
    ensures var sys := Exec(rules, INIT, actions + [Mutating(change, false)] + more);
            && change.id in sys.repo.reminders && sys.repo.reminders[change.id].content == change.content
            && (sys.repo.reminders[change.id].status.StatusFired? ==>
                  exists i :: 0 <= i < |sys.adapter.effects| && sys.adapter.effects[i].reminderID == change.id
                           && sys.adapter.effects[i].text == change.content.text)
  {
    hide Exec, Inv, Step, MadeBy, Mutate, Updates;
    var sys := Exec(rules, INIT, actions);
    var a := Mutating(change, false);
    Reachable(rules, actions);
    StepKeepsInv(rules, sys, a);
    UpdateMade(rules, sys.repo, change);
    StepMutates(rules, sys, change, false);
    ExecOne(rules, sys, a);
    ExecAppend(rules, INIT, actions, [a]);
    ExecAppend(rules, INIT, actions + [a], more);
    ContentStands(rules, Step(rules, sys, a), more, change.id);
    EffectsAtMostOnce(rules, actions + [a] + more);
  }

  // A creation under a key not used before is accepted exactly for a reminder under a new
  // id that names its owner, text and source, and when scheduled is due after its
  // creation and within a year.
  lemma CreatedExactly(rules: Rules, s: Repo, input: CreateInput)
    requires (input.reminder.owner, input.idempotencyKey) !in s.remembered
    ensures var r := input.reminder;
            Create(rules, s, input).1.Ok? <==>
              && ValidIdentifier(input.idempotencyKey) && rules.validHash(input.inputHash)
              && r.owner.tenantID != 0 && r.owner.userID != 0 && ValidIdentifier(r.id) && r.id !in s.reminders
              && r.rowVersion != 0 && !r.status.StatusUnset? && r.createdAt != ZERO_TIME && r.updatedAt != ZERO_TIME
              && rules.textRefusal(r).None? && r.content.timezone == "Asia/Shanghai" && r.content.fireAt != ZERO_TIME
              && ValidIdentifier(r.source.0) && ValidIdentifier(r.source.1)
              && (r.status.StatusScheduled? ==> r.createdAt < r.content.fireAt <= r.createdAt + 365 * DAY)
              && (r.claim.Some? ==> ValidIdentifier(r.claim.value.token) && r.claim.value.leaseUntil != ZERO_TIME)
  {
    hide ValidIdentifier;
  }

  // A creation stores the reminder as given, under its id, or replays or refuses and
  // changes nothing.
  lemma CreateMade(rules: Rules, s: Repo, input: CreateInput)
    ensures var (t, r) := Create(rules, s, input);
            && t.deliveries == s.deliveries && t.occurrences == s.occurrences
            && (if r.Ok? && !r.value.replayed then
                  input.reminder.id !in s.reminders && t.reminders == s.reminders[input.reminder.id := input.reminder] && r.value.reminder == input.reminder
                else t == s)
            && (r.Ok? && r.value.replayed ==> (input.reminder.owner, input.idempotencyKey) in s.remembered)
  {
    hide Refusal;
  }

  // ---- Replays ----

  lemma StepRemembers(rules: Rules, sys: System, a: Action, key: (Owner, string))
    requires key in sys.repo.remembered
    ensures key in Step(rules, sys, a).repo.remembered && Step(rules, sys, a).repo.remembered[key] == sys.repo.remembered[key]
  {
    hide Refusal, MutateRefusal, Changed, ItemsOf, JobsOf, IsDueBatch, IsWorkBatch, Deliver, Keyed;
  }

  lemma {:induction false} Remembers(rules: Rules, sys: System, actions: seq<Action>, key: (Owner, string))
    requires key in sys.repo.remembered
    ensures key in Exec(rules, sys, actions).repo.remembered && Exec(rules, sys, actions).repo.remembered[key] == sys.repo.remembered[key]
    decreases |actions|
  {
    hide Step;
    if actions != [] {
      var last := |actions| - 1;
      Remembers(rules, sys, actions[..last], key);
      StepRemembers(rules, Exec(rules, sys, actions[..last]), actions[last], key);
    }
  }

  // Repeating a creation or a change under its key, at any later time, changes nothing:
  // it returns what the first call returned when it is the same input, and is refused
  // as a conflict otherwise.
  lemma CreateReplays(rules: Rules, sys: System, input: CreateInput, more: seq<Action>, again: CreateInput)
    requires Create(rules, sys.repo, input).1.Ok? && Enabled(sys, Creating(input))
    requires again.reminder.owner == input.reminder.owner && again.idempotencyKey == input.idempotencyKey
    requires rules.validHash(again.inputHash) && Refusal(rules, again.reminder, again.reminder.createdAt).None?
    ensures var first := Create(rules, sys.repo, input).1.value.reminder;
            var s := Exec(rules, Step(rules, sys, Creating(input)), more).repo;
            Create(rules, s, again) ==
              (s, if again.inputHash == input.inputHash then Ok(Mutation(first, true)) else Err(IdempotencyConflict))
  {
    hide Exec, Refusal;
    Remembers(rules, Step(rules, sys, Creating(input)), more, (input.reminder.owner, input.idempotencyKey));
  }

  lemma ChangeReplays(rules: Rules, sys: System, input: MutateInput, cancel: bool, more: seq<Action>, again: MutateInput, cancelAgain: bool)
    requires Mutate(rules, sys.repo, input, cancel).1.Ok?
    requires again.owner == input.owner && again.idempotencyKey == input.idempotencyKey
    requires ValidIdentifier(again.id) && again.rowVersion != 0 && rules.validHash(again.inputHash)
    ensures var first := Mutate(rules, sys.repo, input, cancel).1.value.reminder;
            var s := Exec(rules, Step(rules, sys, Mutating(input, cancel)), more).repo;
            Mutate(rules, s, again, cancelAgain) ==
              (s, if again.inputHash == input.inputHash then Ok(Mutation(first, true)) else Err(IdempotencyConflict))
  {
    hide Exec, MutateRefusal, Changed;
    Remembers(rules, Step(rules, sys, Mutating(input, cancel)), more, (input.owner, input.idempotencyKey));
  }

  // ---- Renewals ----

  // A claim is renewed exactly by the holder of its token at the reminder's version; only
  // the end of the lease changes.
  lemma RenewedExactly(s: Repo, id: string, version: nat, token: string, until: Time)
    ensures var (t, refusal) := RenewClaim(s, id, version, token, until);
            && (refusal.None? <==>
                  && id in s.reminders && s.reminders[id].rowVersion == version
                  && s.reminders[id].claim.Some? && s.reminders[id].claim.value.token == token)
            && (if refusal.Some? then t == s
                else t == s.(reminders := s.reminders[id := s.reminders[id].(claim := Some(s.reminders[id].claim.value.(leaseUntil := until)))]))
  {
  }

  // ---- Claims of due reminders ----

  // A batch claims exactly the scheduled reminders that are due and under no running
  // lease, as many as the limit allows, the earliest first: each gets the token, the
  // lease and a new version, and nothing else changes.
  lemma BatchClaims(s: Repo, due: DueRequest, ids: seq<string>, id: string)
    requires IsDueBatch(s, due, ids) && id in s.reminders
    ensures var r := s.reminders[id];
            var ready := r.status.StatusScheduled? && r.content.fireAt <= due.now && (r.claim.None? || r.claim.value.leaseUntil <= due.now);
            && (id in ids ==> ready)
            && (ready && id !in ids ==>
                  && |ids| == due.limit
                  && forall i :: 0 <= i < |ids| ==> ids[i] in s.reminders && s.reminders[ids[i]].content.fireAt <= r.content.fireAt)
            && ClaimDue(s, due, ids).reminders.Keys == s.reminders.Keys
            && ClaimDue(s, due, ids).reminders[id] ==
                 (if id in ids then r.(claim := Some(Claim(due.token, due.now + due.lease)), rowVersion := r.rowVersion + 1, updatedAt := due.now) else r)
            && ClaimDue(s, due, ids).deliveries == s.deliveries
  {
    if id in ids {
      assert id in DueIDs(s, due.now);
    }
    if id in DueIDs(s, due.now) && id !in ids {
      forall i | 0 <= i < |ids|
        ensures ids[i] in s.reminders && s.reminders[ids[i]].content.fireAt <= s.reminders[id].content.fireAt
      {
        assert Precedes(FireTimes(s), ids[i], id);
      }
    }
  }

  // The lease of a claimed reminder: as claimed, or as an accepted renewal said.
  ghost function LeaseEnd(rules: Rules, sys: System, actions: seq<Action>, id: string, until: Time): Time
    decreases |actions|
  {
    if actions == [] then until
    else
      var last := |actions| - 1;
      var before := Exec(rules, sys, actions[..last]);
      var a := actions[last];
      if a.Renewing? && a.id == id && RenewClaim(before.repo, id, a.version, a.token, a.until).1.None? then a.until
      else LeaseEnd(rules, sys, actions[..last], id, until)
  }

  // Under its lease, or no longer to be dispatched at all.
  predicate LeasedOrOver(s: Repo, id: string, until: Time) {
    id in s.reminders && (!s.reminders[id].status.StatusScheduled?
                          || (s.reminders[id].claim.Some? && s.reminders[id].claim.value.leaseUntil == until))
  }

  ghost predicate Picks(sys: System, a: Action, id: string) {
    a.Claiming? && IsDueBatch(sys.repo, a.due, a.dueIDs) && id in a.dueIDs
  }

  lemma NoPickWhileLeased(sys: System, a: Action, id: string, until: Time)
    requires LeasedOrOver(sys.repo, id, until) && a.Claiming? && a.due.now < until
    ensures !Picks(sys, a, id)
  {
    if Picks(sys, a, id) {
      PickedIsDue(sys, a, id);
    }
  }

  lemma PickedIsDue(sys: System, a: Action, id: string)
    requires Picks(sys, a, id)
    ensures id in sys.repo.reminders && Due(sys.repo.reminders[id], a.due.now)
  {
    assert id in DueIDs(sys.repo, a.due.now);
  }

  lemma StepKeepsLease(rules: Rules, sys: System, a: Action, id: string, until: Time)
    requires Inv(sys) && LeasedOrOver(sys.repo, id, until) && (a.Claiming? ==> a.due.now < until)
    ensures var renewed := a.Renewing? && a.id == id && RenewClaim(sys.repo, id, a.version, a.token, a.until).1.None?;
            LeasedOrOver(Step(rules, sys, a).repo, id, if renewed then a.until else until)
  {
    hide Inv, RepoInv, Keyed, Refusal, Replay, MutateRefusal, ItemsOf, JobsOf, IsDueBatch, IsWorkBatch;
    InvRepo(sys);
    AllReminderIDs(sys.repo);
    AllDeliveriesMatch(sys.repo);
    if a.Claiming? {
      NoPickWhileLeased(sys, a, id, until);
    }
  }

  lemma {:induction false} LeaseRuns(rules: Rules, sys: System, actions: seq<Action>, id: string, until: Time)
    requires Inv(sys) && LeasedOrOver(sys.repo, id, until)
    requires forall k :: 0 <= k < |actions| && actions[k].Claiming? ==> actions[k].due.now < LeaseEnd(rules, sys, actions[..k], id, until)
    ensures Inv(Exec(rules, sys, actions)) && LeasedOrOver(Exec(rules, sys, actions).repo, id, LeaseEnd(rules, sys, actions, id, until))
    decreases |actions|
  {
    hide Inv, Step, LeasedOrOver, RenewClaim;
    if actions != [] {
      var last := |actions| - 1;
      var before := actions[..last];
      assert forall k :: 0 <= k < last ==> before[k] == actions[k] && before[..k] == actions[..k];
      LeaseRuns(rules, sys, before, id, until);
      StepKeepsLease(rules, Exec(rules, sys, before), actions[last], id, LeaseEnd(rules, sys, before, id, until));
      StepKeepsInv(rules, Exec(rules, sys, before), actions[last]);
    }
  }

  // A reminder handed to a dispatcher is handed to no other at a reading before its
  // lease ends, as renewed, whatever happens meanwhile.
  lemma OneDispatcher(rules: Rules, actions: seq<Action>, claim: Action, more: seq<Action>, later: Action, id: string)
    requires Picks(Exec(rules, INIT, actions), claim, id)
    requires var sys := Step(rules, Exec(rules, INIT, actions), claim);
             var until := claim.due.now + claim.due.lease;
             && (forall k :: 0 <= k < |more| && more[k].Claiming? ==> more[k].due.now < LeaseEnd(rules, sys, more[..k], id, until))
             && (later.Claiming? ==> later.due.now < LeaseEnd(rules, sys, more, id, until))
    ensures !Picks(Exec(rules, Step(rules, Exec(rules, INIT, actions), claim), more), later, id)
  {
    hide Exec, Inv, Picks, LeasedOrOver;
    var sys := Exec(rules, INIT, actions);
    Reachable(rules, actions);
    StepKeepsInv(rules, sys, claim);
    PickedIsLeased(rules, sys, claim, id);
    var until := claim.due.now + claim.due.lease;
    LeaseRuns(rules, Step(rules, sys, claim), more, id, until);
    var end := Exec(rules, Step(rules, sys, claim), more);
    if later.Claiming? {
      NoPickWhileLeased(end, later, id, LeaseEnd(rules, Step(rules, sys, claim), more, id, until));
    } else {
      OnlyClaimsPick(end, later, id);
    }
  }

  lemma OnlyClaimsPick(sys: System, a: Action, id: string)
    requires !a.Claiming?
    ensures !Picks(sys, a, id)
  {
  }

  lemma PickedIsLeased(rules: Rules, sys: System, a: Action, id: string)
    requires Picks(sys, a, id)
    ensures a.Claiming? && LeasedOrOver(Step(rules, sys, a).repo, id, a.due.now + a.due.lease)
  {
    OnlyScheduled(sys.repo, a.due, a.dueIDs, id);
    hide IsDueBatch, ItemsOf;
  }

  // ---- Committing an occurrence ----

  // A new occurrence is committed exactly for a scheduled reminder at the claimed
  // version by the holder of a lease still running at the time of the claim; it hands
  // the reminder over and makes one open delivery of its text.
  lemma CommitMade(s: Repo, input: CommitInput)
    requires input.reminderID in s.reminders && s.reminders[input.reminderID].id == input.reminderID && input.occurrenceID !in s.occurrences
    ensures var r := s.reminders[input.reminderID];
            var (t, answer) := CommitOccurrence(s, input);
            && (answer.Ok? <==> && r.rowVersion == input.rowVersion && r.status.StatusScheduled? && r.claim.Some?
                                && r.claim.value.token == input.token && r.claim.value.leaseUntil > input.occurredAt)
            && (if answer.Err? then t == s
                else
                  && !answer.value.replayed
                  && t.reminders == s.reminders[r.id := r.(status := StatusProcessing, rowVersion := r.rowVersion + 1, claim := None, updatedAt := input.occurredAt)]
                  && t.deliveries == s.deliveries[input.occurrenceID := answer.value.delivery]
                  && t.occurrences == s.occurrences[input.occurrenceID := input.occurrenceID]
                  && var d := answer.value.delivery;
                     && d.id == d.key == input.occurrenceID && d.reminderID == r.id && d.owner == r.owner && d.text == r.content.text
                     && d.status.DeliveryPending? && d.attempt == 0 && d.availableAt == input.occurredAt && d.leaseUntil.None?)
  {
  }

  // ---- Deliveries ----

  // A batch of work takes exactly the open deliveries that are available and under no
  // running lease, as many as the limit allows, the smallest ids first; each becomes
  // its worker's for the lease and counts an attempt.
  lemma BatchTakes(s: Repo, work: WorkRequest, ids: seq<string>, id: string)
    requires IsWorkBatch(s, work, ids) && id in s.deliveries
    ensures var d := s.deliveries[id];
            var ready := (d.status.DeliveryPending? || d.status.DeliveryProcessing?) && d.availableAt <= work.now
                         && (d.leaseUntil.None? || d.leaseUntil.value <= work.now);
            && (id in ids ==> ready)
            && (ready && id !in ids ==> |ids| == work.limit && forall i :: 0 <= i < |ids| ==> Less(ids[i], id))
            && ClaimDeliveries(s, work, ids).deliveries.Keys == s.deliveries.Keys
            && ClaimDeliveries(s, work, ids).reminders == s.reminders
            && ClaimDeliveries(s, work, ids).deliveries[id] ==
                 if id in ids then
                   d.(status := DeliveryProcessing, claimToken := work.token, leaseUntil := Some(work.now + work.lease), attempt := d.attempt + 1)
                 else d
  {
    if id in ids {
      assert id in AvailableIDs(s, work.now);
    }
    if id in AvailableIDs(s, work.now) && id !in ids {
      forall i | 0 <= i < |ids|
        ensures Less(ids[i], id)
      {
        assert Precedes(NoTimes(s), ids[i], id);
      }
    }
  }

  // Completed by the holder of the claim only, with the reminder fired.
  ghost predicate Completion(s: Repo, id: string, token: string, now: Time)
    requires id in s.deliveries
  {
    var (t, refusal) := CompleteDelivery(s, id, token, now);
    var d := s.deliveries[id];
    && (refusal.None? <==> d.status.DeliveryCompleted? || (d.status.DeliveryProcessing? && d.claimToken == token))
    && (if refusal.Some? || d.status.DeliveryCompleted? then t == s
        else
          && d.reminderID in s.reminders
          && t.deliveries == s.deliveries[id := d.(status := DeliveryCompleted, claimToken := "", leaseUntil := None)]
          && t.reminders == s.reminders[d.reminderID := s.reminders[d.reminderID].(
               status := StatusFired, rowVersion := s.reminders[d.reminderID].rowVersion + 1, updatedAt := now)]
          && t.occurrences == s.occurrences)
  }

  lemma CompletesExactly(s: Repo, id: string, token: string, now: Time)
    requires id in s.deliveries && MatchesIn(s, s.deliveries[id].reminderID, s.deliveries[id])
    requires forall k :: k in s.reminders ==> s.reminders[k].id == k
    ensures Completion(s, id, token, now)
  {
  }

  // In every reachable state: a delivery is completed exactly by the holder of its
  // claim, and its reminder is then fired; completing it again changes nothing.
  lemma CompletedExactly(rules: Rules, actions: seq<Action>, id: string, token: string, now: Time)
    requires id in Exec(rules, INIT, actions).repo.deliveries
    ensures Completion(Exec(rules, INIT, actions).repo, id, token, now)
  {
    hide Exec, Inv, RepoInv, CompleteDelivery, MatchesIn;
    var s := Exec(rules, INIT, actions).repo;
    Reachable(rules, actions);
    InvRepo(Exec(rules, INIT, actions));
    AllDeliveriesMatch(s);
    AllReminderIDs(s);
    CompletesExactly(s, id, token, now);
  }

  // Failed by the holder of the claim only, for good or to be taken again.
  ghost predicate FailureDone(s: Repo, f: Failure)
    requires f.id in s.deliveries
  {
    var (t, refusal) := FailDelivery(s, f);
    var d := s.deliveries[f.id];
    && (refusal.None? <==> d.status.DeliveryProcessing? && d.claimToken == f.token)
    && (if refusal.Some? then t == s
        else
          && d.reminderID in s.reminders && t.occurrences == s.occurrences
          && (if f.permanent then
                && t.deliveries == s.deliveries[f.id := d.(
                     status := DeliveryPermanentFailed, lastErrorCode := f.errorCode, claimToken := "", leaseUntil := None)]
                && t.reminders == s.reminders[d.reminderID := s.reminders[d.reminderID].(
                     status := StatusFailed, lastErrorCode := f.errorCode, rowVersion := s.reminders[d.reminderID].rowVersion + 1, updatedAt := f.now)]
              else
                && t.deliveries == s.deliveries[f.id := d.(
                     status := DeliveryPending, availableAt := f.nextAvailable, lastErrorCode := f.errorCode, claimToken := "", leaseUntil := None)]
                && t.reminders == s.reminders))
  }

  lemma FailsExactly(s: Repo, f: Failure)
    requires f.id in s.deliveries && MatchesIn(s, s.deliveries[f.id].reminderID, s.deliveries[f.id]) && s.deliveries[f.id].id == f.id
    requires forall k :: k in s.reminders ==> s.reminders[k].id == k
    ensures FailureDone(s, f)
  {
  }

  // A delivery is failed exactly by the holder of its claim: for good, and its reminder
  // with it and with the code, or to be taken again from the given time on, its
  // reminder left as it is.
  lemma FailedExactly(rules: Rules, actions: seq<Action>, f: Failure)
    requires f.id in Exec(rules, INIT, actions).repo.deliveries
    ensures FailureDone(Exec(rules, INIT, actions).repo, f)
  {
    hide Exec, Inv, RepoInv, FailDelivery, MatchesIn;
    var s := Exec(rules, INIT, actions).repo;
    Reachable(rules, actions);
    InvRepo(Exec(rules, INIT, actions));
    AllDeliveriesMatch(s);
    AllReminderIDs(s);
    FailsExactly(s, f);
  }

  // What has been delivered or has failed for good, and what was cancelled, stays so.
  lemma EndIsFinal(rules: Rules, actions: seq<Action>, more: seq<Action>, id: string)
    requires id in Exec(rules, INIT, actions).repo.reminders && Ended(Exec(rules, INIT, actions).repo.reminders[id])
    ensures id in Exec(rules, INIT, actions + more).repo.reminders
    ensures Exec(rules, INIT, actions + more).repo.reminders[id].status == Exec(rules, INIT, actions).repo.reminders[id].status
    ensures Exec(rules, INIT, actions + more).repo.reminders[id].content == Exec(rules, INIT, actions).repo.reminders[id].content
  {
    hide Exec, Inv, Step;
    Reachable(rules, actions);
    ExecAppend(rules, INIT, actions, more);
    StatusStays(rules, Exec(rules, INIT, actions), more, id);
  }

  lemma {:induction false} StatusStays(rules: Rules, sys: System, actions: seq<Action>, id: string)
    requires Inv(sys) && id in sys.repo.reminders && Ended(sys.repo.reminders[id])
    ensures Inv(Exec(rules, sys, actions))
    ensures id in Exec(rules, sys, actions).repo.reminders
    ensures Exec(rules, sys, actions).repo.reminders[id].status == sys.repo.reminders[id].status
    ensures Exec(rules, sys, actions).repo.reminders[id].content == sys.repo.reminders[id].content
    decreases |actions|
  {
    hide Inv, Step;
    if actions != [] {
      var last := |actions| - 1;
      StatusStays(rules, sys, actions[..last], id);
      StepKeepsInv(rules, Exec(rules, sys, actions[..last]), actions[last]);
      EndedNotUpdated(rules, Exec(rules, sys, actions[..last]), actions[last], id);
      StepStands(rules, Exec(rules, sys, actions[..last]), actions[last], id);
    }
  }

  lemma EndedNotUpdated(rules: Rules, sys: System, a: Action, id: string)
    requires id in sys.repo.reminders && Ended(sys.repo.reminders[id])
    ensures !Updates(rules, sys, a, id)
  {
  }

  // ---- Claims of deliveries ----

  ghost predicate Takes(sys: System, a: Action, id: string) {
    a.Taking? && IsWorkBatch(sys.repo, a.work, a.workIDs) && id in a.workIDs
  }

  // The holder gave the delivery back.
  ghost predicate Returned(sys: System, a: Action, id: string) {
    && a.Failing? && a.job.delivery.id == id && !a.permanent && Enabled(sys, a)
    && FailDelivery(sys.repo, Failure(id, a.job.token, a.errorCode, a.job.at, a.nextAvailable, false)).1.None?
  }

  predicate HeldOrOver(s: Repo, id: string, until: Time) {
    id in s.deliveries && s.deliveries[id].id == id && (Open(s.deliveries[id]) ==> s.deliveries[id].leaseUntil == Some(until))
  }

  lemma TakenIsAvailable(sys: System, a: Action, id: string)
    requires Takes(sys, a, id)
    ensures id in sys.repo.deliveries && Available(sys.repo.deliveries[id], a.work.now)
  {
    assert id in AvailableIDs(sys.repo, a.work.now);
  }

  lemma NoTakeWhileHeld(sys: System, a: Action, id: string, until: Time)
    requires HeldOrOver(sys.repo, id, until) && (a.Taking? ==> a.work.now < until)
    ensures !Takes(sys, a, id)
  {
    if Takes(sys, a, id) {
      TakenIsAvailable(sys, a, id);
    }
  }

  lemma StepKeepsHeld(rules: Rules, sys: System, a: Action, id: string, until: Time)
    requires Inv(sys) && HeldOrOver(sys.repo, id, until) && (a.Taking? ==> a.work.now < until) && !Returned(sys, a, id)
    ensures HeldOrOver(Step(rules, sys, a).repo, id, until)
  {
    hide Inv, RepoInv, Mutate, Create, ClaimDue, RenewClaim, Keyed, ItemsOf, JobsOf, IsDueBatch, IsWorkBatch, Deliver;
    InvRepo(sys);
    AllDeliveriesMatch(sys.repo);
    if a.Creating? || a.Mutating? || a.Claiming? || a.Renewing? {
      KeptDeliveries(rules, sys, a);
    }
    if a.Taking? {
      NoTakeWhileHeld(sys, a, id, until);
    } else if a.Dispatching? {
      OccurrencesKnown(sys.repo, id);
    }
  }

  lemma OccurrencesKnown(s: Repo, id: string)
    requires RepoInv(s) && id in s.deliveries
    ensures id in s.occurrences
  {
    assert DeliveryInv(s, id);
  }

  lemma KeptDeliveries(rules: Rules, sys: System, a: Action)
    requires a.Creating? || a.Mutating? || a.Claiming? || a.Renewing?
    ensures Step(rules, sys, a).repo.deliveries == sys.repo.deliveries
  {
    hide Refusal, Replay, MutateRefusal, IsDueBatch, ItemsOf;
  }

  lemma {:induction false} HeldOn(rules: Rules, sys: System, actions: seq<Action>, id: string, until: Time)
    requires Inv(sys) && HeldOrOver(sys.repo, id, until)
    requires forall k :: 0 <= k < |actions| && actions[k].Taking? ==> actions[k].work.now < until
    requires forall k :: 0 <= k < |actions| ==> !Returned(Exec(rules, sys, actions[..k]), actions[k], id)
    ensures Inv(Exec(rules, sys, actions)) && HeldOrOver(Exec(rules, sys, actions).repo, id, until)
    decreases |actions|
  {
    hide Inv, Step, HeldOrOver, Returned;
    if actions != [] {
      var last := |actions| - 1;
      var before := actions[..last];
      assert forall k :: 0 <= k < last ==> before[k] == actions[k] && before[..k] == actions[..k];
      HeldOn(rules, sys, before, id, until);
      StepKeepsHeld(rules, Exec(rules, sys, before), actions[last], id, until);
      StepKeepsInv(rules, Exec(rules, sys, before), actions[last]);
    }
  }

  // A delivery handed to a worker is handed to no other at a reading before its lease
  // ends, unless the worker gave it back.
  lemma OneWorker(rules: Rules, actions: seq<Action>, take: Action, more: seq<Action>, later: Action, id: string)
    requires Takes(Exec(rules, INIT, actions), take, id)
    requires var sys := Step(rules, Exec(rules, INIT, actions), take);
             var until := take.work.now + take.work.lease;
             && (forall k :: 0 <= k < |more| && more[k].Taking? ==> more[k].work.now < until)
             && (forall k :: 0 <= k < |more| ==> !Returned(Exec(rules, sys, more[..k]), more[k], id))
             && (later.Taking? ==> later.work.now < until)
    ensures !Takes(Exec(rules, Step(rules, Exec(rules, INIT, actions), take), more), later, id)
  {
    hide Exec, Inv, Takes, HeldOrOver, Returned;
    var sys := Exec(rules, INIT, actions);
    Reachable(rules, actions);
    StepKeepsInv(rules, sys, take);
    TakenIsHeld(rules, sys, take, id);
    var until := take.work.now + take.work.lease;
    HeldOn(rules, Step(rules, sys, take), more, id, until);
    NoTakeWhileHeld(Exec(rules, Step(rules, sys, take), more), later, id, until);
  }

  lemma TakenIsHeld(rules: Rules, sys: System, a: Action, id: string)
    requires Inv(sys) && Takes(sys, a, id)
    ensures a.Taking? && HeldOrOver(Step(rules, sys, a).repo, id, a.work.now + a.work.lease)
  {
    hide Inv, RepoInv, IsWorkBatch, JobsOf;
    TakenIsAvailable(sys, a, id);
    InvRepo(sys);
    AllDeliveriesMatch(sys.repo);
  }
}
