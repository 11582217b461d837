// What the outbox guarantees in every reachable state and over every run.
module ReminderTheorems {
  import opened Basics
  import opened Ordering
  import opened ReminderSpec
  import opened ReminderSystem
  import opened ReminderProofs

  // ---- Reminders and deliveries ----

  // A reminder has a delivery exactly when it is processing, fired or failed, never
  // two, and the two statuses correspond exactly.
  lemma DeliveriesFollowReminders(rules: Rules, actions: seq<Action>)
    ensures var s := Exec(rules, INIT, actions).repo;
            && (forall id :: id in s.reminders ==> (HasDelivery(s, id) <==> Handled(s.reminders[id].status)))
            && (forall a, b :: a in s.deliveries && b in s.deliveries && s.deliveries[a].reminderID == s.deliveries[b].reminderID ==> a == b)
            && (forall d :: d in s.deliveries ==>
                  var delivery := s.deliveries[d];
                  && delivery.reminderID in s.reminders
                  && (Open(delivery) <==> s.reminders[delivery.reminderID].status.StatusProcessing?)
                  && (delivery.status.DeliveryCompleted? <==> s.reminders[delivery.reminderID].status.StatusFired?)
                  && (delivery.status.DeliveryPermanentFailed? <==> s.reminders[delivery.reminderID].status.StatusFailed?))
  {
    hide Exec;
    Reachable(rules, actions);
    var s := Exec(rules, INIT, actions).repo;
    AllDeliveriesMatch(s);
    forall id | id in s.reminders
      ensures HasDelivery(s, id) <==> Handled(s.reminders[id].status)
    {
      HandledHasDelivery(s, id);
    }
    OnlyOnes(s);
    hide RepoInv;
    forall d | d in s.deliveries
      ensures s.deliveries[d].reminderID in s.reminders
      ensures Matches(s.deliveries[d].status, s.reminders[s.deliveries[d].reminderID].status)
    {
      assert MatchesIn(s, s.deliveries[d].reminderID, s.deliveries[d]);
    }
  }

  lemma HandledHasDelivery(s: Repo, id: string)
    requires RepoInv(s) && id in s.reminders
    ensures HasDelivery(s, id) <==> Handled(s.reminders[id].status)
  {
  }

  lemma OnlyOnes(s: Repo)
    requires RepoInv(s)
    ensures forall a, b :: a in s.deliveries && b in s.deliveries && s.deliveries[a].reminderID == s.deliveries[b].reminderID ==> a == b
  {
    hide DeliveryInv, ReminderInv;
  }

  // The state conflict of CompleteDelivery is unreachable.
  lemma CompletionNeverConflicts(rules: Rules, actions: seq<Action>, id: string, token: string, now: Time)
    ensures CompleteDelivery(Exec(rules, INIT, actions).repo, id, token, now).1 != Some(StateConflict)
  {
    hide Exec;
    Reachable(rules, actions);
    CompleteEvolves(Exec(rules, INIT, actions).repo, id, token, now);
  }

  // ---- Effects ----

  // Under any interleaving of workers, crashes after delivery and lease takeovers, the
  // adapter records at most one effect per reminder; every fired reminder has one, with
  // the reminder's own text.
  lemma EffectsAtMostOnce(rules: Rules, actions: seq<Action>)
    ensures var sys := Exec(rules, INIT, actions);
            var effects := sys.adapter.effects;
            && sys.adapter.calls == |effects|
            && (forall i, j :: 0 <= i < |effects| && 0 <= j < |effects| && effects[i].reminderID == effects[j].reminderID ==> i == j)
            && (forall id :: id in sys.repo.reminders && sys.repo.reminders[id].status.StatusFired? ==>
                  exists i :: 0 <= i < |effects| && effects[i].reminderID == id
                           && effects[i].text == sys.repo.reminders[id].content.text)
  {
    hide Exec;
    Reachable(rules, actions);
    var sys := Exec(rules, INIT, actions);
    var effects := sys.adapter.effects;
    forall i, j | 0 <= i < j < |effects|
      ensures effects[i].reminderID != effects[j].reminderID
    {
      EffectsDiffer(sys, i, j);
    }
    forall id | id in sys.repo.reminders && sys.repo.reminders[id].status.StatusFired?
      ensures exists i :: 0 <= i < |effects| && effects[i].reminderID == id && effects[i].text == sys.repo.reminders[id].content.text
    {
      FiredHasEffect(sys, id);
    }
    AdapterCalls(sys);
    hide Inv;
  }

  lemma AdapterCalls(sys: System)
    requires Inv(sys)
    ensures sys.adapter.calls == |sys.adapter.effects|
  {
    hide RepoInv, CompletedInv;
  }

  lemma EffectsDiffer(sys: System, i: nat, j: nat)
    requires Inv(sys) && i < j < |sys.adapter.effects|
    ensures sys.adapter.effects[i].reminderID != sys.adapter.effects[j].reminderID
  {
  }

  lemma FiredHasEffect(sys: System, id: string)
    requires Inv(sys) && id in sys.repo.reminders && sys.repo.reminders[id].status.StatusFired?
    ensures exists i :: 0 <= i < |sys.adapter.effects|
                     && sys.adapter.effects[i].reminderID == id
                     && sys.adapter.effects[i].text == sys.repo.reminders[id].content.text
  {
  }

  // ---- Row versions ----

  lemma StepEvolves(rules: Rules, sys: System, a: Action)
    requires Inv(sys)
    ensures Evolves(sys.repo, Step(rules, sys, a).repo)
  {
    hide Inv, RepoInv, Evolves, IsDueBatch, IsWorkBatch;
    InvRepo(sys);
    NothingMoved(sys.repo);
    if Enabled(sys, a) {
      match a
      case Creating(input) => CreateEvolves(rules, sys.repo, input);
      case Mutating(input, cancel) => MutateEvolves(rules, sys.repo, input, cancel);
      case Claiming(due, ids) => ClaimDueEvolves(sys.repo, due, ids);
      case Renewing(id, version, token, until) => RenewEvolves(sys.repo, id, version, token, until);
      case Dispatching(item) =>
        assert OccurrenceFor(OccurrenceOf(item).reminderID, OccurrenceOf(item).occurrenceID);
        CommitEvolves(sys.repo, OccurrenceOf(item));
      case Taking(work, ids) => TakeEvolves(sys.repo, work, ids);
      case Delivering(_) =>
      case Completing(job) => CompleteEvolves(sys.repo, job.delivery.id, job.token, job.at);
      case Failing(job, code, next, permanent) =>
        FailEvolves(sys.repo, Failure(job.delivery.id, job.token, code, job.at, next, permanent));
    }
  }

  lemma {:induction false} ExecEvolves(rules: Rules, sys: System, actions: seq<Action>)
    requires Inv(sys)
    ensures Inv(Exec(rules, sys, actions)) && Evolves(sys.repo, Exec(rules, sys, actions).repo)
    decreases |actions|
  {
    hide Step, Evolves, Inv;
    if actions == [] {
      InvRepo(sys);
      NothingMoved(sys.repo);
    } else {
      var last := |actions| - 1;
      ExecEvolves(rules, sys, actions[..last]);
      var before := Exec(rules, sys, actions[..last]);
      StepKeepsInv(rules, before, actions[last]);
      StepEvolves(rules, before, actions[last]);
      EvolvesThrough(sys.repo, before.repo, Step(rules, before, actions[last]).repo);
    }
  }

  lemma EvolvesThrough(a: Repo, b: Repo, c: Repo)
    requires Evolves(a, b) && Evolves(b, c)
    ensures Evolves(a, c)
  {
  }

  lemma {:induction false} ExecAppend(rules: Rules, sys: System, first: seq<Action>, more: seq<Action>)
    ensures Exec(rules, sys, first + more) == Exec(rules, Exec(rules, sys, first), more)
    decreases |more|
  {
    hide Step;
    if more == [] {
      assert first + more == first;
    } else {
      var last := |more| - 1;
      ExecAppend(rules, sys, first, more[..last]);
      assert (first + more)[..|first| + last] == first + more[..last];
    }
  }

  // At any two points of a run, the same reminder at the same row version has the same
  // content, fire time, memory references and status; versions never go back.
  lemma RowVersionFixesValue(rules: Rules, actions: seq<Action>, more: seq<Action>, id: string)
    requires id in Exec(rules, INIT, actions).repo.reminders
    ensures var before, after := Exec(rules, INIT, actions).repo, Exec(rules, INIT, actions + more).repo;
            && id in after.reminders
            && before.reminders[id].rowVersion <= after.reminders[id].rowVersion
            && (before.reminders[id].rowVersion == after.reminders[id].rowVersion ==>
                  && before.reminders[id].content == after.reminders[id].content
                  && before.reminders[id].status == after.reminders[id].status)
  {
    hide Exec, Inv;
    Reachable(rules, actions);
    ExecEvolves(rules, Exec(rules, INIT, actions), more);
    ExecAppend(rules, INIT, actions, more);
  }

  // ---- What a dispatcher commits ----

  // Whenever a claimed reminder is committed, now or as a replay, the delivery carries
  // the claimed text, and the claimed fire time was due when it was claimed.
  lemma CommittedAsClaimed(rules: Rules, actions: seq<Action>, item: DueItem)
    requires item in Exec(rules, INIT, actions).items
    ensures var (next, r) := CommitOccurrence(Exec(rules, INIT, actions).repo, OccurrenceOf(item));
            && item.reminder.content.fireAt <= item.at
            && (r.Ok? ==>
                  && r.value.delivery.reminderID == item.reminder.id
                  && r.value.delivery.text == item.reminder.content.text
                  && (!r.value.replayed ==> next.reminders[item.reminder.id].content == item.reminder.content))
  {
    hide Exec, Keyed;
    Reachable(rules, actions);
    CommitsItem(Exec(rules, INIT, actions), item);
  }

  lemma CommitsItem(sys: System, item: DueItem)
    requires Inv(sys) && item in sys.items
    ensures var (next, r) := CommitOccurrence(sys.repo, OccurrenceOf(item));
            && item.reminder.content.fireAt <= item.at
            && (r.Ok? ==>
                  && r.value.delivery.reminderID == item.reminder.id
                  && r.value.delivery.text == item.reminder.content.text
                  && (!r.value.replayed ==> next.reminders[item.reminder.id].content == item.reminder.content))
  {
    var s := sys.repo;
    assert ItemInv(s, item);
    ReminderHasID(s, item.reminder.id);
    var key := OccurrenceOf(item).occurrenceID;
    if key in s.occurrences {
      assert key in s.deliveries;
      assert DeliveryInv(s, key);
      var version :| key == Keyed(s.deliveries[key].reminderID, version);
      KeyedInjective(s.deliveries[key].reminderID, version, item.reminder.id, item.reminder.rowVersion);
    }
    hide RepoInv, Keyed, OccurrenceFor, JobInv, AdapterInv, CompletedInv;
  }

  // An update or a cancellation that got in after the claim makes the commit of the
  // claimed reminder fail, however much later it is tried.
  lemma ChangeDefeatsClaim(rules: Rules, actions: seq<Action>, item: DueItem, change: MutateInput, cancel: bool, more: seq<Action>)
    requires var sys := Exec(rules, INIT, actions);
             && item in sys.items
             && change.id == item.reminder.id
             && Mutate(rules, sys.repo, change, cancel).1.Ok?
             && !Mutate(rules, sys.repo, change, cancel).1.value.replayed
    ensures var later := Exec(rules, INIT, actions + [Mutating(change, cancel)] + more).repo;
            CommitOccurrence(later, OccurrenceOf(item)) == (later, Err(LeaseLost))
  {
    hide Exec, Keyed, Inv, Step;
    var sys := Exec(rules, INIT, actions);
    var a := Mutating(change, cancel);
    Reachable(rules, actions);
    StepKeepsInv(rules, sys, a);
    var next := Step(rules, sys, a);
    ChangedSince(rules, sys, item, change, cancel);
    ExecOne(rules, sys, a);
    ExecAppend(rules, INIT, actions, [a]);
    StaysPassed(rules, next, more, item.reminder.id, item.reminder.rowVersion);
    ExecAppend(rules, INIT, actions + [a], more);
    StaleCommitFails(Exec(rules, next, more), item);
  }

  lemma ExecOne(rules: Rules, sys: System, a: Action)
    ensures Exec(rules, sys, [a]) == Step(rules, sys, a)
  {
  }

  lemma ChangedSince(rules: Rules, sys: System, item: DueItem, change: MutateInput, cancel: bool)
    requires Inv(sys) && item in sys.items && change.id == item.reminder.id
    requires Mutate(rules, sys.repo, change, cancel).1.Ok? && !Mutate(rules, sys.repo, change, cancel).1.value.replayed
    ensures var next := Step(rules, sys, Mutating(change, cancel));
            && item in next.items && item.reminder.id in next.repo.reminders
            && next.repo.reminders[item.reminder.id].rowVersion > item.reminder.rowVersion
            && Keyed(item.reminder.id, item.reminder.rowVersion) !in next.repo.deliveries
  {
    hide Inv, Keyed, RepoInv;
    ItemStands(sys, item);
  }

  // A scheduled reminder's claimed version has not been committed, and is no newer
  // than the stored one.
  lemma ItemStands(sys: System, item: DueItem)
    requires Inv(sys) && item in sys.items
    ensures item.reminder.id in sys.repo.reminders && sys.repo.reminders[item.reminder.id].rowVersion >= item.reminder.rowVersion
    ensures sys.repo.reminders[item.reminder.id].status.StatusScheduled? ==> Keyed(item.reminder.id, item.reminder.rowVersion) !in sys.repo.deliveries
  {
    var s := sys.repo;
    assert ItemInv(s, item);
    HandledHasDelivery(s, item.reminder.id);
    var key := OccurrenceOf(item).occurrenceID;
    if key in s.deliveries {
      assert DeliveryInv(s, key);
      var version :| key == Keyed(s.deliveries[key].reminderID, version);
      KeyedInjective(s.deliveries[key].reminderID, version, item.reminder.id, item.reminder.rowVersion);
    }
  }

  // The version is past, and nothing was committed at it.
  ghost predicate Passed(s: Repo, id: string, version: nat) {
    && id in s.reminders
    && s.reminders[id].rowVersion > version
    && Keyed(id, version) !in s.deliveries
  }

  lemma StepKeepsPassed(rules: Rules, sys: System, a: Action, id: string, version: nat)
    requires Inv(sys) && Passed(sys.repo, id, version)
    ensures Passed(Step(rules, sys, a).repo, id, version)
  {
    hide Inv, RepoInv, Keyed, IsDueBatch, IsWorkBatch, Refusal, Replay, MutateRefusal, MatchesIn;
    StepEvolves(rules, sys, a);
    InvRepo(sys);
    AllDeliveriesMatch(sys.repo);
    AllReminderIDs(sys.repo);
    if a.Dispatching? && Enabled(sys, a) {
      var input := OccurrenceOf(a.item);
      if input.occurrenceID == Keyed(id, version) {
        KeyedInjective(a.item.reminder.id, a.item.reminder.rowVersion, id, version);
      }
    }
  }

  lemma {:induction false} StaysPassed(rules: Rules, sys: System, actions: seq<Action>, id: string, version: nat)
    requires Inv(sys) && Passed(sys.repo, id, version)
    ensures Inv(Exec(rules, sys, actions)) && Passed(Exec(rules, sys, actions).repo, id, version)
    decreases |actions|
  {
    hide Step, Inv, Passed;
    if actions != [] {
      var last := |actions| - 1;
      StaysPassed(rules, sys, actions[..last], id, version);
      var before := Exec(rules, sys, actions[..last]);
      StepKeepsInv(rules, before, actions[last]);
      StepKeepsPassed(rules, before, actions[last], id, version);
    }
  }

  // A claimed reminder whose version has passed without a commit never commits.
  lemma StaleCommitFails(sys: System, item: DueItem)
    requires Inv(sys) && Passed(sys.repo, item.reminder.id, item.reminder.rowVersion)
    ensures CommitOccurrence(sys.repo, OccurrenceOf(item)) == (sys.repo, Err(LeaseLost))
  {
    hide Keyed, DeliveryInv, ReminderInv, AdapterInv, ItemInv, JobInv, CompletedInv;
  }
}
