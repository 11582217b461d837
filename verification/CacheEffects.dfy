// What holders and readers can count on: when a claim is granted, that a committed
// result is found until it expires, and that a failure frees the slot at once.
module CacheEffects {
  import opened Basics
  import opened CacheSpec
  import opened CacheTheorems

  // ---- Claims ----

  // A claim makes its caller the generator exactly when there is neither a result still
  // valid nor a generation whose lease is still running; otherwise it answers that
  // record. Whoever generates has a new token and the lease asked for.
  lemma ClaimedExactly(m: Records, slot: Slot, now: Time, lease: int, token: string)
    ensures var (t, r) := Claim(m, slot, now, lease, token);
            var key := MapKey(slot);
            var valid := slot.owner.tenantID != 0 && slot.owner.userID != 0 && slot.logical != "" && slot.source != "" && lease > 0;
            var found := key in m && m[key].status.CacheReady? && now < m[key].validUntil;
            var running := key in m && m[key].status.CacheGenerating? && now < m[key].leaseUntil;
            && (r.Ok? <==> valid)
            && (r.Ok? ==> (r.value.generator <==> !found && !running))
            && (r.Ok? && !r.value.generator ==> r.value.record == m[key] && t == m)
            && (r.Err? ==> t == m)
            && (r.Ok? && r.value.generator ==>
                  && t == m[key := r.value.record]
                  && r.value.record.status.CacheGenerating? && r.value.record.claimToken == token && r.value.record.leaseUntil == now + lease
                  && r.value.record.id == (if key in m then m[key].id else token)
                  && (key !in m ==> SlotOf(r.value.record) == slot))
  {
    hide MapKey;
  }

  // ---- Commits and failures ----

  // The record the caller names, if it is there, in a store whose ids are unique.
  lemma NamedKey(s: System, key: string, owner: Owner, id: string)
    requires Inv(s) && Names(s.records, key, owner, id)
    ensures KeyOf(s.records, owner, id) == Some(key)
  {
  }

  // A commit is accepted exactly for an acceptable result under the token current for
  // the record named, no later than the end of its lease.
  lemma CommittedExactly(rules: Rules, actions: seq<Action>, key: string, owner: Owner, id: string, token: string, result: CachedResult,
                         validUntil: Time, now: Time)
    requires Names(Exec(rules, INIT, actions).records, key, owner, id)
    ensures var m := Exec(rules, INIT, actions).records;
            var (t, r) := CommitReady(rules, m, owner, id, token, result, validUntil, now);
            && (r.Ok? <==>
                  && rules.accepts(result, 131072) && m[key].status.CacheGenerating? && m[key].claimToken == token && now <= m[key].leaseUntil)
            && (if r.Err? then t == m
                else
                  && t == m[key := r.value]
                  && r.value == m[key].(status := CacheReady, result := result, validUntil := validUntil, claimToken := "", updatedAt := now))
  {
    hide Inv, Exec;
    assert Inv(INIT) by { InitInv(); }
    Reachable(rules, INIT, actions);
    NamedKey(Exec(rules, INIT, actions), key, owner, id);
  }

  lemma FailedExactly(rules: Rules, actions: seq<Action>, key: string, owner: Owner, id: string, token: string, code: string, now: Time)
    requires Names(Exec(rules, INIT, actions).records, key, owner, id)
    ensures var m := Exec(rules, INIT, actions).records;
            var (t, refusal) := FailClaim(rules, m, owner, id, token, code, now);
            && (refusal.None? <==> m[key].status.CacheGenerating? && m[key].claimToken == token)
            && (if refusal.Some? then t == m
                else t == m[key := m[key].(status := CacheFailed, errorCode := rules.bounded(code), claimToken := "", updatedAt := now)])
  {
    hide Inv, Exec;
    assert Inv(INIT) by { InitInv(); }
    Reachable(rules, INIT, actions);
    NamedKey(Exec(rules, INIT, actions), key, owner, id);
  }

  // ---- Results ----

  // A sweep, or a claim of this record's slot.
  predicate Touches(a: Action, key: string) {
    a.Sweeping? || (a.Claiming? && MapKey(a.slot) == key)
  }

  // Until its validity ends a ready record stays as it is.
  lemma ReadyStays(rules: Rules, s: System, a: Action, key: string)
    requires key in s.records && s.records[key].status.CacheReady?
    requires Touches(a, key) ==> a.now < s.records[key].validUntil
    ensures var t := Step(rules, s, a).records; key in t && t[key] == s.records[key]
  {
    hide MapKey;
  }

  lemma {:induction false} ReadyThroughout(rules: Rules, s: System, actions: seq<Action>, key: string)
    requires key in s.records && s.records[key].status.CacheReady?
    requires forall i :: 0 <= i < |actions| && Touches(actions[i], key) ==> actions[i].now < s.records[key].validUntil
    ensures var t := Exec(rules, s, actions).records; key in t && t[key] == s.records[key]
    decreases |actions|
  {
    hide Step, Touches;
    if actions != [] {
      var last := |actions| - 1;
      ReadyThroughout(rules, s, actions[..last], key);
      ReadyStays(rules, Exec(rules, s, actions[..last]), actions[last], key);
    }
  }

  // The result an accepted commit stored is what every lookup of the slot, and every
  // claim of it, finds at a reading before its validity ends, whatever else happens, if
  // no sweep and no claim of the slot reads the clock past that.
  lemma CommittedIsFound(rules: Rules, actions: seq<Action>, slot: Slot, a: Action, more: seq<Action>, later: Time, lease: int, token: string)
    requires a.Committing? && Names(Exec(rules, INIT, actions).records, MapKey(slot), a.owner, a.id)
    requires CommitReady(rules, Exec(rules, INIT, actions).records, a.owner, a.id, a.token, a.result, a.validUntil, a.now).1.Ok?
    requires later < a.validUntil && forall i :: 0 <= i < |more| && Touches(more[i], MapKey(slot)) ==> more[i].now < a.validUntil
    ensures var m := Exec(rules, Step(rules, Exec(rules, INIT, actions), a), more).records;
            && Lookup(m, slot, later).Ok? && Lookup(m, slot, later).value.result == a.result
            && Lookup(m, slot, later).value.validUntil == a.validUntil
            && var r := Claim(m, slot, later, lease, token).1;
               r.Ok? ==> !r.value.generator && r.value.record.result == a.result
  {
    hide Inv, Exec, MapKey, Step, CommitReady;
    var s := Exec(rules, INIT, actions);
    var key := MapKey(slot);
    CommittedExactly(rules, actions, key, a.owner, a.id, a.token, a.result, a.validUntil, a.now);
    CommitStep(rules, s, a);
    var next := Step(rules, s, a);
    KeyedOwnerAt(rules, actions, slot);
    ReadyThroughout(rules, next, more, key);
    ClaimedExactly(Exec(rules, next, more).records, slot, later, lease, token);
  }

  lemma CommitStep(rules: Rules, s: System, a: Action)
    requires a.Committing?
    ensures Step(rules, s, a).records == CommitReady(rules, s.records, a.owner, a.id, a.token, a.result, a.validUntil, a.now).0
  {
  }

  lemma KeyedOwnerAt(rules: Rules, actions: seq<Action>, slot: Slot)
    requires MapKey(slot) in Exec(rules, INIT, actions).records
    ensures Exec(rules, INIT, actions).records[MapKey(slot)].owner == slot.owner
  {
    LookupMeetsOwner(rules, actions, slot);
  }

  // After an accepted failure the next claim of the slot generates again, at any reading.
  lemma FailureFrees(rules: Rules, actions: seq<Action>, slot: Slot, a: Action, later: Time, lease: int, token: string)
    requires a.Failing? && Names(Exec(rules, INIT, actions).records, MapKey(slot), a.owner, a.id)
    requires FailClaim(rules, Exec(rules, INIT, actions).records, a.owner, a.id, a.token, a.code, a.now).1.None?
    requires ValidOwner(slot.owner) && slot.logical != "" && slot.source != "" && lease > 0
    ensures var m := Step(rules, Exec(rules, INIT, actions), a).records;
            && Claim(m, slot, later, lease, token).1.Ok? && Claim(m, slot, later, lease, token).1.value.generator
            && Lookup(m, slot, later).Err?
  {
    hide Inv, Exec, MapKey;
    FailedExactly(rules, actions, MapKey(slot), a.owner, a.id, a.token, a.code, a.now);
    ClaimedExactly(Step(rules, Exec(rules, INIT, actions), a).records, slot, later, lease, token);
  }

  // ---- Sweeps ----

  // A sweep removes only records that have been resolved and whose validity and lease
  // are both over: all of them, or as many as a limit that is not negative allows.
  lemma SweptExactly(m: Records, now: Time, limit: int, swept: set<string>, key: string)
    requires IsSweep(m, now, limit, swept) && key in m
    ensures var over := !m[key].status.CacheGenerating? && m[key].validUntil <= now && m[key].leaseUntil <= now;
            && (key in swept ==> over) && (over && key !in swept ==> 0 <= limit == |swept|)
            && (key in m - swept <==> key !in swept) && (key !in swept ==> (m - swept)[key] == m[key])
  {
    if key in ExpiredKeys(m, now) && key !in swept && |swept| >= |ExpiredKeys(m, now)| {
      AllSwept(swept, ExpiredKeys(m, now));
    }
  }

  lemma AllSwept(swept: set<string>, due: set<string>)
    requires swept <= due && |swept| >= |due|
    ensures swept == due
  {
    assert due == swept + (due - swept);
  }
}
