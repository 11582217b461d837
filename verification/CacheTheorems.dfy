// What the cache guarantees over every sequence of claims, commits, failures and sweeps.
module CacheTheorems {
  import opened Basics
  import opened CacheSpec
  import opened Scans

  function SlotOf(v: CacheRecord): Slot {
    Slot(v.owner, v.logicalKey, v.sourceFingerprint)
  }

  predicate Claimable(slot: Slot) {
    ValidOwner(slot.owner) && slot.logical != "" && slot.source != ""
  }

  ghost predicate RecordInv(s: System, key: string)
    requires key in s.records
  {
    var v := s.records[key];
    && key == MapKey(SlotOf(v)) && Claimable(SlotOf(v))
    && v.id in s.issued
    && (if v.status.CacheGenerating? then v.claimToken in s.issued else v.claimToken == "")
  }

  ghost predicate UniqueTokens(m: Records) {
    forall a, b :: a in m && b in m && m[a].status.CacheGenerating? && m[b].status.CacheGenerating? && m[a].claimToken == m[b].claimToken ==> a == b
  }

  ghost predicate Inv(s: System) {
    && "" !in s.issued
    && (forall key :: key in s.records ==> RecordInv(s, key))
    && UniqueIDs(s.records)
    && UniqueTokens(s.records)
  }

  // ---- Slots ----

  // A slot has its map key to itself exactly when neither of its parts holds a colon,
  // which is so for the digests the review workflow passes.
  lemma MapKeyOwnExactly(slot: Slot)
    ensures (forall b: Slot :: MapKey(b) == MapKey(slot) ==> b == slot) <==> ':' !in slot.logical && ':' !in slot.source
  {
    if ':' in slot.logical {
      var k :| 0 <= k < |slot.logical| && slot.logical[k] == ':';
      OtherCut(slot, k);
    } else if ':' in slot.source {
      var k :| 0 <= k < |slot.source| && slot.source[k] == ':';
      OtherCut(slot, |slot.logical| + 1 + k);
    } else {
      forall b: Slot | MapKey(b) == MapKey(slot)
        ensures b == slot
      {
        CutAt(slot, b);
      }
    }
  }

  // The parts of a slot as the map key joins them.
  function Joined(slot: Slot): string {
    slot.logical + ":" + slot.source
  }

  // The slot that the same joined parts give when cut at another colon.
  function Recut(slot: Slot, k: nat): Slot
    requires k < |Joined(slot)|
  {
    Slot(slot.owner, Joined(slot)[..k], Joined(slot)[k + 1..])
  }

  lemma OtherCut(slot: Slot, k: nat)
    requires k < |Joined(slot)| && Joined(slot)[k] == ':' && k != |slot.logical|
    ensures Recut(slot, k) != slot && MapKey(Recut(slot, k)) == MapKey(slot)
  {
    var b := Recut(slot, k);
    assert Joined(b) == Joined(slot);
    assert |b.logical| != |slot.logical|;
  }

  // Slots under one map key have one owner and are cuts of the same joined parts.
  lemma CutAt(slot: Slot, b: Slot)
    requires MapKey(b) == MapKey(slot)
    ensures b.owner == slot.owner && |b.logical| < |Joined(slot)| && Joined(slot)[|b.logical|] == ':'
    ensures b == Recut(slot, |b.logical|)
  {
    ColonEnds(Decimal(b.owner.tenantID), Decimal(b.owner.userID) + ":" + Joined(b),
              Decimal(slot.owner.tenantID), Decimal(slot.owner.userID) + ":" + Joined(slot));
    ColonEnds(Decimal(b.owner.userID), Joined(b), Decimal(slot.owner.userID), Joined(slot));
    DecimalInjective(b.owner.tenantID, slot.owner.tenantID);
    DecimalInjective(b.owner.userID, slot.owner.userID);
    assert Joined(b)[|b.logical|] == ':';
    assert Joined(b)[..|b.logical|] == b.logical && Joined(b)[|b.logical| + 1..] == b.source;
  }

  // ---- The invariant ----

  // Replacing one record keeps the invariant when the new one keeps the id, and
  // carries no token or a fresh one.
  lemma ReplaceKeepsInv(s: System, key: string, v: CacheRecord, issued: set<string>)
    requires Inv(s) && s.issued <= issued && "" !in issued
    requires key == MapKey(SlotOf(v)) && Claimable(SlotOf(v))
    requires if key in s.records then v.id == s.records[key].id else v.id in issued - s.issued
    requires if v.status.CacheGenerating? then v.claimToken in issued - s.issued else v.claimToken == ""
    ensures Inv(System(s.records[key := v], issued))
  {
    var t := System(s.records[key := v], issued);
    forall k | k in t.records
      ensures RecordInv(t, k) && (k != key ==> t.records[k].id != v.id)
    {
      if k in s.records {
        assert RecordInv(s, k);
      }
    }
  }

  lemma ClaimKeepsInv(s: System, slot: Slot, now: Time, lease: int, token: string)
    requires Inv(s) && token != "" && token !in s.issued
    ensures Inv(System(Claim(s.records, slot, now, lease, token).0, s.issued + {token}))
  {
    var key := MapKey(slot);
    if key in s.records {
      assert RecordInv(s, key);
    }
    if Claim(s.records, slot, now, lease, token).0 == s.records {
      var t := System(s.records, s.issued + {token});
      forall k | k in t.records
        ensures RecordInv(t, k)
      {
        assert RecordInv(s, k);
      }
    } else {
      ReplaceKeepsInv(s, key, Granted(s.records, slot, now, lease, token), s.issued + {token});
    }
  }

  lemma ResolveKeepsInv(s: System, key: string, v: CacheRecord)
    requires Inv(s) && key in s.records
    requires v.id == s.records[key].id && v.owner == s.records[key].owner && v.logicalKey == s.records[key].logicalKey
    requires v.sourceFingerprint == s.records[key].sourceFingerprint && !v.status.CacheGenerating? && v.claimToken == ""
    ensures Inv(s.(records := s.records[key := v]))
  {
    assert RecordInv(s, key);
    ReplaceKeepsInv(s, key, v, s.issued);
  }

  lemma StepKeepsInv(rules: Rules, s: System, a: Action)
    requires Inv(s)
    ensures Inv(Step(rules, s, a))
  {
    var t := Step(rules, s, a);
    if t != s {
      match a
      case Claiming(slot, now, lease, token) =>
        ClaimKeepsInv(s, slot, now, lease, token);
      case Committing(owner, id, token, result, validUntil, now) =>
        var key := KeyOf(s.records, owner, id).value;
        ResolveKeepsInv(s, key, Committed(s.records[key], result, validUntil, now));
      case Failing(owner, id, token, code, now) =>
        var key := KeyOf(s.records, owner, id).value;
        ResolveKeepsInv(s, key, Failed(rules, s.records[key], code, now));
      case Sweeping(_, _, swept) =>
        forall k | k in t.records
          ensures RecordInv(t, k)
        {
          assert RecordInv(s, k);
        }
    }
  }

  lemma {:induction false} Reachable(rules: Rules, s: System, actions: seq<Action>)
    requires Inv(s)
    ensures Inv(Exec(rules, s, actions))
    decreases |actions|
  {
    if actions != [] {
      var last := |actions| - 1;
      Reachable(rules, s, actions[..last]);
      StepKeepsInv(rules, Exec(rules, s, actions[..last]), actions[last]);
    }
  }

  // ---- Single flight ----

  lemma HeldStays(rules: Rules, s: System, a: Action, key: string)
    requires Inv(s) && key in s.records && s.records[key].status.CacheGenerating?
    requires a.Claiming? ==> a.now < s.records[key].leaseUntil
    requires !Resolves(rules, s, a, s.records[key].claimToken)
    ensures var t := Step(rules, s, a); key in t.records && t.records[key] == s.records[key]
  {
    assert RecordInv(s, key);
  }

  // While a granted claim's lease runs, and unless its own token commits or fails
  // it, nothing any action does touches the record.
  lemma {:induction false} HeldThroughout(rules: Rules, s: System, actions: seq<Action>, key: string)
    requires Inv(s) && key in s.records && s.records[key].status.CacheGenerating?
    requires forall i :: 0 <= i < |actions| ==> actions[i].now < s.records[key].leaseUntil
    requires forall i :: 0 <= i < |actions| ==> !Resolves(rules, Exec(rules, s, actions[..i]), actions[i], s.records[key].claimToken)
    ensures var t := Exec(rules, s, actions); key in t.records && t.records[key] == s.records[key]
    decreases |actions|
  {
    hide Inv, Resolves, Step;
    if actions != [] {
      var last := |actions| - 1;
      var before := actions[..last];
      forall i | 0 <= i < last
        ensures !Resolves(rules, Exec(rules, s, before[..i]), before[i], s.records[key].claimToken)
      {
        assert before[..i] == actions[..i];
      }
      HeldThroughout(rules, s, before, key);
      Reachable(rules, s, before);
      HeldStays(rules, Exec(rules, s, before), actions[last], key);
    }
  }

  // Single flight: after a claim returned Generator, no later claim of the slot at a
  // reading before the lease ends does, unless the holder committed or failed.
  lemma SingleFlight(rules: Rules, s: System, slot: Slot, now: Time, lease: int, token: string,
                     actions: seq<Action>, later: Time, otherLease: int, otherToken: string)
    requires Inv(s) && token != "" && token !in s.issued && otherLease > 0
    requires var r := Claim(s.records, slot, now, lease, token).1; r.Ok? && r.value.generator
    requires forall i :: 0 <= i < |actions| ==> actions[i].now <= later < now + lease
    requires later < now + lease
    requires var t := Step(rules, s, Claiming(slot, now, lease, token));
             forall i :: 0 <= i < |actions| ==> !Resolves(rules, Exec(rules, t, actions[..i]), actions[i], token)
    ensures var end := Exec(rules, Step(rules, s, Claiming(slot, now, lease, token)), actions);
            var r := Claim(end.records, slot, later, otherLease, otherToken).1;
            && r.Ok? && !r.value.generator && r.value.record.claimToken == token
  {
    hide Inv, Resolves, Exec, MapKey;
    ClaimKeepsInv(s, slot, now, lease, token);
    GrantedHeld(rules, s, slot, now, lease, token);
    HeldThroughout(rules, Step(rules, s, Claiming(slot, now, lease, token)), actions, MapKey(slot));
  }

  lemma GrantedHeld(rules: Rules, s: System, slot: Slot, now: Time, lease: int, token: string)
    requires token != "" && token !in s.issued
    requires var r := Claim(s.records, slot, now, lease, token).1; r.Ok? && r.value.generator
    ensures var t := Step(rules, s, Claiming(slot, now, lease, token));
            && MapKey(slot) in t.records && Holds(t.records[MapKey(slot)], token) && t.records[MapKey(slot)].leaseUntil == now + lease
  {
    hide MapKey;
  }

  // ---- Tokens ----

  ghost predicate Current(m: Records, token: string) {
    exists key :: key in m && Holds(m[key], token)
  }

  // A commit or failure is accepted only by the token now current, and spends it.
  lemma ResolvesSpends(rules: Rules, s: System, a: Action, token: string)
    requires Inv(s) && Resolves(rules, s, a, token)
    ensures Current(s.records, token) && !Current(Step(rules, s, a).records, token)
    ensures token in s.issued && token in Step(rules, s, a).issued
  {
    var key := KeyOf(s.records, a.owner, a.id).value;
    assert RecordInv(s, key);
    assert Holds(s.records[key], token);
    var t := Step(rules, s, a);
    forall k | k in t.records
      ensures !Holds(t.records[k], token)
    {
      assert RecordInv(s, k);
    }
  }

  lemma StaysSpent(rules: Rules, s: System, a: Action, token: string)
    requires Inv(s) && token in s.issued && !Current(s.records, token)
    ensures token in Step(rules, s, a).issued && !Current(Step(rules, s, a).records, token)
  {
    var t := Step(rules, s, a);
    forall k | k in t.records
      ensures !Holds(t.records[k], token)
    {
      if k in s.records {
        assert !Holds(s.records[k], token);
      }
    }
  }

  lemma {:induction false} NeverAgain(rules: Rules, s: System, actions: seq<Action>, token: string)
    requires Inv(s) && token in s.issued && !Current(s.records, token)
    ensures !Current(Exec(rules, s, actions).records, token) && token in Exec(rules, s, actions).issued
    decreases |actions|
  {
    if actions != [] {
      var last := |actions| - 1;
      NeverAgain(rules, s, actions[..last], token);
      Reachable(rules, s, actions[..last]);
      StaysSpent(rules, Exec(rules, s, actions[..last]), actions[last], token);
    }
  }

  lemma {:induction false} ExecAppend(rules: Rules, s: System, a: seq<Action>, b: seq<Action>)
    ensures Exec(rules, s, a + b) == Exec(rules, Exec(rules, s, a), b)
    decreases |b|
  {
    if b == [] {
      assert a + b == a;
    } else {
      var last := |b| - 1;
      assert (a + b)[..|a + b| - 1] == a + b[..last];
      ExecAppend(rules, s, a, b[..last]);
    }
  }

  lemma InitInv()
    ensures Inv(INIT)
  {
  }

  // Of each token at most one commit or failure is ever accepted.
  lemma AcceptedOnce(rules: Rules, actions: seq<Action>, i: nat, j: nat, token: string)
    requires i < j < |actions|
    requires Resolves(rules, Exec(rules, INIT, actions[..i]), actions[i], token)
    ensures !Resolves(rules, Exec(rules, INIT, actions[..j]), actions[j], token)
  {
    hide Inv, Resolves, Current, Step;
    var s, t := Exec(rules, INIT, actions[..i]), Exec(rules, INIT, actions[..i + 1]);
    assert Inv(INIT) by { InitInv(); }
    assert actions[..i + 1][..i] == actions[..i];
    Reachable(rules, INIT, actions[..i]);
    ResolvesSpends(rules, s, actions[i], token);
    StepKeepsInv(rules, s, actions[i]);
    assert t == Step(rules, s, actions[i]);
    assert actions[..j] == actions[..i + 1] + actions[i + 1..j];
    ExecAppend(rules, INIT, actions[..i + 1], actions[i + 1..j]);
    NeverAgain(rules, t, actions[i + 1..j], token);
    if Resolves(rules, Exec(rules, INIT, actions[..j]), actions[j], token) {
      Reachable(rules, INIT, actions[..j]);
      ResolvesSpends(rules, Exec(rules, INIT, actions[..j]), actions[j], token);
    }
  }

  // A takeover makes the earlier token worthless for good: whatever follows, neither
  // its commit nor its failure is accepted.
  lemma TakeoverFences(rules: Rules, s: System, slot: Slot, now: Time, lease: int, token: string, actions: seq<Action>, a: Action)
    requires Inv(s) && token != "" && token !in s.issued
    requires MapKey(slot) in s.records && s.records[MapKey(slot)].status.CacheGenerating?
    requires var r := Claim(s.records, slot, now, lease, token).1; r.Ok? && r.value.generator
    ensures !Resolves(rules, Exec(rules, Step(rules, s, Claiming(slot, now, lease, token)), actions), a,
                      s.records[MapKey(slot)].claimToken)
  {
    var key := MapKey(slot);
    var earlier := s.records[key].claimToken;
    assert RecordInv(s, key);
    var t := Step(rules, s, Claiming(slot, now, lease, token));
    ClaimKeepsInv(s, slot, now, lease, token);
    forall k | k in t.records
      ensures !Holds(t.records[k], earlier)
    {
      if k != key {
        assert RecordInv(s, k);
      }
    }
    NeverAgain(rules, t, actions, earlier);
    Reachable(rules, t, actions);
    if Resolves(rules, Exec(rules, t, actions), a, earlier) {
      ResolvesSpends(rules, Exec(rules, t, actions), a, earlier);
    }
  }

  // ---- What a lookup returns ----

  // The action that put the record of a slot in its ready state: a commit by the
  // token then current, no later than the end of its lease.
  ghost predicate CommittedBy(rules: Rules, s: System, a: Action, key: string, v: CacheRecord) {
    && a.Committing?
    && key in s.records
    && Holds(s.records[key], a.token) && a.now <= s.records[key].leaseUntil
    && rules.accepts(a.result, MAX_RESULT_BYTES)
    && v == Committed(s.records[key], a.result, a.validUntil, a.now)
  }

  lemma ReadyAfterStep(rules: Rules, s: System, a: Action, key: string)
    requires var t := Step(rules, s, a); key in t.records && t.records[key].status.CacheReady?
    ensures || (key in s.records && s.records[key] == Step(rules, s, a).records[key])
            || CommittedBy(rules, s, a, key, Step(rules, s, a).records[key])
  {
  }

  lemma {:induction false} ReadyWasCommitted(rules: Rules, actions: seq<Action>, key: string) returns (i: nat)
    requires var t := Exec(rules, INIT, actions); key in t.records && t.records[key].status.CacheReady?
    ensures i < |actions|
    ensures CommittedBy(rules, Exec(rules, INIT, actions[..i]), actions[i], key, Exec(rules, INIT, actions).records[key])
    decreases |actions|
  {
    var last := |actions| - 1;
    var s := Exec(rules, INIT, actions[..last]);
    ReadyAfterStep(rules, s, actions[last], key);
    if CommittedBy(rules, s, actions[last], key, Exec(rules, INIT, actions).records[key]) {
      i := last;
    } else {
      i := ReadyWasCommitted(rules, actions[..last], key);
      assert actions[..last][..i] == actions[..i];
    }
  }

  // Every result a lookup returns is unexpired and was committed for its slot by the
  // token that was current, no later than the end of that token's lease.
  lemma LookupWasCommitted(rules: Rules, actions: seq<Action>, slot: Slot, now: Time) returns (i: nat)
    requires Lookup(Exec(rules, INIT, actions).records, slot, now).Ok?
    ensures var v := Lookup(Exec(rules, INIT, actions).records, slot, now).value;
            && i < |actions|
            && v.owner == slot.owner
            && CommittedBy(rules, Exec(rules, INIT, actions[..i]), actions[i], MapKey(slot), v)
            && v.result == actions[i].result
            && now < v.validUntil == actions[i].validUntil
  {
    i := ReadyWasCommitted(rules, actions, MapKey(slot));
  }

  // The record a slot's key leads to, if any, is the slot's own.
  ghost predicate FindsOwn(rules: Rules, actions: seq<Action>, slot: Slot) {
    var m := Exec(rules, INIT, actions).records;
    MapKey(slot) in m ==> SlotOf(m[MapKey(slot)]) == slot
  }

  // No colon at which the joined parts could be cut into two other parts, neither of
  // them empty.
  predicate OneCut(slot: Slot) {
    && (forall k :: 0 < k < |slot.logical| ==> slot.logical[k] != ':')
    && (forall k :: 0 <= k < |slot.source| - 1 ==> slot.source[k] != ':')
  }

  // In no reachable state does a lookup meet another owner's record, so the owner test
  // of Lookup is redundant.
  lemma LookupMeetsOwner(rules: Rules, actions: seq<Action>, slot: Slot)
    requires MapKey(slot) in Exec(rules, INIT, actions).records
    ensures Exec(rules, INIT, actions).records[MapKey(slot)].owner == slot.owner
  {
    hide UniqueIDs, UniqueTokens, Exec, MapKey;
    var s := Exec(rules, INIT, actions);
    InitInv();
    Reachable(rules, INIT, actions);
    assert RecordInv(s, MapKey(slot));
    CutAt(slot, SlotOf(s.records[MapKey(slot)]));
  }

  // A slot of a valid owner never meets another slot's record, in any history, exactly
  // when its parts can be cut in one way only. Claims with an empty part being refused,
  // a colon at either end does no harm.
  lemma LookupFindsOwnExactly(rules: Rules, slot: Slot)
    requires ValidOwner(slot.owner)
    ensures (forall actions :: FindsOwn(rules, actions, slot)) <==> OneCut(slot)
  {
    if OneCut(slot) {
      forall actions
        ensures FindsOwn(rules, actions, slot)
      {
        OneCutFindsOwn(rules, actions, slot);
      }
    } else {
      var k := InnerCut(slot);
      OtherCut(slot, k);
      var actions := MeetsOther(rules, slot, Recut(slot, k));
      assert !FindsOwn(rules, actions, slot);
    }
  }

  lemma OneCutFindsOwn(rules: Rules, actions: seq<Action>, slot: Slot)
    requires OneCut(slot)
    ensures FindsOwn(rules, actions, slot)
  {
    hide UniqueIDs, UniqueTokens, Exec, MapKey;
    var s := Exec(rules, INIT, actions);
    if MapKey(slot) in s.records {
      InitInv();
      Reachable(rules, INIT, actions);
      assert RecordInv(s, MapKey(slot));
      var b := SlotOf(s.records[MapKey(slot)]);
      CutAt(slot, b);
      assert |b.logical| == |slot.logical|;
    }
  }

  lemma InnerCut(slot: Slot) returns (k: nat)
    requires !OneCut(slot)
    ensures 0 < k < |Joined(slot)| - 1 && Joined(slot)[k] == ':' && k != |slot.logical|
  {
    if i :| 0 < i < |slot.logical| && slot.logical[i] == ':' {
      k := i;
    } else {
      var i :| 0 <= i < |slot.source| - 1 && slot.source[i] == ':';
      k := |slot.logical| + 1 + i;
    }
  }

  lemma MeetsOther(rules: Rules, slot: Slot, b: Slot) returns (actions: seq<Action>)
    requires Claimable(b) && b != slot && MapKey(b) == MapKey(slot)
    ensures !FindsOwn(rules, actions, slot)
  {
    hide MapKey;
    actions := [Claiming(b, 0, 1, "token")];
    assert actions[..0] == [];
    assert Exec(rules, INIT, actions) == Step(rules, Exec(rules, INIT, []), actions[0]);
  }

  // ---- Sweeps ----

  // Right after a sweep every lookup, and every claim's answer to whether the caller
  // must generate, is what it would have been. CacheSweeps follows whole histories.
  lemma SweepUnobservable(m: Records, now: Time, limit: int, swept: set<string>, slot: Slot, later: Time, lease: int, token: string)
    requires IsSweep(m, now, limit, swept) && now <= later
    ensures Lookup(m - swept, slot, later) == Lookup(m, slot, later)
    ensures var a, b := Claim(m - swept, slot, later, lease, token).1, Claim(m, slot, later, lease, token).1;
            a.Ok? == b.Ok? && (a.Ok? ==> a.value.generator == b.value.generator && (!a.value.generator ==> a == b))
    ensures forall key :: key in m && (m[key].status.CacheGenerating? || now < m[key].validUntil) ==> key in m - swept
  {
  }
}
