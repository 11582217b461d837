// What callers can tell of sweeps: nothing. A history of calls is answered as the same
// history without its sweeps.
module CacheSweeps {
  import opened Basics
  import opened CacheSpec
  import opened CacheTheorems

  // ---- Callers ----

  // A holder resolves its claim by the owner and id its claim returned, which it keeps
  // with the token.
  datatype Ticket = Ticket(owner: Owner, id: string)

  datatype World = World(system: System, tickets: map<string, Ticket>)

  const START := World(INIT, map[])

  datatype Call =
    | LookUp(slot: Slot, now: Time)
    | TakeClaim(slot: Slot, now: Time, lease: int, token: string)
    | Deliver(token: string, result: CachedResult, validUntil: Time, now: Time)
    | GiveUp(token: string, code: string, now: Time)
    | Sweep(now: Time, limit: int, swept: set<string>)

  datatype Answer = Missing | Found(record: CacheRecord) | Granted(record: CacheRecord) | Done | Refused

  // A record without what a takeover inherits from the record before: id, slot, creation
  // time and error code, and while it is being generated the old result and validity.
  function Shown(v: CacheRecord): CacheRecord {
    var w := v.(id := "", logicalKey := "", sourceFingerprint := "", createdAt := ZERO_TIME, errorCode := "");
    if v.status.CacheGenerating? then w.(result := NO_RESULT, validUntil := ZERO_TIME) else w
  }

  ghost function ActionOf(w: World, c: Call): Option<Action> {
    match c
    case LookUp(_, _) => None
    case TakeClaim(slot, now, lease, token) => Some(Claiming(slot, now, lease, token))
    case Deliver(token, result, validUntil, now) =>
      if token in w.tickets then Some(Committing(w.tickets[token].owner, w.tickets[token].id, token, result, validUntil, now)) else None
    case GiveUp(token, code, now) =>
      if token in w.tickets then Some(Failing(w.tickets[token].owner, w.tickets[token].id, token, code, now)) else None
    case Sweep(now, limit, swept) => Some(Sweeping(now, limit, swept))
  }

  ghost predicate Accepted(rules: Rules, w: World, c: Call)
    requires c.Deliver? || c.GiveUp?
  {
    ActionOf(w, c).Some? && Resolves(rules, w.system, ActionOf(w, c).value, c.token)
  }

  function Told(r: Outcome<Claimed>): Answer {
    if r.Err? then Refused else if r.value.generator then Granted(Shown(r.value.record)) else Found(Shown(r.value.record))
  }

  ghost function AnswerTo(rules: Rules, w: World, c: Call): Answer {
    match c
    case LookUp(slot, now) =>
      var r := Lookup(w.system.records, slot, now);
      if r.Ok? then Found(Shown(r.value)) else Missing
    case TakeClaim(slot, now, lease, token) => Told(Claim(w.system.records, slot, now, lease, token).1)
    case Sweep(_, _, _) => Done
    case Deliver(token, result, validUntil, now) =>
      if !Accepted(rules, w, c) then Refused
      else Found(Shown(CommitReady(rules, w.system.records, w.tickets[token].owner, w.tickets[token].id, token, result, validUntil, now).1.value))
    case GiveUp(_, _, _) => if Accepted(rules, w, c) then Done else Refused
  }

  ghost function After(rules: Rules, w: World, c: Call): World {
    var action := ActionOf(w, c);
    if action.None? then w
    else
      var t := Step(rules, w.system, action.value);
      if c.TakeClaim? && Enabled(w.system, action.value) && AnswerTo(rules, w, c).Granted? then
        var v := t.records[MapKey(c.slot)];
        World(t, w.tickets[c.token := Ticket(v.owner, v.id)])
      else World(t, w.tickets)
  }

  // The answers a history's callers get; a sweep answers nobody.
  ghost function Answers(rules: Rules, w: World, calls: seq<Call>): seq<Answer>
    decreases |calls|
  {
    if calls == [] then []
    else (if calls[0].Sweep? then [] else [AnswerTo(rules, w, calls[0])]) + Answers(rules, After(rules, w, calls[0]), calls[1..])
  }

  function Unswept(calls: seq<Call>): seq<Call> {
    if calls == [] then []
    else (if calls[0].Sweep? then [] else [calls[0]]) + Unswept(calls[1..])
  }

  // Nobody reads a clock behind that of an earlier sweep.
  predicate Onward(calls: seq<Call>) {
    forall i, j :: 0 <= i < j < |calls| && calls[i].Sweep? ==> calls[i].now <= calls[j].now
  }

  // ---- Two worlds that answer alike from a time on ----

  function Live(m: Records, key: string, from: Time): Option<CacheRecord> {
    if key in m && (m[key].status.CacheGenerating? || Fresh(m[key], from)) then Some(Shown(m[key])) else None
  }

  ghost predicate Ticketed(w: World, key: string)
    requires key in w.system.records
  {
    var v := w.system.records[key];
    v.status.CacheGenerating? ==> v.claimToken in w.tickets && w.tickets[v.claimToken] == Ticket(v.owner, v.id)
  }

  ghost predicate WorldInv(w: World) {
    && Inv(w.system)
    && (forall key :: key in w.system.records ==> Ticketed(w, key))
    && w.tickets.Keys <= w.system.issued
  }

  ghost predicate Alike(a: World, b: World, from: Time) {
    && a.system.issued == b.system.issued && a.tickets.Keys == b.tickets.Keys
    && forall key :: Live(a.system.records, key, from) == Live(b.system.records, key, from)
  }

  lemma LiveLater(a: Records, b: Records, key: string, from: Time, later: Time)
    requires Live(a, key, from) == Live(b, key, from) && from <= later
    ensures Live(a, key, later) == Live(b, key, later)
  {
  }

  lemma AfterKeepsInv(rules: Rules, w: World, c: Call)
    requires WorldInv(w)
    ensures WorldInv(After(rules, w, c))
  {
    hide Inv, Step, Claim, MapKey, RecordInv, Resolves;
    if ActionOf(w, c).Some? {
      StepKeepsInv(rules, w.system, ActionOf(w, c).value);
      var t := After(rules, w, c);
      if c.TakeClaim? {
        ClaimTickets(rules, w, c);
      } else {
        StaysTicketed(rules, w, c);
      }
    }
  }

  lemma ClaimTickets(rules: Rules, w: World, c: Call)
    requires c.TakeClaim? && w.tickets.Keys <= w.system.issued && forall key :: key in w.system.records ==> Ticketed(w, key)
    ensures var t := After(rules, w, c);
            t.tickets.Keys <= t.system.issued && forall key :: key in t.system.records ==> Ticketed(t, key)
  {
    hide MapKey, Inv;
    var t := After(rules, w, c);
    forall key | key in t.system.records
      ensures Ticketed(t, key)
    {
      if key in w.system.records {
        assert Ticketed(w, key);
      }
    }
  }

  // Only a claim starts a generation, and tickets are not taken back.
  lemma StaysTicketed(rules: Rules, w: World, c: Call)
    requires !c.TakeClaim? && ActionOf(w, c).Some? && forall key :: key in w.system.records ==> Ticketed(w, key)
    ensures After(rules, w, c).system.issued == w.system.issued && After(rules, w, c).tickets == w.tickets
    ensures forall key :: key in After(rules, w, c).system.records ==> Ticketed(After(rules, w, c), key)
  {
    hide MapKey, Inv;
    var t := After(rules, w, c);
    forall key | key in t.system.records
      ensures Ticketed(t, key)
    {
      assert key in w.system.records && Ticketed(w, key);
    }
  }

  lemma SweepLooksAlike(rules: Rules, a: World, b: World, c: Call, from: Time)
    requires Alike(a, b, from) && c.Sweep? && from <= c.now
    ensures Alike(After(rules, a, c), b, c.now)
  {
    var t := After(rules, a, c);
    forall key
      ensures Live(t.system.records, key, c.now) == Live(b.system.records, key, c.now)
    {
      LiveLater(a.system.records, b.system.records, key, from, c.now);
    }
  }

  lemma KeyedOwner(s: System, slot: Slot)
    requires Inv(s) && MapKey(slot) in s.records
    ensures s.records[MapKey(slot)].owner == slot.owner
  {
    hide MapKey;
    assert RecordInv(s, MapKey(slot));
    CutAt(slot, SlotOf(s.records[MapKey(slot)]));
  }

  // What a claim answers, and what it leaves at its key, depends on what is live.
  lemma ClaimAlike(a: Records, b: Records, slot: Slot, now: Time, lease: int, token: string, from: Time)
    requires Live(a, MapKey(slot), from) == Live(b, MapKey(slot), from) && from <= now
    requires MapKey(slot) in a ==> a[MapKey(slot)].owner == slot.owner
    requires MapKey(slot) in b ==> b[MapKey(slot)].owner == slot.owner
    ensures var (s, ra) := Claim(a, slot, now, lease, token);
            var (t, rb) := Claim(b, slot, now, lease, token);
            Told(ra) == Told(rb) && Live(s, MapKey(slot), from) == Live(t, MapKey(slot), from)
  {
    hide MapKey;
  }

  lemma ClaimsAlike(rules: Rules, a: World, b: World, c: Call, from: Time)
    requires WorldInv(a) && WorldInv(b) && Alike(a, b, from) && c.TakeClaim? && from <= c.now
    ensures AnswerTo(rules, a, c) == AnswerTo(rules, b, c)
    ensures Alike(After(rules, a, c), After(rules, b, c), from)
  {
    hide MapKey, Inv, Live, Told, Shown, Fresh, Leased, Ticketed;
    var key := MapKey(c.slot);
    if key in a.system.records {
      KeyedOwner(a.system, c.slot);
    }
    if key in b.system.records {
      KeyedOwner(b.system, c.slot);
    }
    assert Live(a.system.records, key, from) == Live(b.system.records, key, from);
    ClaimAlike(a.system.records, b.system.records, c.slot, c.now, c.lease, c.token, from);
    ClaimElsewhere(rules, a, c, from);
    ClaimElsewhere(rules, b, c, from);
  }

  lemma ClaimElsewhere(rules: Rules, w: World, c: Call, from: Time)
    requires c.TakeClaim?
    ensures forall key :: key != MapKey(c.slot) ==>
              Live(After(rules, w, c).system.records, key, from) == Live(w.system.records, key, from)
  {
    hide MapKey;
  }

  // The record a token resolves is that of its ticket, under the same key in both
  // worlds.
  lemma ResolvedKey(rules: Rules, a: World, b: World, c: Call, from: Time) returns (key: string)
    requires WorldInv(a) && WorldInv(b) && Alike(a, b, from) && (c.Deliver? || c.GiveUp?)
    requires Accepted(rules, a, c)
    ensures Accepted(rules, b, c)
    ensures KeyOf(a.system.records, a.tickets[c.token].owner, a.tickets[c.token].id) == Some(key)
    ensures KeyOf(b.system.records, b.tickets[c.token].owner, b.tickets[c.token].id) == Some(key)
  {
    key := KeyOf(a.system.records, a.tickets[c.token].owner, a.tickets[c.token].id).value;
    assert Live(a.system.records, key, from) == Live(b.system.records, key, from);
    assert Ticketed(b, key);
    assert Names(b.system.records, key, b.tickets[c.token].owner, b.tickets[c.token].id);
  }

  // A resolved record reads alike wherever it did before.
  lemma ResolvedLive(rules: Rules, a: World, b: World, c: Call, from: Time, key: string)
    requires Alike(a, b, from) && (c.Deliver? || c.GiveUp?) && Accepted(rules, a, c) && Accepted(rules, b, c)
    requires KeyOf(a.system.records, a.tickets[c.token].owner, a.tickets[c.token].id) == Some(key)
    requires KeyOf(b.system.records, b.tickets[c.token].owner, b.tickets[c.token].id) == Some(key)
    ensures AnswerTo(rules, a, c) == AnswerTo(rules, b, c)
    ensures Alike(After(rules, a, c), After(rules, b, c), from)
  {
    var s, t := After(rules, a, c), After(rules, b, c);
    assert Live(a.system.records, key, from) == Live(b.system.records, key, from);
    forall k
      ensures Live(s.system.records, k, from) == Live(t.system.records, k, from)
    {
      assert Live(a.system.records, k, from) == Live(b.system.records, k, from);
    }
  }

  lemma Unresolved(rules: Rules, w: World, c: Call)
    requires (c.Deliver? || c.GiveUp?) && !Accepted(rules, w, c)
    ensures After(rules, w, c) == w
  {
  }

  lemma ResolvedAlike(rules: Rules, a: World, b: World, c: Call, from: Time)
    requires WorldInv(a) && WorldInv(b) && Alike(a, b, from) && (c.Deliver? || c.GiveUp?)
    ensures AnswerTo(rules, a, c) == AnswerTo(rules, b, c)
    ensures Alike(After(rules, a, c), After(rules, b, c), from)
  {
    hide WorldInv, Accepted, After, CommitReady;
    if Accepted(rules, a, c) {
      var key := ResolvedKey(rules, a, b, c, from);
      ResolvedLive(rules, a, b, c, from, key);
    } else if Accepted(rules, b, c) {
      var _ := ResolvedKey(rules, b, a, c, from);
    } else {
      Unresolved(rules, a, c);
      Unresolved(rules, b, c);
    }
  }

  lemma CallAlike(rules: Rules, a: World, b: World, c: Call, from: Time)
    requires WorldInv(a) && WorldInv(b) && Alike(a, b, from) && from <= c.now && !c.Sweep?
    ensures AnswerTo(rules, a, c) == AnswerTo(rules, b, c)
    ensures Alike(After(rules, a, c), After(rules, b, c), from)
  {
    hide WorldInv, Alike, Resolves, Step, Claim;
    match c
    case LookUp(slot, now) => LookupsAlike(rules, a, b, c, from);
    case TakeClaim(_, _, _, _) => ClaimsAlike(rules, a, b, c, from);
    case _ => ResolvedAlike(rules, a, b, c, from);
  }

  lemma LookupsAlike(rules: Rules, a: World, b: World, c: Call, from: Time)
    requires Alike(a, b, from) && from <= c.now && c.LookUp?
    ensures AnswerTo(rules, a, c) == AnswerTo(rules, b, c)
    ensures Alike(After(rules, a, c), After(rules, b, c), from)
  {
    hide MapKey;
    LiveLater(a.system.records, b.system.records, MapKey(c.slot), from, c.now);
  }

  lemma {:induction false} AnswersAlike(rules: Rules, a: World, b: World, calls: seq<Call>, from: Time)
    requires WorldInv(a) && WorldInv(b) && Alike(a, b, from)
    requires Onward(calls) && forall i :: 0 <= i < |calls| ==> from <= calls[i].now
    ensures Answers(rules, a, calls) == Answers(rules, b, Unswept(calls))
    decreases |calls|
  {
    hide WorldInv, Alike, AnswerTo, After;
    if calls != [] {
      var c, rest := calls[0], calls[1..];
      AfterKeepsInv(rules, a, c);
      assert forall i :: 0 <= i < |rest| ==> rest[i] == calls[i + 1];
      if c.Sweep? {
        SweepLooksAlike(rules, a, b, c, from);
        AnswersAlike(rules, After(rules, a, c), b, rest, c.now);
        assert Unswept(calls) == Unswept(rest);
      } else {
        CallAlike(rules, a, b, c, from);
        AfterKeepsInv(rules, b, c);
        AnswersAlike(rules, After(rules, a, c), After(rules, b, c), rest, from);
        assert Unswept(calls) == [c] + Unswept(rest);
        assert Unswept(calls)[0] == c && Unswept(calls)[1..] == Unswept(rest);
      }
    }
  }

  // Whatever is looked up, claimed, committed and failed, the answers are those of the
  // same history without its sweeps.
  lemma SweepsUnobservable(rules: Rules, calls: seq<Call>)
    requires Onward(calls)
    ensures Answers(rules, START, calls) == Answers(rules, START, Unswept(calls))
  {
    if calls != [] {
      var from := Earliest(calls);
      AnswersAlike(rules, START, START, calls, from);
    }
  }

  lemma {:induction false} Earliest(calls: seq<Call>) returns (from: Time)
    ensures forall i :: 0 <= i < |calls| ==> from <= calls[i].now
    decreases |calls|
  {
    if calls == [] {
      from := ZERO_TIME;
    } else {
      from := Earliest(calls[1..]);
      if calls[0].now < from {
        from := calls[0].now;
      }
    }
  }
}
