// The daily-review cache: one record per slot, generated by whoever holds its claim.
// A refused operation changes nothing.
module CacheSpec {
  import opened Basics
  import opened Scans

  const MAX_RESULT_BYTES := 128 * 1024

  datatype Owner = Owner(tenantID: nat, userID: nat)

  predicate ValidOwner(o: Owner) {
    o.tenantID != 0 && o.userID != 0
  }

  datatype CacheStatus = CacheGenerating | CacheReady | CacheFailed

  datatype CachedResult = CachedResult(structured: string, rendered: string, evidenceHash: string, contentHash: string)

  const NO_RESULT := CachedResult("", "", "", "")

  datatype CacheRecord = CacheRecord(
    id: string,
    owner: Owner,
    logicalKey: string,
    sourceFingerprint: string,
    status: CacheStatus,
    claimToken: string,
    leaseUntil: Time,
    validUntil: Time,
    result: CachedResult,
    errorCode: string,
    createdAt: Time,
    updatedAt: Time)

  datatype CacheError = InvalidInvocation | OutputLimit | CacheNotFound | ClaimLost

  datatype Outcome<+T> = Ok(value: T) | Err(error: CacheError)

  // JSON validity, the content hash and the trimming of error codes.
  datatype Rules = Rules(accepts: (CachedResult, nat) -> bool, bounded: string -> string)

  datatype Slot = Slot(owner: Owner, logical: string, source: string)

  function MapKey(s: Slot): string {
    Decimal(s.owner.tenantID) + ":" + (Decimal(s.owner.userID) + ":" + (s.logical + ":" + s.source))
  }

  type Records = map<string, CacheRecord>

  datatype Claimed = Claimed(record: CacheRecord, generator: bool)

  function Lookup(m: Records, slot: Slot, now: Time): Outcome<CacheRecord> {
    var key := MapKey(slot);
    if key !in m || m[key].owner != slot.owner || !m[key].status.CacheReady? || now >= m[key].validUntil then Err(CacheNotFound)
    else Ok(m[key])
  }

  predicate Fresh(v: CacheRecord, now: Time) {
    v.status.CacheReady? && now < v.validUntil
  }

  predicate Leased(v: CacheRecord, now: Time) {
    v.status.CacheGenerating? && now < v.leaseUntil
  }

  // The record a granted claim leaves: a new one, or the old one taken over with
  // its id, result and validity.
  function Granted(m: Records, slot: Slot, now: Time, lease: int, token: string): CacheRecord {
    var key := MapKey(slot);
    var v := if key in m then m[key]
             else CacheRecord(token, slot.owner, slot.logical, slot.source, CacheGenerating, "", ZERO_TIME, ZERO_TIME, NO_RESULT, "", now, now);
    v.(status := CacheGenerating, claimToken := token, leaseUntil := now + lease, updatedAt := now)
  }

  function Claim(m: Records, slot: Slot, now: Time, lease: int, token: string): (Records, Outcome<Claimed>) {
    var key := MapKey(slot);
    if !ValidOwner(slot.owner) || slot.logical == "" || slot.source == "" || lease <= 0 then (m, Err(InvalidInvocation))
    else if key in m && (Fresh(m[key], now) || Leased(m[key], now)) then (m, Ok(Claimed(m[key], false)))
    else
      var v := Granted(m, slot, now, lease, token);
      (m[key := v], Ok(Claimed(v, true)))
  }

  // CommitReady and FailClaim find the record by its id and owner.
  predicate Names(m: Records, key: string, owner: Owner, id: string) {
    key in m && m[key].id == id && m[key].owner == owner
  }

  ghost predicate UniqueIDs(m: Records) {
    forall a, b :: a in m && b in m && m[a].id == m[b].id ==> a == b
  }

  ghost function KeyOf(m: Records, owner: Owner, id: string): (r: Option<string>)
    ensures r.Some? ==> Names(m, r.value, owner, id)
    ensures r.None? ==> forall key :: !Names(m, key, owner, id)
  {
    if exists key :: Names(m, key, owner, id) then
      var key :| Names(m, key, owner, id);
      Some(key)
    else None
  }

  function Committed(v: CacheRecord, result: CachedResult, validUntil: Time, now: Time): CacheRecord {
    v.(status := CacheReady, result := result, validUntil := validUntil, claimToken := "", updatedAt := now)
  }

  function Failed(rules: Rules, v: CacheRecord, code: string, now: Time): CacheRecord {
    v.(status := CacheFailed, errorCode := rules.bounded(code), claimToken := "", updatedAt := now)
  }

  predicate Holds(v: CacheRecord, token: string) {
    v.status.CacheGenerating? && v.claimToken == token
  }

  ghost function CommitReady(rules: Rules, m: Records, owner: Owner, id: string, token: string, result: CachedResult,
                             validUntil: Time, now: Time): (Records, Outcome<CacheRecord>)
  {
    var key := KeyOf(m, owner, id);
    if !rules.accepts(result, MAX_RESULT_BYTES) then (m, Err(OutputLimit))
    else if key.None? then (m, Err(CacheNotFound))
    else if !Holds(m[key.value], token) || now > m[key.value].leaseUntil then (m, Err(ClaimLost))
    else
      var v := Committed(m[key.value], result, validUntil, now);
      (m[key.value := v], Ok(v))
  }

  ghost function FailClaim(rules: Rules, m: Records, owner: Owner, id: string, token: string, code: string,
                           now: Time): (Records, Option<CacheError>)
  {
    var key := KeyOf(m, owner, id);
    if key.None? then (m, Some(CacheNotFound))
    else if !Holds(m[key.value], token) then (m, Some(ClaimLost))
    else (m[key.value := Failed(rules, m[key.value], code, now)], None)
  }

  predicate Expired(v: CacheRecord, now: Time) {
    !v.status.CacheGenerating? && now >= v.validUntil && now >= v.leaseUntil
  }

  function ExpiredKeys(m: Records, now: Time): set<string> {
    set key | key in m && Expired(m[key], now)
  }

  // A sweep removes expired records: all of them, or as many as its limit allows.
  ghost predicate IsSweep(m: Records, now: Time, limit: int, swept: set<string>) {
    Chosen(ExpiredKeys(m, now), swept, limit)
  }

  // ---- Runs ----

  datatype Action =
    | Claiming(slot: Slot, now: Time, lease: int, token: string)
    | Committing(owner: Owner, id: string, token: string, result: CachedResult, validUntil: Time, now: Time)
    | Failing(owner: Owner, id: string, token: string, code: string, now: Time)
    | Sweeping(now: Time, limit: int, swept: set<string>)

  // `issued` are the tokens ever drawn: random, so never drawn twice.
  datatype System = System(records: Records, issued: set<string>)

  const INIT := System(map[], {})

  ghost predicate Enabled(s: System, a: Action) {
    match a
    case Claiming(_, _, _, token) => token != "" && token !in s.issued
    case Sweeping(now, limit, swept) => IsSweep(s.records, now, limit, swept)
    case _ => true
  }

  ghost function Step(rules: Rules, s: System, a: Action): System {
    if !Enabled(s, a) then s
    else
      match a
      case Claiming(slot, now, lease, token) =>
        System(Claim(s.records, slot, now, lease, token).0, s.issued + {token})
      case Committing(owner, id, token, result, validUntil, now) =>
        s.(records := CommitReady(rules, s.records, owner, id, token, result, validUntil, now).0)
      case Failing(owner, id, token, code, now) =>
        s.(records := FailClaim(rules, s.records, owner, id, token, code, now).0)
      case Sweeping(_, _, swept) => s.(records := s.records - swept)
  }

  ghost function Exec(rules: Rules, s: System, actions: seq<Action>): System
    decreases |actions|
  {
    if actions == [] then s
    else
      var last := |actions| - 1;
      Step(rules, Exec(rules, s, actions[..last]), actions[last])
  }

  // The commit or failure is accepted, by virtue of this token.
  ghost predicate Resolves(rules: Rules, s: System, a: Action, token: string) {
    match a
    case Committing(owner, id, t, result, validUntil, now) =>
      t == token && CommitReady(rules, s.records, owner, id, t, result, validUntil, now).1.Ok?
    case Failing(owner, id, t, code, now) =>
      t == token && FailClaim(rules, s.records, owner, id, t, code, now).1.None?
    case _ => false
  }
}
