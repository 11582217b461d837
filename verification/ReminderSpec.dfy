// The reminder outbox: reminders, the deliveries made of them, and what each
// repository operation does. A refused operation changes nothing.
module ReminderSpec {
  import opened Basics
  import opened Ordering

  const MAX_PAGE_SIZE := 100
  const MAX_HORIZON := 365 * DAY
  const DEFAULT_TIMEZONE := "Asia/Shanghai"

  datatype RepoError = InvalidInput | NotFound | StateConflict | IdempotencyConflict | LeaseLost | SensitiveContent

  datatype Result<+T> = Ok(value: T) | Err(error: RepoError)

  datatype Owner = Owner(tenantID: nat, userID: nat)

  predicate ValidOwner(o: Owner) {
    o.tenantID != 0 && o.userID != 0
  }

  // StatusUnset is the status of the zero value a missing map entry reads as.
  datatype Status = StatusUnset | StatusScheduled | StatusProcessing | StatusFired | StatusCancelled | StatusFailed

  datatype MemoryRef = MemoryRef(id: string, lineageVersion: nat, contentHash: string)

  datatype Claim = Claim(token: string, leaseUntil: Time)

  datatype Content = Content(text: string, contentHash: string, timezone: string, fireAt: Time, memoryRefs: seq<MemoryRef>)

  datatype Reminder = Reminder(
    id: string,
    owner: Owner,
    content: Content,
    status: Status,
    rowVersion: nat,
    source: (string, string),
    lastErrorCode: string,
    claim: Option<Claim>,
    createdAt: Time,
    updatedAt: Time)

  const UNSET := Reminder("", Owner(0, 0), Content("", "", "", ZERO_TIME, []), StatusUnset, 0, ("", ""), "", None, ZERO_TIME, ZERO_TIME)

  // The textual checks: hash shapes, normalisation, the content hash, sensitive text.
  datatype Rules = Rules(
    validHash: string -> bool,
    textRefusal: Reminder -> Option<RepoError>,
    updateRefusal: Content -> Option<RepoError>)

  // Reminder.Validate.
  function Refusal(rules: Rules, r: Reminder, now: Time): Option<RepoError> {
    if !ValidOwner(r.owner) || !ValidIdentifier(r.id) || r.rowVersion == 0 || r.status.StatusUnset?
       || r.createdAt == ZERO_TIME || r.updatedAt == ZERO_TIME then Some(InvalidInput)
    else if rules.textRefusal(r).Some? then rules.textRefusal(r)
    else if r.content.timezone != DEFAULT_TIMEZONE || r.content.fireAt == ZERO_TIME
            || !ValidIdentifier(r.source.0) || !ValidIdentifier(r.source.1) then Some(InvalidInput)
    else if r.status.StatusScheduled? && (r.content.fireAt <= now || r.content.fireAt > now + MAX_HORIZON) then Some(InvalidInput)
    else if r.claim.Some? && (!ValidIdentifier(r.claim.value.token) || r.claim.value.leaseUntil == ZERO_TIME) then Some(InvalidInput)
    else None
  }

  datatype DeliveryStatus = DeliveryPending | DeliveryProcessing | DeliveryCompleted | DeliveryPermanentFailed

  datatype Delivery = Delivery(
    id: string,
    reminderID: string,
    owner: Owner,
    text: string,
    key: string,
    status: DeliveryStatus,
    attempt: nat,
    availableAt: Time,
    claimToken: string,
    leaseUntil: Option<Time>,
    lastErrorCode: string)

  datatype Mutation = Mutation(reminder: Reminder, replayed: bool)

  // The result and input hash remembered for an idempotency key.
  datatype Remembered = Remembered(reminder: Reminder, inputHash: string)

  datatype Repo = Repo(
    reminders: map<string, Reminder>,
    remembered: map<(Owner, string), Remembered>,
    deliveries: map<string, Delivery>,
    occurrences: map<string, string>)

  const EMPTY_REPO := Repo(map[], map[], map[], map[])

  function Lookup(s: Repo, id: string): Reminder {
    if id in s.reminders then s.reminders[id] else UNSET
  }

  // ---- Create, update, cancel ----

  datatype CreateInput = CreateInput(reminder: Reminder, idempotencyKey: string, inputHash: string)

  function Replay(s: Repo, key: (Owner, string), inputHash: string): Result<Mutation>
    requires key in s.remembered
  {
    if s.remembered[key].inputHash != inputHash then Err(IdempotencyConflict)
    else Ok(Mutation(s.remembered[key].reminder, true))
  }

  function Create(rules: Rules, s: Repo, input: CreateInput): (Repo, Result<Mutation>) {
    var r := input.reminder;
    var key := (r.owner, input.idempotencyKey);
    if !ValidIdentifier(input.idempotencyKey) || !rules.validHash(input.inputHash) || !ValidOwner(r.owner) then (s, Err(InvalidInput))
    else if Refusal(rules, r, r.createdAt).Some? then (s, Err(Refusal(rules, r, r.createdAt).value))
    else if key in s.remembered then (s, Replay(s, key, input.inputHash))
    else if r.id in s.reminders then (s, Err(StateConflict))
    else
      (s.(reminders := s.reminders[r.id := r], remembered := s.remembered[key := Remembered(r, input.inputHash)]),
       Ok(Mutation(r, false)))
  }

  datatype MutateInput = MutateInput(
    owner: Owner,
    id: string,
    rowVersion: nat,
    content: Content,
    idempotencyKey: string,
    inputHash: string,
    occurredAt: Time)

  function Changed(r: Reminder, input: MutateInput, cancel: bool): Reminder {
    var body := if cancel then r.(status := StatusCancelled, claim := None) else r.(content := input.content);
    body.(rowVersion := r.rowVersion + 1, updatedAt := input.occurredAt)
  }

  function MutateRefusal(rules: Rules, s: Repo, input: MutateInput, cancel: bool): Option<RepoError> {
    if input.id !in s.reminders || s.reminders[input.id].owner != input.owner then Some(NotFound)
    else
      var r := s.reminders[input.id];
      if r.rowVersion != input.rowVersion || !r.status.StatusScheduled? then Some(StateConflict)
      else if cancel then None
      else if rules.updateRefusal(input.content).Some? then rules.updateRefusal(input.content)
      else if input.content.fireAt <= input.occurredAt then Some(InvalidInput)
      else None
  }

  // Update, and Cancel when `cancel` is set.
  function Mutate(rules: Rules, s: Repo, input: MutateInput, cancel: bool): (Repo, Result<Mutation>) {
    var key := (input.owner, input.idempotencyKey);
    if !ValidOwner(input.owner) || !ValidIdentifier(input.id) || input.rowVersion == 0 || input.idempotencyKey == ""
       || !rules.validHash(input.inputHash) then (s, Err(InvalidInput))
    else if key in s.remembered then (s, Replay(s, key, input.inputHash))
    else if MutateRefusal(rules, s, input, cancel).Some? then (s, Err(MutateRefusal(rules, s, input, cancel).value))
    else
      var r := Changed(s.reminders[input.id], input, cancel);
      (s.(reminders := s.reminders[input.id := r], remembered := s.remembered[key := Remembered(r, input.inputHash)]),
       Ok(Mutation(r, false)))
  }

  // ---- Due reminders ----

  datatype DueRequest = DueRequest(limit: int, now: Time, lease: int, token: string)

  predicate ValidDue(r: DueRequest) {
    1 <= r.limit <= MAX_PAGE_SIZE && r.now != ZERO_TIME && r.lease > 0 && r.token != ""
  }

  predicate Due(r: Reminder, now: Time) {
    && r.status.StatusScheduled?
    && r.content.fireAt <= now
    && (r.claim.None? || r.claim.value.leaseUntil <= now)
  }

  function DueIDs(s: Repo, now: Time): set<string> {
    set id | id in s.reminders && Due(s.reminders[id], now)
  }

  function FireTimes(s: Repo): (at: map<string, Time>)
    ensures at.Keys == s.reminders.Keys
  {
    map id | id in s.reminders :: s.reminders[id].content.fireAt
  }

  function Claimed(r: Reminder, request: DueRequest): Reminder {
    r.(claim := Some(Claim(request.token, request.now + request.lease)), rowVersion := r.rowVersion + 1, updatedAt := request.now)
  }

  // The batch is the first `limit` due reminders by fire time and id.
  ghost predicate IsDueBatch(s: Repo, request: DueRequest, ids: seq<string>) {
    ValidDue(request) && IsBatch(DueIDs(s, request.now), FireTimes(s), request.limit, ids)
  }

  function ClaimDue(s: Repo, request: DueRequest, ids: seq<string>): Repo {
    s.(reminders := map id | id in s.reminders ::
         if id in ids then Claimed(s.reminders[id], request) else s.reminders[id])
  }

  function ClaimedReminders(s: Repo, request: DueRequest, ids: seq<string>): (out: seq<Reminder>)
    requires forall i :: 0 <= i < |ids| ==> ids[i] in s.reminders
    ensures |out| == |ids|
  {
    seq(|ids|, i requires 0 <= i < |ids| => Claimed(s.reminders[ids[i]], request))
  }

  // Claiming a batch is claiming its members one after the other.
  lemma ClaimDueOne(s: Repo, request: DueRequest, ids: seq<string>, id: string)
    requires id in s.reminders && id !in ids && forall i :: 0 <= i < |ids| ==> ids[i] in s.reminders
    ensures var r := Claimed(s.reminders[id], request);
            && ClaimDue(s, request, ids).reminders.Keys == s.reminders.Keys
            && ClaimDue(s, request, ids).reminders[id] == s.reminders[id]
            && ClaimDue(s, request, ids + [id]) == ClaimDue(s, request, ids).(reminders := ClaimDue(s, request, ids).reminders[id := r])
            && ClaimedReminders(s, request, ids + [id]) == ClaimedReminders(s, request, ids) + [r]
  {
  }

  lemma ClaimDueNone(s: Repo, request: DueRequest)
    ensures ClaimDue(s, request, []) == s
  {
  }

  function RenewClaim(s: Repo, id: string, version: nat, token: string, until: Time): (Repo, Option<RepoError>) {
    if id !in s.reminders then (s, Some(NotFound))
    else
      var r := s.reminders[id];
      if r.rowVersion != version || r.claim.None? || r.claim.value.token != token then (s, Some(LeaseLost))
      else (s.(reminders := s.reminders[id := r.(claim := Some(Claim(token, until)))]), None)
  }

  datatype CommitInput = CommitInput(reminderID: string, rowVersion: nat, token: string, occurrenceID: string, occurredAt: Time)

  predicate MayCommit(r: Reminder, input: CommitInput) {
    && r.rowVersion == input.rowVersion
    && r.status.StatusScheduled?
    && r.claim.Some?
    && r.claim.value.token == input.token
    && r.claim.value.leaseUntil > input.occurredAt
  }

  function NewDelivery(r: Reminder, input: CommitInput): Delivery {
    Delivery(input.occurrenceID, r.id, r.owner, r.content.text, input.occurrenceID, DeliveryPending, 0, input.occurredAt, "", None, "")
  }

  function Handed(r: Reminder, input: CommitInput): Reminder {
    r.(status := StatusProcessing, rowVersion := r.rowVersion + 1, claim := None, updatedAt := input.occurredAt)
  }

  datatype Committed = Committed(delivery: Delivery, replayed: bool)

  const NO_DELIVERY := Delivery("", "", Owner(0, 0), "", "", DeliveryPending, 0, ZERO_TIME, "", None, "")

  function DeliveryOf(s: Repo, id: string): Delivery {
    if id in s.deliveries then s.deliveries[id] else NO_DELIVERY
  }

  function CommitOccurrence(s: Repo, input: CommitInput): (Repo, Result<Committed>) {
    if input.reminderID !in s.reminders then (s, Err(NotFound))
    else if input.occurrenceID in s.occurrences then
      (s, Ok(Committed(DeliveryOf(s, s.occurrences[input.occurrenceID]), true)))
    else
      var r := s.reminders[input.reminderID];
      if !MayCommit(r, input) then (s, Err(LeaseLost))
      else
        var d := NewDelivery(r, input);
        (s.(reminders := s.reminders[r.id := Handed(r, input)],
            deliveries := s.deliveries[d.id := d],
            occurrences := s.occurrences[input.occurrenceID := d.id]),
         Ok(Committed(d, false)))
  }

  // ---- Deliveries ----

  datatype WorkRequest = WorkRequest(limit: int, now: Time, lease: int, token: string)

  predicate ValidWork(r: WorkRequest) {
    1 <= r.limit <= MAX_PAGE_SIZE && r.now != ZERO_TIME && r.lease > 0 && r.token != ""
  }

  predicate Open(d: Delivery) {
    d.status.DeliveryPending? || d.status.DeliveryProcessing?
  }

  predicate Available(d: Delivery, now: Time) {
    Open(d) && d.availableAt <= now && (d.leaseUntil.None? || d.leaseUntil.value <= now)
  }

  function AvailableIDs(s: Repo, now: Time): set<string> {
    set id | id in s.deliveries && Available(s.deliveries[id], now)
  }

  // Deliveries are taken in the order of their ids alone.
  function NoTimes(s: Repo): (at: map<string, Time>)
    ensures at.Keys == s.deliveries.Keys
  {
    map id | id in s.deliveries :: ZERO_TIME
  }

  ghost predicate IsWorkBatch(s: Repo, request: WorkRequest, ids: seq<string>) {
    ValidWork(request) && IsBatch(AvailableIDs(s, request.now), NoTimes(s), request.limit, ids)
  }

  function Taken(d: Delivery, request: WorkRequest): Delivery {
    d.(status := DeliveryProcessing, claimToken := request.token, leaseUntil := Some(request.now + request.lease), attempt := d.attempt + 1)
  }

  function ClaimDeliveries(s: Repo, request: WorkRequest, ids: seq<string>): Repo {
    s.(deliveries := map id | id in s.deliveries ::
         if id in ids then Taken(s.deliveries[id], request) else s.deliveries[id])
  }

  function TakenDeliveries(s: Repo, request: WorkRequest, ids: seq<string>): (out: seq<Delivery>)
    requires forall i :: 0 <= i < |ids| ==> ids[i] in s.deliveries
    ensures |out| == |ids|
  {
    seq(|ids|, i requires 0 <= i < |ids| => Taken(s.deliveries[ids[i]], request))
  }

  lemma ClaimDeliveriesOne(s: Repo, request: WorkRequest, ids: seq<string>, id: string)
    requires id in s.deliveries && id !in ids && forall i :: 0 <= i < |ids| ==> ids[i] in s.deliveries
    ensures var d := Taken(s.deliveries[id], request);
            && ClaimDeliveries(s, request, ids).deliveries.Keys == s.deliveries.Keys
            && ClaimDeliveries(s, request, ids).deliveries[id] == s.deliveries[id]
            && ClaimDeliveries(s, request, ids + [id])
               == ClaimDeliveries(s, request, ids).(deliveries := ClaimDeliveries(s, request, ids).deliveries[id := d])
            && TakenDeliveries(s, request, ids + [id]) == TakenDeliveries(s, request, ids) + [d]
  {
  }

  lemma ClaimDeliveriesNone(s: Repo, request: WorkRequest)
    ensures ClaimDeliveries(s, request, []) == s
  {
  }

  function CompleteDelivery(s: Repo, id: string, token: string, now: Time): (Repo, Option<RepoError>) {
    if id !in s.deliveries then (s, Some(NotFound))
    else
      var d := s.deliveries[id];
      if d.status.DeliveryCompleted? then (s, None)
      else if !d.status.DeliveryProcessing? || d.claimToken != token then (s, Some(LeaseLost))
      else
        var r := Lookup(s, d.reminderID);
        if !r.status.StatusProcessing? then (s, Some(StateConflict))
        else
          (s.(deliveries := s.deliveries[id := d.(status := DeliveryCompleted, claimToken := "", leaseUntil := None)],
              reminders := s.reminders[r.id := r.(status := StatusFired, rowVersion := r.rowVersion + 1, updatedAt := now)]),
           None)
  }

  datatype Failure = Failure(id: string, token: string, errorCode: string, now: Time, nextAvailable: Time, permanent: bool)

  // The reminder is written back whatever its status is.
  function FailDelivery(s: Repo, f: Failure): (Repo, Option<RepoError>) {
    if f.id !in s.deliveries then (s, Some(NotFound))
    else
      var d := s.deliveries[f.id];
      if !d.status.DeliveryProcessing? || d.claimToken != f.token then (s, Some(LeaseLost))
      else
        var released := d.(lastErrorCode := f.errorCode, claimToken := "", leaseUntil := None);
        var r := Lookup(s, d.reminderID);
        if f.permanent then
          (s.(deliveries := s.deliveries[d.id := released.(status := DeliveryPermanentFailed)],
              reminders := s.reminders[r.id := r.(status := StatusFailed, lastErrorCode := f.errorCode, rowVersion := r.rowVersion + 1, updatedAt := f.now)]),
           None)
        else
          (s.(deliveries := s.deliveries[d.id := released.(status := DeliveryPending, availableAt := f.nextAvailable)],
              reminders := s.reminders[r.id := r]),
           None)
  }
}
