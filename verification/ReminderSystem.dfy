// The outbox at work: users, dispatchers and delivery workers over one repository
// and one idempotent adapter, in any interleaving. Whoever was handed a reminder or
// a delivery may act on it at any later time, any number of times, or never.
module ReminderSystem {
  import opened Basics
  import opened Ordering
  import opened ReminderSpec

  // ---- The recording adapter ----

  datatype Request = Request(key: string, reminderID: string, owner: Owner, text: string)

  // `effects` are the requests that were not repetitions of an earlier key.
  datatype Adapter = Adapter(results: map<string, string>, calls: nat, effects: seq<Request>)

  const IDLE_ADAPTER := Adapter(map[], 0, [])

  function Deliver(a: Adapter, r: Request): (Adapter, Result<string>) {
    if !ValidIdentifier(r.key) then (a, Err(InvalidInput))
    else if r.key in a.results then (a, Ok(a.results[r.key]))
    else
      var result := "recorded:" + r.key;
      (Adapter(a.results[r.key := result], a.calls + 1, a.effects + [r]), Ok(result))
  }

  // ---- The system ----

  // A reminder as ClaimDue returned it, and a delivery as ClaimDeliveries returned it.
  datatype DueItem = DueItem(reminder: Reminder, token: string, at: Time)
  datatype Job = Job(delivery: Delivery, token: string, at: Time)

  datatype System = System(repo: Repo, items: set<DueItem>, jobs: set<Job>, delivered: set<Job>, adapter: Adapter)

  const INIT := System(EMPTY_REPO, {}, {}, {}, IDLE_ADAPTER)

  datatype Action =
    | Creating(create: CreateInput)
    | Mutating(change: MutateInput, cancel: bool)
    | Claiming(due: DueRequest, dueIDs: seq<string>)
    | Renewing(id: string, version: nat, token: string, until: Time)
    | Dispatching(item: DueItem)
    | Taking(work: WorkRequest, workIDs: seq<string>)
    | Delivering(job: Job)
    | Completing(job: Job)
    | Failing(job: Job, errorCode: string, nextAvailable: Time, permanent: bool)

  // The dispatcher names an occurrence after the reminder and its claimed version.
  function OccurrenceOf(item: DueItem): CommitInput {
    CommitInput(item.reminder.id, item.reminder.rowVersion, item.token,
                Keyed(item.reminder.id, item.reminder.rowVersion), item.at)
  }

  function RequestOf(d: Delivery): Request {
    Request(d.key, d.reminderID, d.owner, d.text)
  }

  ghost predicate Enabled(sys: System, a: Action) {
    match a
    case Creating(input) => input.reminder.status.StatusScheduled? && input.reminder.claim.None?
    case Mutating(_, _) => true
    case Claiming(due, ids) => IsDueBatch(sys.repo, due, ids)
    case Renewing(_, _, _, _) => true
    case Dispatching(item) => item in sys.items
    case Taking(work, ids) => IsWorkBatch(sys.repo, work, ids)
    case Delivering(job) => job in sys.jobs
    case Completing(job) => job in sys.delivered
    case Failing(job, _, _, _) => job in sys.jobs
  }

  ghost function ItemsOf(s: Repo, due: DueRequest, ids: seq<string>): set<DueItem>
    requires forall i :: 0 <= i < |ids| ==> ids[i] in s.reminders
  {
    set i | 0 <= i < |ids| :: DueItem(Claimed(s.reminders[ids[i]], due), due.token, due.now)
  }

  ghost function JobsOf(s: Repo, work: WorkRequest, ids: seq<string>): set<Job>
    requires forall i :: 0 <= i < |ids| ==> ids[i] in s.deliveries
  {
    set i | 0 <= i < |ids| :: Job(Taken(s.deliveries[ids[i]], work), work.token, work.now)
  }

  ghost function Step(rules: Rules, sys: System, a: Action): System {
    if !Enabled(sys, a) then sys
    else
      match a
      case Creating(input) => sys.(repo := Create(rules, sys.repo, input).0)
      case Mutating(input, cancel) => sys.(repo := Mutate(rules, sys.repo, input, cancel).0)
      case Claiming(due, ids) =>
        sys.(repo := ClaimDue(sys.repo, due, ids), items := sys.items + ItemsOf(sys.repo, due, ids))
      case Renewing(id, version, token, until) => sys.(repo := RenewClaim(sys.repo, id, version, token, until).0)
      case Dispatching(item) => sys.(repo := CommitOccurrence(sys.repo, OccurrenceOf(item)).0)
      case Taking(work, ids) =>
        sys.(repo := ClaimDeliveries(sys.repo, work, ids), jobs := sys.jobs + JobsOf(sys.repo, work, ids))
      case Delivering(job) =>
        var (adapter, r) := Deliver(sys.adapter, RequestOf(job.delivery));
        sys.(adapter := adapter, delivered := if r.Ok? then sys.delivered + {job} else sys.delivered)
      case Completing(job) => sys.(repo := CompleteDelivery(sys.repo, job.delivery.id, job.token, job.at).0)
      case Failing(job, code, next, permanent) =>
        sys.(repo := FailDelivery(sys.repo, Failure(job.delivery.id, job.token, code, job.at, next, permanent)).0)
  }

  ghost function Exec(rules: Rules, sys: System, actions: seq<Action>): System
    decreases |actions|
  {
    if actions == [] then sys
    else
      var last := |actions| - 1;
      Step(rules, Exec(rules, sys, actions[..last]), actions[last])
  }

  // ---- The invariant ----

  // Which reminder status goes with which delivery status.
  predicate Matches(d: DeliveryStatus, r: Status) {
    match d
    case DeliveryPending => r.StatusProcessing?
    case DeliveryProcessing => r.StatusProcessing?
    case DeliveryCompleted => r.StatusFired?
    case DeliveryPermanentFailed => r.StatusFailed?
  }

  predicate Handled(r: Status) {
    r.StatusProcessing? || r.StatusFired? || r.StatusFailed?
  }

  ghost predicate OccurrenceFor(reminderID: string, key: string) {
    exists version :: key == Keyed(reminderID, version)
  }

  ghost predicate DeliveryInv(s: Repo, id: string)
    requires id in s.deliveries
  {
    var d := s.deliveries[id];
    && d.id == id && d.key == id
    && id in s.occurrences && s.occurrences[id] == id
    && d.reminderID in s.reminders
    && Matches(d.status, s.reminders[d.reminderID].status)
    && d.text == s.reminders[d.reminderID].content.text
    && OccurrenceFor(d.reminderID, id)
  }

  ghost predicate HasDelivery(s: Repo, reminderID: string) {
    exists id :: id in s.deliveries && s.deliveries[id].reminderID == reminderID
  }

  ghost predicate ReminderInv(s: Repo, id: string)
    requires id in s.reminders
  {
    && s.reminders[id].id == id
    && !s.reminders[id].status.StatusUnset?
    && (Handled(s.reminders[id].status) ==> HasDelivery(s, id))
  }

  ghost predicate OneDelivery(s: Repo) {
    forall a, b :: a in s.deliveries && b in s.deliveries && s.deliveries[a].reminderID == s.deliveries[b].reminderID ==> a == b
  }

  ghost predicate RepoInv(s: Repo) {
    && s.occurrences.Keys == s.deliveries.Keys
    && (forall id :: id in s.deliveries ==> DeliveryInv(s, id))
    && (forall id :: id in s.reminders ==> ReminderInv(s, id))
    && OneDelivery(s)
  }

  // What a row version stands for: everything but the claim and the audit fields.
  predicate SameValue(a: Reminder, b: Reminder) {
    && a.rowVersion == b.rowVersion
    && a.content == b.content
    && a.status == b.status
    && a.owner == b.owner
    && a.source == b.source
    && a.lastErrorCode == b.lastErrorCode
  }

  predicate NotNewer(a: Reminder, b: Reminder) {
    a.id == b.id && (a.rowVersion < b.rowVersion || SameValue(a, b))
  }

  ghost predicate ItemInv(s: Repo, item: DueItem) {
    var r := item.reminder;
    && r.id in s.reminders
    && NotNewer(r, s.reminders[r.id])
    && r.status.StatusScheduled?
    && r.content.fireAt <= item.at
    && (Keyed(r.id, r.rowVersion) in s.deliveries ==> s.deliveries[Keyed(r.id, r.rowVersion)].text == r.content.text)
  }

  ghost predicate JobInv(s: Repo, job: Job) {
    var d := job.delivery;
    && d.id in s.deliveries
    && d.key == d.id
    && d.reminderID == s.deliveries[d.id].reminderID
    && d.text == s.deliveries[d.id].text
  }

  ghost predicate EffectInv(s: Repo, e: Request) {
    e.key in s.deliveries && e.reminderID == s.deliveries[e.key].reminderID && e.text == s.deliveries[e.key].text
  }

  ghost predicate AdapterInv(s: Repo, a: Adapter) {
    && a.calls == |a.effects|
    && (forall i :: 0 <= i < |a.effects| ==> EffectInv(s, a.effects[i]) && a.effects[i].key in a.results)
    && (forall key :: key in a.results ==> exists i :: 0 <= i < |a.effects| && a.effects[i].key == key)
    && (forall i, j :: 0 <= i < j < |a.effects| ==> a.effects[i].key != a.effects[j].key)
  }

  ghost predicate CompletedInv(s: Repo, results: map<string, string>) {
    forall id :: id in s.deliveries && s.deliveries[id].status.DeliveryCompleted? ==> id in results
  }

  ghost predicate Inv(sys: System) {
    && RepoInv(sys.repo)
    && (forall item :: item in sys.items ==> ItemInv(sys.repo, item))
    && (forall job :: job in sys.jobs ==> JobInv(sys.repo, job))
    && sys.delivered <= sys.jobs
    && (forall job :: job in sys.delivered ==> job.delivery.key in sys.adapter.results)
    && AdapterInv(sys.repo, sys.adapter)
    && CompletedInv(sys.repo, sys.adapter.results)
  }
}
