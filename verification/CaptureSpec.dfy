// The memory-capture workflow: a candidate record is put up for human review, may be
// edited any number of times, and is made active or rejected by the decision.
module CaptureSpec {
  import opened Basics
  import opened MemorySpec
  import W = WorkflowCore
  import Runner = RunnerSpec

  const REVIEW_NODE := "memory-review"
  const COMMIT_NODE := "memory-commit"
  const MAX_REFS := 32

  datatype PolicyAction = ActionNoop | ActionSupersede | ActionOther(name: string)
  datatype Policy = Policy(action: PolicyAction, targetID: string)

  datatype Decision = Undecided | Approved | Rejected

  datatype Review = Review(candidate: MemoryRef, rowVersion: nat, waitVersion: nat, decision: Decision, actor: (string, string), payloadRef: string)

  datatype Draft = Draft(
    layer: Layer,
    kind: Kind,
    scope: Scope,
    namespace: string,
    slotKey: string,
    entity: EntityRef,
    canonicalText: string,
    structuredValue: string,
    contentHash: string,
    authority: Authority,
    confidence: real,
    salience: real,
    source: string,
    expiresAt: Option<Time>)

  datatype Data = Data(
    owner: Owner,
    draft: Option<Draft>,
    refs: seq<MemoryRef>,
    policy: Option<Policy>,
    review: Option<Review>,
    committed: Option<MemoryRef>)

  // What an execution takes from outside: its clock, fresh ids, the resolved actor,
  // and what loading the edit, looking up its candidates and judging it return.
  datatype World = World(
    now: Time,
    newID: string,
    newLineage: string,
    waitID: string,
    actor: Option<(string, string)>,
    edited: Option<Draft>,
    refs: Option<seq<MemoryRef>>,
    policy: Option<Policy>)

  // A suspension names the review it waits for.
  datatype Output = Failed | Continues(data: Data) | Suspends(data: Data, review: Review, wait: W.WaitPoint)

  // ---- Reading ----

  function Own(view: Repo, owner: Owner, id: string): Option<Record> {
    if id in view.records && view.records[id].owner == owner then Some(view.records[id]) else None
  }

  function OwnActive(view: Repo, owner: Owner, id: string, now: Time): Option<Record> {
    var r := Own(view, owner, id);
    if r.Some? && ActiveAt(r.value, now) then r else None
  }

  // The referenced records are still active and unchanged.
  predicate Reloads(view: Repo, owner: Owner, refs: seq<MemoryRef>, now: Time) {
    refs == [] ||
      (&& ValidOwner(owner) && |refs| <= MAX_REFS
       && forall i :: 0 <= i < |refs| ==>
            var r := OwnActive(view, owner, refs[i].id, now); r.Some? && RefOf(r.value) == refs[i])
  }

  // ---- Writing ----

  function DraftRecord(owner: Owner, d: Draft, w: World): Record {
    Record(w.newID, owner, d.layer, d.kind, d.scope, d.namespace, d.slotKey, d.entity, w.newLineage, 1, 1, d.canonicalText,
           d.structuredValue, d.contentHash, d.authority, d.confidence, d.salience, d.source, Candidate, "", "", d.expiresAt, w.now, w.now)
  }

  // A candidate after an edit continues the lineage of the one it replaces, which is
  // rejected with it; under a superseding policy it names the policy's target instead.
  function CandidateRecord(data: Data, d: Draft, replaced: Option<Record>, target: Option<Record>, w: World): Record {
    var drafted := DraftRecord(data.owner, d, w);
    var continued := if replaced.Some? then
        drafted.(lineageID := replaced.value.lineageID, lineageVersion := replaced.value.lineageVersion + 1, supersedesID := replaced.value.id)
      else if target.Some? then drafted.(lineageID := target.value.lineageID, lineageVersion := target.value.lineageVersion + 1)
      else drafted;
    if target.Some? then continued.(supersedesID := target.value.id) else continued
  }

  predicate Superseding(data: Data) {
    data.policy.Some? && data.policy.value.action.ActionSupersede?
  }

  function TargetOf(view: Repo, data: Data, now: Time): Option<Record> {
    if Superseding(data) then OwnActive(view, data.owner, data.policy.value.targetID, now) else None
  }

  function CandidateMutation(view: Repo, key: string, data: Data, d: Draft, replaced: Option<Record>, w: World): Mutation {
    var record := CandidateRecord(data, d, replaced, TargetOf(view, data, w.now), w);
    var targets := if replaced.Some? then [MutationTarget(replaced.value.id, replaced.value.rowVersion, Status.Rejected)] else [];
    Mutation(record.owner, Some(record), targets, [], "workflow", "review_candidate", key, record.contentHash, w.now)
  }

  function CreateCandidate(c: Config, view: Repo, s: Repo, key: string, data: Data, d: Draft, replaced: Option<Record>, w: World): (Repo, Option<Record>) {
    if Superseding(data) && TargetOf(view, data, w.now).None? then (s, None)
    else
      var (t, r) := CommitMutation(c, s, CandidateMutation(view, key, data, d, replaced, w), w.now);
      (t, if r.Ok? then Some(r.value.memory) else None)
  }

  // ---- The keys of an execution ----

  // The review node's attempt is one more than the number of candidates put up before.
  function FirstKey(runID: string): string {
    Keyed(Runner.ExecutionID(runID, REVIEW_NODE, 1), 0)
  }

  function EditKey(runID: string, candidates: nat): string {
    Keyed(Runner.ExecutionID(runID, REVIEW_NODE, candidates + 1), 1)
  }

  function CommitKey(runID: string): string {
    Keyed(Runner.ExecutionID(runID, COMMIT_NODE, 1), 0)
  }

  // ---- The review node ----

  function WaitFor(runID: string, review: Review, ttl: int, w: World): W.WaitPoint {
    W.WaitPoint(w.waitID, runID, REVIEW_NODE, W.KindReview, review.waitVersion, review.candidate.contentHash,
                [W.ActionApprove, W.ActionReject, W.ActionSubmitEdit], review.payloadRef, w.now + ttl)
  }

  function Suspend(runID: string, data: Data, review: Review, ttl: int, w: World): Output {
    Suspends(data.(review := Some(review)), review, WaitFor(runID, review, ttl, w))
  }

  function ReviewFirst(c: Config, view: Repo, s: Repo, runID: string, data: Data, ttl: int, w: World): (Repo, Output) {
    if data.draft.None? || ttl <= 0 then (s, Failed)
    else if data.policy.Some? && data.policy.value.action.ActionNoop? then
      var r := OwnActive(view, data.owner, data.policy.value.targetID, w.now);
      (s, if r.None? then Failed else Continues(data.(committed := Some(RefOf(r.value)))))
    else
      var (t, r) := CreateCandidate(c, view, s, FirstKey(runID), data, data.draft.value, None, w);
      (t, if r.None? then Failed
          else Suspend(runID, data, Review(RefOf(r.value), r.value.rowVersion, 1, Undecided, ("", ""), ""), ttl, w))
  }

  // The reviewed record is the candidate still, or was just resolved the same way.
  predicate Reviewable(r: Record, review: Review, action: W.HumanAction) {
    && r.lineageVersion == review.candidate.lineageVersion && r.contentHash == review.candidate.contentHash
    && (|| (r.status.Candidate? && r.rowVersion == review.rowVersion)
        || (((action.ActionApprove? && r.status.Active?) || (action.ActionReject? && r.status.Rejected?))
            && r.rowVersion == review.rowVersion + 1))
  }

  function ReviewResumed(c: Config, view: Repo, s: Repo, runID: string, candidates: nat, data: Data, command: W.ResumeCommand,
                         ttl: int, w: World): (Repo, Output)
  {
    if data.draft.None? || ttl <= 0 || !Reloads(view, data.owner, data.refs, w.now) || w.actor.None? || data.review.None? then (s, Failed)
    else
      var review := data.review.value;
      var r := Own(view, data.owner, review.candidate.id);
      if r.None? || !Reviewable(r.value, review, command.action) then (s, Failed)
      else
        var decided := review.(actor := w.actor.value);
        match command.action
        case ActionApprove => (s, Continues(data.(review := Some(decided.(decision := Approved)))))
        case ActionReject => (s, Continues(data.(review := Some(decided.(decision := Decision.Rejected)))))
        case ActionSubmitEdit => Edit(c, view, s, runID, candidates, data, review, r.value, command, ttl, w)
        case _ => (s, Failed)
  }

  // An edit replaces the candidate under the policy judged before the edit; the policy
  // judged for the edited draft is kept for the decision.
  function Edit(c: Config, view: Repo, s: Repo, runID: string, candidates: nat, data: Data, review: Review, reviewed: Record,
                command: W.ResumeCommand, ttl: int, w: World): (Repo, Output)
  {
    if command.payloadRef == "" || w.edited.None? || w.refs.None? || w.policy.None? then (s, Failed)
    else
      var (t, r) := CreateCandidate(c, view, s, EditKey(runID, candidates), data, w.edited.value, Some(reviewed), w);
      var after := data.(draft := w.edited, policy := w.policy, refs := w.refs.value);
      (t, if r.None? then Failed
          else Suspend(runID, after, Review(RefOf(r.value), r.value.rowVersion, review.waitVersion + 1, Undecided, ("", ""), command.payloadRef), ttl, w))
  }

  // ---- The commit node ----

  function DecisionStatus(d: Decision): Option<Status> {
    match d
    case Approved => Some(Active)
    case Rejected => Some(Status.Rejected)
    case Undecided => None
  }

  function Resolve(c: Config, view: Repo, s: Repo, runID: string, data: Data, review: Review, status: Status, w: World): (Repo, Result<MutationResult>) {
    var actor := review.actor.0 + ":" + review.actor.1;
    if status.Active? && Superseding(data) then
      var target := TargetOf(view, data, w.now);
      if target.None? then (s, Err(NotFound))
      else
        ActivateCandidateSuperseding(c, s,
          Activation(data.owner, review.candidate.id, data.policy.value.targetID, review.rowVersion, target.value.rowVersion, actor,
                     "user_correction", CommitKey(runID), review.candidate.contentHash, w.now), w.now)
    else
      TransitionMemory(c, s, Transition(data.owner, review.candidate.id, review.rowVersion, status, actor, "user_review", CommitKey(runID),
                                        review.candidate.contentHash, w.now))
  }

  function CommitDecision(c: Config, view: Repo, s: Repo, runID: string, data: Data, w: World): (Repo, Output) {
    if data.review.None? then
      (s, if data.committed.Some? && data.policy.Some? && data.policy.value.action.ActionNoop? then Continues(data) else Failed)
    else
      var status := DecisionStatus(data.review.value.decision);
      if status.None? then (s, Failed)
      else
        var (t, r) := Resolve(c, view, s, runID, data, data.review.value, status.value, w);
        (t, if r.Err? then Failed else Continues(data.(committed := Some(RefOf(r.value.memory)))))
  }
}
