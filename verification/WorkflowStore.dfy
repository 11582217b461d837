// The in-memory durable store as an object: every method is one atomic step (the
// source holds one mutex per method) and does what StoreSpec describes.
module WorkflowStore {
  import opened Basics
  import opened WorkflowCore
  import opened StoreSpec
  import Spec = StoreSpec

  class MemoryDurableStore {
    var runs: map<string, StoredWorkflow>
    var waits: map<string, seq<StoredWait>>
    var events: map<string, seq<NodeEvent>>

    function Contents(): (s: Store)
      reads this
    {
      Store(runs, waits, events)
    }

    constructor ()
      ensures Contents() == EMPTY_STORE
    {
      runs, waits, events := map[], map[], map[];
    }

    // The run with the key of `run` that the iteration over the map meets first.
    method FindSameKey(run: StoredWorkflow) returns (found: Option<string>)
      ensures Match(Contents(), run, found)
    {
      var left := runs.Keys;
      while left != {}
        invariant left <= runs.Keys
        invariant forall id :: id in runs && id !in left ==> !SameKey(runs[id], run)
        decreases |left|
      {
        var id :| id in left;
        if SameKey(runs[id], run) {
          return Some(id);
        }
        left := left - {id};
      }
      return None;
    }

    method CreateRun(run: StoredWorkflow) returns (r: Result<Created>)
      modifies this
      ensures exists found :: Match(old(Contents()), run, found)
                           && (Contents(), r) == Spec.CreateRun(old(Contents()), run, found)
    {
      ghost var before := Contents();
      var found := FindSameKey(run);
      assert Match(before, run, found);
      var refusal := RunRefusal(run);
      if refusal.Some? {
        return Err(refusal.value);
      }
      if found.Some? {
        if SameStartRequest(runs[found.value], run) {
          return Ok(Created(runs[found.value], false));
        }
        return Err(Fail(CodeIdempotencyConflict));
      }
      var id := run.checkpoint.meta.runID;
      if id in runs {
        return Err(Fail(CodeIdempotencyConflict));
      }
      runs := runs[id := run];
      r := Ok(Created(run, true));
      assert (Contents(), r) == Spec.CreateRun(before, run, found);
    }

    method GetRun(owner: Owner, runID: string) returns (r: Result<StoredWorkflow>)
      ensures r == if Owned(Contents(), runID, owner) then Ok(runs[runID]) else Err(Fail(CodeNotFound))
    {
      if runID !in runs || runs[runID].owner != owner {
        return Err(Fail(CodeNotFound));
      }
      return Ok(runs[runID]);
    }

    method GetCurrentWait(owner: Owner, runID: string) returns (r: Result<StoredWait>)
      ensures r == if !Owned(Contents(), runID, owner) then Err(Fail(CodeNotFound))
                   else match CurrentWait(Waits(Contents(), runID))
                        case Some(wait) => Ok(wait)
                        case None => Err(Fail(CodeNotFound))
    {
      if runID !in runs || runs[runID].owner != owner {
        return Err(Fail(CodeNotFound));
      }
      var stored := if runID in waits then waits[runID] else [];
      var index := |stored| - 1;
      assert stored[..|stored|] == stored;
      while index >= 0
        invariant -1 <= index < |stored|
        invariant CurrentWait(stored) == CurrentWait(stored[..index + 1])
      {
        assert stored[..index + 1][..index] == stored[..index];
        if !stored[index].status.Terminal() {
          return Ok(stored[index]);
        }
        index := index - 1;
      }
      return Err(Fail(CodeNotFound));
    }

    method ClaimRun(request: ClaimRunRequest) returns (r: Result<StoredWorkflow>)
      modifies this
      ensures (Contents(), r) == Spec.ClaimRun(old(Contents()), request)
    {
      if !ValidOwner(request.owner) || request.now == ZERO_TIME || !ValidClaim(request.claim, request.now) {
        return Err(Fail(CodeInvalidContract));
      }
      if request.runID !in runs || runs[request.runID].owner != request.owner {
        return Err(Fail(CodeNotFound));
      }
      var run := runs[request.runID];
      if run.checkpoint.control.status != RunPending || run.checkpoint.control.stateVersion != request.expectedVersion {
        return Err(Fail(CodeStateConflict));
      }
      if run.claim.Some? && run.claim.value.leaseUntil > request.now {
        return Err(Fail(CodeClaimConflict));
      }
      run := run.(claim := Some(request.claim), updatedAt := request.now);
      runs := runs[request.runID := run];
      return Ok(run);
    }

    method ClaimWait(request: ClaimWaitRequest) returns (r: Result<StoredWorkflow>)
      modifies this
      ensures (Contents(), r) == Spec.ClaimWait(old(Contents()), request)
    {
      if !ValidOwner(request.owner) || !ValidActor(request.actor) || request.now == ZERO_TIME
         || !ValidClaim(request.claim, request.now) {
        return Err(Fail(CodeInvalidContract));
      }
      if request.runID !in runs || runs[request.runID].owner != request.owner {
        return Err(Fail(CodeNotFound));
      }
      var run := runs[request.runID];
      if run.checkpoint.control.status != RunSuspended || run.checkpoint.control.stateVersion != request.expectedVersion {
        return Err(Fail(CodeStateConflict));
      }
      var stored := if request.runID in waits then waits[request.runID] else [];
      if |stored| == 0 {
        return Err(Fail(CodeNotFound));
      }
      var index := |stored| - 1;
      var wait := stored[index];
      if wait.status.Terminal() {
        return Err(Fail(CodeStateConflict));
      }
      if wait.status == WaitProcessing && wait.claim.Some? && wait.claim.value.leaseUntil > request.now {
        return Err(Fail(CodeClaimConflict));
      }
      var refusal := ValidateResume(wait.point, request.command, request.now);
      if refusal.Some? {
        return Err(refusal.value);
      }
      wait := wait.(status := WaitProcessing, recordVersion := wait.recordVersion + 1, claim := Some(request.claim));
      waits := waits[request.runID := stored[index := wait]];
      run := run.(claim := Some(request.claim), updatedAt := request.now);
      runs := runs[request.runID := run];
      return Ok(run);
    }

    method RenewClaim(request: RenewRequest) returns (error: Option<WfError>)
      modifies this
      ensures (Contents(), error) == Spec.RenewClaim(old(Contents()), request)
    {
      if request.until <= request.now || request.until - request.now > MAX_LEASE {
        return Some(Fail(CodeInvalidContract));
      }
      if request.runID !in runs || runs[request.runID].owner != request.owner {
        return Some(Fail(CodeNotFound));
      }
      var run := runs[request.runID];
      if run.claim.None? || run.claim.value.token != request.token || run.claim.value.leaseUntil <= request.now {
        return Some(Fail(CodeLeaseLost));
      }
      run := run.(claim := Some(run.claim.value.(leaseUntil := request.until)), updatedAt := request.now);
      runs := runs[request.runID := run];
      var stored := if request.runID in waits then waits[request.runID] else [];
      if |stored| > 0 {
        var index := |stored| - 1;
        var wait := stored[index];
        if wait.status == WaitProcessing && wait.claim.Some? && wait.claim.value.token == request.token {
          stored := stored[index := wait.(claim := Some(wait.claim.value.(leaseUntil := request.until)))];
          waits := waits[request.runID := stored];
        }
      }
      return None;
    }

    // validateCommittedEvents.
    method ValidateEvents(previous: int, final: int, runID: string, batch: seq<NodeEvent>) returns (ok: bool)
      ensures ok == Contiguous(previous, final, runID, batch)
    {
      if |batch| == 0 && final == previous {
        return true;
      }
      if |batch| == 0 || |batch| != final - previous {
        return false;
      }
      for index := 0 to |batch|
        invariant forall i :: 0 <= i < index ==> EventInPlace(batch[i], runID, previous + i + 1)
      {
        if !EventInPlace(batch[index], runID, previous + index + 1) {
          return false;
        }
      }
      return true;
    }

    method CommitExecution(request: CommitRequest) returns (error: Option<WfError>)
      modifies this
      ensures (Contents(), error) == Spec.Commit(old(Contents()), request)
    {
      if request.now == ZERO_TIME || !ValidIdentifier(request.token) {
        return Some(Fail(CodeInvalidContract));
      }
      if !ValidEnvelope(request.checkpoint) {
        return Some(Fail(CodeCodecIncompatible));
      }
      if request.runID !in runs || runs[request.runID].owner != request.owner {
        return Some(Fail(CodeNotFound));
      }
      var run := runs[request.runID];
      if run.claim.None? || run.claim.value.token != request.token || run.claim.value.leaseUntil <= request.now {
        return Some(Fail(CodeLeaseLost));
      }
      var before, after := run.checkpoint.control, request.checkpoint.control;
      if before.stateVersion != request.expectedVersion {
        return Some(Fail(CodeStateConflict));
      }
      if request.checkpoint.meta.runID != request.runID || after.stateVersion <= request.expectedVersion {
        return Some(Fail(CodeStateConflict));
      }
      var contiguous := ValidateEvents(before.eventSequence, after.eventSequence, request.runID, request.events);
      if !contiguous {
        return Some(Fail(CodeStateConflict));
      }
      var stored := if request.runID in waits then waits[request.runID] else [];
      if request.resolvedWaitID != "" {
        if |stored| == 0 || stored[|stored| - 1].point.id != request.resolvedWaitID
           || stored[|stored| - 1].status != WaitProcessing || stored[|stored| - 1].claim.None?
           || stored[|stored| - 1].claim.value.token != request.token {
          return Some(Fail(CodeStateConflict));
        }
        if request.actor.None? || !ValidActor(request.actor.value) {
          return Some(Fail(CodeInvalidContract));
        }
        var wait := WaitTransition(stored[|stored| - 1], WaitResolved);
        wait := wait.(resolvedAction := request.resolvedAction, resolvedAt := request.now, resolvedBy := request.actor);
        stored := stored[|stored| - 1 := wait];
      }
      if after.status == RunSuspended {
        if after.pendingWait.None? {
          return Some(Fail(CodeStateConflict));
        }
        var point := after.pendingWait.value;
        if |stored| > 0 && stored[|stored| - 1].point.id == point.id {
          return Some(Fail(CodeStateConflict));
        }
        stored := stored + [NewWait(point)];
      }
      runs := runs[request.runID := run.(checkpoint := request.checkpoint, claim := None, updatedAt := request.now)];
      waits := waits[request.runID := stored];
      events := events[request.runID := (if request.runID in events then events[request.runID] else []) + request.events];
      return None;
    }
  }
}
