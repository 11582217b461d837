# HarnessLoopAgent: verified protocols

HarnessLoopAgent runs agent workflows, reminders, memories, chat streams and cached daily reviews for
many users at once. Each of these is a protocol over state that concurrent workers share. This
project models those protocols in Dafny and proves what they guarantee over every interleaving.

Every component has the same three layers.

- A `...Spec` module gives the data model and, for each operation, the contents after it as a function
  of the contents before.
- A class has one method per method of the Go type, changing its fields step by step. Each method's
  `ensures` gives its whole new state and its result through the specification functions.
- A system module puts any number of workers, users and crashes over one store as a state machine
  (`Action`, `Step`, and a sequence of steps), with an inductive invariant and the theorems about every
  reachable state. `...Effects` modules say over the stored statuses, contents and answers when an
  operation is accepted, what it leaves, and what stays true of it afterwards.

| component | specification | class | system and proofs |
|---|---|---|---|
| durable workflow engine | `RunnerSpec`, `StoreSpec`, `RuntimeSpec`, `WorkflowCore` | `WorkflowRunner`, `WorkflowStore`, `WorkflowRuntime` | `RunnerProofs`, `RunnerJourney`, `RunLog`, `WorkflowSystem`, `WorkflowInvariant`, `WorkflowTheorems`, `WorkflowLeases`, `WorkflowCalls` |
| reminder outbox | `ReminderSpec`, `Ordering` | `ReminderRepository`, `ReminderDelivery` | `ReminderSystem`, `ReminderProofs`, `ReminderTheorems`, `ReminderEffects` |
| memory store | `MemorySpec`, `Scans` | `MemoryRepository` | `MemorySystem`, `MemoryProofs`, `MemoryTheorems`, `MemoryEffects` |
| projector | `ProjectorSpec` | `MemoryProjector` | `ProjectorSystem`, `ProjectorEffects` |
| recall | `RecallSpec` | `MemoryRecall` | `RecallTheorems`, `RecallOrder`, `RecallEffects`, `RecallSearch` |
| human review of captured memories | `CaptureSpec` | `MemoryCapture` | `CaptureSystem`, `CaptureProofs`, `CaptureEffects` |
| chat run log and event stream | `ChatSpec`, `ChatNotifierSpec` | `ChatRepository`, `ChatNotifier` | `ChatSystem`, `ChatLog`, `ChatProofs`, `ChatTheorems`, `ChatEffects` |
| daily-review cache | `CacheSpec` | `ReviewCache` | `CacheTheorems`, `CacheSweeps`, `CacheEffects` |

`dafny verify dfyconfig.toml` checks the whole project.

## What the model assumes

- Go structs are values. The stores clone at their boundary, so no aliasing crosses it.
- Each store method holds a lock, so it is one atomic step. The in-memory stores are the semantics.
- A crash is a worker that takes no further step. Whoever was handed a claim may act on it at any later
  time, once, repeatedly or never.
- Clocks are arbitrary readings passed with each step, which covers a global nondecreasing clock. Only the
  theorems about leases, validity and sweeps say which readings come before which. Times are whole
  nanoseconds and the zero time is 0.
- Claim tokens, record ids, run ids and channels are fresh.
- `CreateRun` of the workflow store gets a pending state with zero counters and no claim, and
  `reminder.Create` a scheduled reminder without a claim, as the services build them.
- One definition version, node list and codec per durable store. `Decode` inverts `Encode` on what it
  encoded.
- Callers of `CommitMutation` name each target once, ask none of them to become active, and pass a new
  record without a successor (`MemorySystem.ProperMutation`). The one caller in the repository asks for
  `rejected` only.
- Sensitive-text scanning, normalisation, hashing, JSON validity and digest shapes are abstract functions
  or predicates in a `Rules` or `Config` value, arbitrary in every theorem. Content hashes are taken to
  hold no colon where a key built from them must be read back.
- Idempotency keys of reminders and memories are filed under the pair of owner and key. The decimal
  prefixes of the formatted key fix the owner (`MemoryTheorems.ProjectionIDInjective` proves this for
  projection rows).
- Counters and versions are unbounded integers. Scores and salience are reals.
- Nobody else writes under a capture run's edit keys, which start with its run id.

Where code and comments or interfaces suggest different things, the model follows the code: the fake
`FindExact` counts a single `ContentHash` as a selector but selects nothing by it; an edit creates its
candidate under the policy judged before the edit; a resume that the runner does not admit leaves the
wait claimed until its lease runs out; `FailDelivery` writes the reminder without looking at its status;
a start repeated under its key compares with the run's current data, so it conflicts once the run has moved
on; the review node accepts a candidate already decided, so that an execution can be repeated, but a repeated
superseding approval then fails in the commit node.

## Model

| member | source | states |
|---|---|---|
| `WorkflowTheorems.CommitAcceptance` | internal/workflow/durable_runtime.go:161-191 | For a worker whose claim is still the run's: `CommitExecution` accepts the checkpoint `execute` builds if and only if the runner was admitted, the data encodes within the limit, the lease is live at a non-zero reading, and a new wait does not reuse the resolved wait's id. Nothing else the store checks can fail. |
| `WorkflowTheorems.DurableRefinesInMemory` | internal/workflow/durable_runtime.go:56-138 | After any interleaving of starts, claims, crashes, lease takeovers, renewals and commits, every stored run decodes to the state, and its log is the log, of chaining `Run` and `Resume` in memory over the executions that were committed. |
| `WorkflowTheorems.RunWaitClaimCoupled` | internal/workflow/memory_durable_store.go:101-233 | In every reachable state: suspended exactly when the last wait is open and then on that wait; earlier waits resolved; a suspended run is claimed exactly when the wait is processing, with equal claim, renewals included; finished runs unclaimed; no stored checkpoint is running. |
| `WorkflowTheorems.StoredLogConserved` | internal/workflow/runner.go:83-106 | For every stored run the log is numbered 1..EventSequence; started = StepsExecuted = completed + suspended + failed; resumed = ResumeCount; suspended = ResumeCount + 1 if now suspended; positive budgets are never exceeded; CompletedNodes is a prefix of the node list, all of it exactly when completed; no (node, attempt) repeats. |
| `WorkflowTheorems.CommittedExecutionIDsDistinct` | internal/workflow/runner.go:120-132 | No two executions in a stored run's log were given the same execution id. |
| `WorkflowTheorems.Fenced` | internal/workflow/memory_durable_store.go:189-229 | Over any further steps a stored checkpoint only gives way to one of a larger version, and a terminal one to none. |
| `WorkflowTheorems.OneCommitPerVersion` | internal/workflow/memory_durable_store.go:189-197 | Two accepted commits of one run happened at strictly increasing stored versions. |
| `WorkflowTheorems.TerminalIsFinal` | internal/workflow/memory_durable_store.go:73-99 | A checkpoint with a terminal status never changes again, whatever follows. |
| `WorkflowLeases.SingleFlight` | internal/workflow/memory_durable_store.go:73-174 | After a claim of a run was granted, by either operation, no later claim of it at a reading before its lease ends, as accepted renewals extended it, is granted, unless a commit of the run was accepted in between; whatever other workers do. |
| `WorkflowLeases.GrantedExactly` | internal/workflow/memory_durable_store.go:73-147 | In every reachable state a claim under a new token is granted if and only if its caller owns the run, names its version, the run is pending, or suspended on a wait the command answers in time, and no lease of the run is running. |
| `WorkflowLeases.RenewedExactly` | internal/workflow/memory_durable_store.go:149-174 | A renewal is accepted exactly from the owner with the token of a claim whose lease is still running. |
| `WorkflowLeases.CurrentIsPending` | internal/workflow/memory_durable_store.go:57-71 | In every reachable state `GetCurrentWait` finds a wait exactly while the run is suspended, and then the one it is suspended on. |
| `WorkflowLeases.CommitLeaves` | internal/workflow/memory_durable_store.go:176-233 | An accepted commit stores a checkpoint that decodes to the state the execution came to, its events behind those before, the answered wait resolved with the action and actor, and a pending wait if the run is suspended again; it ends the claim and touches no other run. |
| `WorkflowLeases.CommitAcceptedExactly` | internal/workflow/memory_durable_store.go:176-233 | In every reachable state a commit, of whatever checkpoint and events, is accepted if and only if it comes from the run's owner and claim within the lease, names the stored version, gives a valid later checkpoint with the events numbered on, answers the wait the run is suspended on if any, and does not reuse the last wait's id. |
| `WorkflowLeases.CreatedExactly` | internal/workflow/memory_durable_store.go:22-45 | Whatever run is to be created: it is made if and only if it names owner and key, is dated and valid, and key and id are free; a taken key gives back its run if and only if version, schema, data, budget and source are the same. |
| `WorkflowLeases.CreateLeaves` | internal/workflow/memory_durable_store.go:22-45 | A creation makes one run of the caller's that decodes to the state given, unclaimed and without events or waits; any other outcome changes nothing. |
| `WorkflowLeases.StartedOnce` | internal/workflow/memory_durable_store.go:28-38 | At most one run in every reachable state has a given owner, workflow and idempotency key. |
| `WorkflowLeases.StartRepeated` | internal/workflow/memory_durable_store.go:28-38 | A start repeated with the same input at any later time makes no second run; it finds the first if and only if that run still stores the data it was started with, and is a conflict once an execution has changed it. |
| `WorkflowInvariant.StepKeepsInv` | internal/workflow/memory_durable_store.go:22-233 | Every store operation, by any worker, keeps the coupling of runs, waits, claims and histories. |
| `WorkflowInvariant.ExecutedExtendsChain` | internal/workflow/durable_runtime.go:161-191 | Executing a claimed checkpoint with a new collector does what continuing the in-memory chain does, and its events are the contiguous batch behind the stored ones. |
| `WorkflowInvariant.StoredDecodes` | internal/workflow/durable.go:266-279 | Every stored checkpoint decodes to the state its history chains to. |
| `WorkflowCalls.StartIsSteps` | internal/workflow/durable_runtime.go:56-96 | `Start` as one call is exactly the create, claim and commit steps of the interleaved system. |
| `WorkflowCalls.ResumeIsSteps` | internal/workflow/durable_runtime.go:106-138 | `Resume` as one call is exactly the claim and commit steps of the interleaved system. |
| `WorkflowCalls.ResumeRefused` | internal/workflow/durable_runtime.go:106-138 | A resume by anybody but the owner, of a run not suspended, with a command that does not answer its wait in time, by an unknown actor, or of a wait that cannot be claimed fails and changes nothing. |
| `RuntimeSpec.CheckpointRoundTrip` | internal/workflow/durable.go:245-279 | A checkpoint that was written decodes to the state it was written from. |
| `RuntimeSpec.EncodeRefusal` | internal/workflow/durable.go:245-264 | Encoding a valid state succeeds if and only if the schema is named and the codec's output is non-empty and within the limit. |
| `RuntimeSpec.DecodeExactly` | internal/workflow/durable.go:266-279 | A checkpoint is read if and only if it is valid, of the codec's schema and the runtime's definition, and its data decodes. |
| `RunLog.ChainSettled` | internal/workflow/runner.go:54-186 | After any chain of `Run` and `Resume` calls with any nodes, clocks, contexts and commands, the state and its event log are settled: numbering, counts, prefix shape, distinct attempts, and never running. |
| `RunLog.ExecutionIDsDistinct` | internal/workflow/runner.go:130-132 | In a settled run no execution id is used twice. |
| `RunnerProofs.RunCommittable` | internal/workflow/runner.go:54-68 | `Run` leaves the state alone exactly when it refuses it; otherwise it ends in a valid state of a larger version that may be stored. |
| `RunnerProofs.ResumeCommittable` | internal/workflow/runner.go:70-108 | `Resume` leaves a refused state alone; otherwise it ends in a valid state that may be stored. |
| `RunnerProofs.EmitFits` | internal/workflow/event.go:65-80 | The collector never refuses an event of the run it collects for. |
| `RunnerProofs.CollectedExactly` | internal/workflow/event.go:65-80 | Whatever a collector was handed before, it takes an event if and only if the event is named and numbered behind every one of its run that it has. |
| `RunnerProofs.RunSame` | internal/workflow/runner.go:54-68 | Which events the collector already holds influences neither the state nor the new events of `Run`. |
| `RunnerProofs.ResumeSame` | internal/workflow/runner.go:70-108 | The same for `Resume`. |
| `RunnerJourney.ExecutionTells` | internal/workflow/runner.go:110-186 | For all nodes, clocks and contexts there are the inputs of the nodes called, in order from the starting one: the first has the run's data and the command, each further one the data the node before it answered, with the attempt and execution id of the run. The call completes with the last answer's data exactly when all nodes answered to go on, suspends with it on the wait answered, and otherwise ends with the last accepted data, and the status and code of what stopped or failed it. A fitting collector is told of exactly the start and the end of each node called, in order, with attempt, outcome, code, wait and duration. |
| `RunnerJourney.RunTells` | internal/workflow/runner.go:54-68 | So for `Run` of a new run, from the first node on; any other state is refused as it is. |
| `RunnerJourney.ResumeTells` | internal/workflow/runner.go:70-108 | So for `Resume`, from the suspended node on, exactly when the command answers the wait in time and neither budget is used up nor the context ended; otherwise the state is refused as it is. |
| `WorkflowRunner.Runner.ExecuteFrom` | internal/workflow/runner.go:110-186 | The node loop, with budgets, deadlines, failures and suspension, computes the specified outcome, observer included. |
| `WorkflowRunner.Runner.Run` | internal/workflow/runner.go:54-68 | Refuses states that are not fresh; otherwise the specified outcome. |
| `WorkflowRunner.Runner.Resume` | internal/workflow/runner.go:70-108 | The admission checks in order, then the specified outcome. |
| `WorkflowRunner.Runner.Emit` | internal/workflow/runner.go:230-242 | Numbers and hands over one event; a refusing observer fails the run. |
| `WorkflowRunner.Runner.NodeFailure` | internal/workflow/runner.go:209-219 | The failed event and the status its error code stands for. |
| `WorkflowCore.MemoryCollector.Observe` | internal/workflow/event.go:65-80 | Appends exactly the events that are valid and next in their run's order. |
| `WorkflowCore.ValidateResume` | internal/workflow/wait.go:82-96 | Accepts a command exactly when it names the wait, its version and hash, with an allowed action, before expiry. |
| `WorkflowCore.CheckWait` | internal/workflow/wait.go:43-67 | Validity of a wait, including that its actions are known and distinct. |
| `RunnerJourney.ValidExactly` | internal/workflow/wait.go:43-67 | A wait is valid if and only if it is named, of a known kind, not expired, and offers at least one action, only known ones and each once. |
| `WorkflowStore.MemoryDurableStore.CreateRun` | internal/workflow/memory_durable_store.go:22-45 | Creates, replays an equal request under the same key, or refuses; whole new contents given. |
| `WorkflowStore.MemoryDurableStore.ClaimRun` | internal/workflow/memory_durable_store.go:73-99 | Claims a pending run at a version, or refuses with the first failing check; whole new contents given. |
| `WorkflowStore.MemoryDurableStore.ClaimWait` | internal/workflow/memory_durable_store.go:101-147 | Claims the current wait with its run, or refuses; whole new contents given. |
| `WorkflowStore.MemoryDurableStore.RenewClaim` | internal/workflow/memory_durable_store.go:149-174 | Extends the run's claim and that of its processing wait together, or refuses. |
| `WorkflowStore.MemoryDurableStore.ValidateEvents` | internal/workflow/memory_durable_store.go:245-258 | Accepts exactly the contiguous batches. |
| `WorkflowStore.MemoryDurableStore.CommitExecution` | internal/workflow/memory_durable_store.go:176-233 | Commits checkpoint, events and waits together, or refuses with the first failing check; whole new contents given. |
| `WorkflowRuntime.DurableRuntime.Execute` | internal/workflow/durable_runtime.go:161-191 | Decode, run, encode and commit give the specified store and result. |
| `WorkflowRuntime.DurableRuntime.Start` | internal/workflow/durable_runtime.go:56-96 | Create, claim and execute give the specified store and result. |
| `WorkflowRuntime.DurableRuntime.Resume` | internal/workflow/durable_runtime.go:106-138 | Load, check the command, claim the wait and execute give the specified store and result. |
| `ReminderTheorems.DeliveriesFollowReminders` | internal/reminder/fake_repository.go:108-291 | In every reachable state a reminder has a delivery, and only one, exactly when it is processing, fired or failed, and the statuses of the two correspond exactly. |
| `ReminderTheorems.CompletionNeverConflicts` | internal/reminder/fake_repository.go:248-269 | The state-conflict branch of `CompleteDelivery` is unreachable. |
| `ReminderTheorems.EffectsAtMostOnce` | internal/reminderdelivery/runtime.go:119-213 | Under any interleaving of workers, crashes after delivery and takeovers, the adapter records at most one effect per reminder, and every fired reminder has one, with its own text. |
| `ReminderTheorems.RowVersionFixesValue` | internal/reminder/fake_repository.go:145-146 | At any two points of a run, equal row versions of a reminder mean equal content, fire time, references and status; versions never go back. |
| `ReminderTheorems.CommittedAsClaimed` | internal/reminder/fake_repository.go:202-219 | Whatever a dispatcher commits carries the claimed text, and was due when it was claimed. |
| `ReminderTheorems.ChangeDefeatsClaim` | internal/reminder/fake_repository.go:108-151 | After an update or cancellation, the commit of an earlier claim fails, however much later it is tried. |
| `ReminderTheorems.StaleCommitFails` | internal/reminder/fake_repository.go:202-219 | A claimed version that has passed without a commit never commits. |
| `ReminderEffects.CancelledForGood` | internal/reminder/fake_repository.go:108-151 | After an accepted cancellation, whatever follows, the reminder is cancelled, is in no batch of due reminders, and has no delivery and no recorded effect. |
| `ReminderEffects.UpdatedIsDelivered` | internal/reminder/fake_repository.go:108-151 | After an accepted update the reminder is still scheduled; until the next update made it has the new content, whatever follows, and when it has fired, that text was delivered. |
| `ReminderEffects.CreatedExactly` | internal/reminder/fake_repository.go:29-54 | A creation under a new key is accepted if and only if the id is new and the reminder names owner, text, time zone and source and, when scheduled, is due after its creation and within a year. |
| `ReminderEffects.CreateMade` | internal/reminder/fake_repository.go:29-54 | It stores the reminder as given and touches no other; a replay or a refusal changes nothing. |
| `ReminderEffects.CreateReplays` | internal/reminder/fake_repository.go:40-46 | A creation repeated under its key, at any later time, changes nothing and returns the first result for the same input, a conflict for another. |
| `ReminderEffects.ChangeReplays` | internal/reminder/fake_repository.go:108-151 | So does a repeated update or cancellation. |
| `ReminderEffects.MadeExactly` | internal/reminder/fake_repository.go:108-151 | A change is made if and only if the owner names a scheduled reminder at its current version under a key not used before, and new content is acceptable and due after the change. |
| `ReminderEffects.EndIsFinal` | internal/reminder/fake_repository.go:108-291 | A cancelled, fired or failed reminder keeps its status and content for good. |
| `ReminderEffects.RenewedExactly` | internal/reminder/fake_repository.go:187-200 | A claim is renewed if and only if the token holds it at the reminder's current version; only the end of the lease changes. |
| `ReminderEffects.OneDispatcher` | internal/reminder/fake_repository.go:153-219 | A reminder handed to a dispatcher is handed to no other at a reading before its lease ends, as renewed, whatever happens meanwhile. |
| `ReminderEffects.BatchClaims` | internal/reminder/fake_repository.go:153-185 | A batch claims exactly the scheduled, due reminders under no running lease, as many as the limit allows, the earliest first, and gives each the token and the lease. |
| `ReminderEffects.CommitMade` | internal/reminder/fake_repository.go:202-219 | A new occurrence is committed exactly for a scheduled reminder at the claimed version by its claimant within the lease; it hands the reminder over and makes one pending delivery of its text. |
| `ReminderEffects.OneWorker` | internal/reminder/fake_repository.go:221-291 | A delivery handed to a worker is handed to no other at a reading before its lease ends, unless the worker gave it back. |
| `ReminderEffects.BatchTakes` | internal/reminder/fake_repository.go:221-246 | A batch of work takes exactly the open, available deliveries under no running lease, as many as the limit allows, and counts an attempt of each. |
| `ReminderEffects.CompletedExactly` | internal/reminder/fake_repository.go:248-269 | In every reachable state a delivery is completed exactly by the holder of its claim, and its reminder is then fired; completing again changes nothing. |
| `ReminderEffects.FailedExactly` | internal/reminder/fake_repository.go:271-291 | A delivery is failed exactly by the holder of its claim: for good with its reminder, or to be taken again from the given time on. |
| `ReminderProofs.StepKeepsInv` | internal/reminder/fake_repository.go:29-291 | Every operation of users, dispatchers and workers keeps the coupling of reminders, deliveries, claims and recorded effects. |
| `ReminderRepository.FakeRepository.Create` | internal/reminder/fake_repository.go:29-54 | Creates, replays or refuses; whole new contents given. |
| `ReminderRepository.FakeRepository.Mutate` | internal/reminder/fake_repository.go:108-151 | Updates or cancels at the expected version, replays, or refuses; whole new contents given. |
| `ReminderRepository.FakeRepository.ClaimDue` | internal/reminder/fake_repository.go:153-185 | Claims the earliest due and unclaimed reminders, ties by id, up to the limit; whole new contents given. |
| `ReminderRepository.FakeRepository.RenewClaim` | internal/reminder/fake_repository.go:187-200 | Extends the lease of the holder at the claimed version only. |
| `ReminderRepository.FakeRepository.CommitOccurrence` | internal/reminder/fake_repository.go:202-219 | Turns a claimed reminder into a delivery, replays, or refuses; whole new contents given. |
| `ReminderRepository.FakeRepository.ClaimDeliveries` | internal/reminder/fake_repository.go:221-246 | Takes available deliveries, lapsed ones included, in id order up to the limit; whole new contents given. |
| `ReminderRepository.FakeRepository.CompleteDelivery` | internal/reminder/fake_repository.go:248-269 | Completes the holder's delivery and fires its reminder, or refuses; whole new contents given. |
| `ReminderRepository.FakeRepository.FailDelivery` | internal/reminder/fake_repository.go:271-291 | Requeues or ends the holder's delivery, failing its reminder in the latter case; whole new contents given. |
| `ReminderDelivery.Dispatcher.Tick` | internal/reminderdelivery/runtime.go:39-71 | A tick is a sequence of system steps; it claims batches until one is short or the maximum is reached, commits every reminder it claimed unless it returns an error, and returns how many commits succeeded, those that find their occurrence recorded included. |
| `ReminderDelivery.Worker.Tick` | internal/reminderdelivery/runtime.go:170-213 | A tick is a sequence of system steps; unless it returns an error it takes batches until one is short or the maximum is reached and handles every delivery taken in order: delivers, then completes it if adapter and hook succeeded, else fails it, for good when not retryable or out of attempts; it returns how many it completed. |
| `ReminderDelivery.RecordingAdapter.Deliver` | internal/reminderdelivery/runtime.go:119-132 | Records an effect only for a key not seen before and returns the recorded result otherwise. |
| `MemoryTheorems.RecordsRun` | internal/memory/domain.go:108-121 | Over any operations a record keeps its content and lineage, its net status change is allowed, an obsolete record never changes again, and a row version stands for one value. |
| `MemoryEffects.StoredIsSound` | internal/memory/domain.go:170-199 | Every record in every reachable state has an owner, names, versions, text and hash, the scope and expiry of its layer, is never of the working layer, and carries fractions as confidence and salience. |
| `MemoryTheorems.SuccessorIsFinal` | internal/memory/fake_repository.go:118-264 | A record that has a successor keeps it, and itself, for good. |
| `MemoryTheorems.ChainEnds` | internal/memory/fake_repository.go:162-254 | In every reachable state following successors from any record ends, meets no record twice, and stays within the owner's existing records. |
| `MemoryTheorems.SuccessorsStayInLineage` | internal/memory/fake_repository.go:225-264 | As long as no mutation supersedes its targets itself, every successor in every reachable state, whatever set it, is a strictly later version of the same lineage. |
| `MemoryTheorems.ActivationStaysInLineage` | internal/memory/fake_repository.go:225-264 | Without that condition: whatever operations come before and after an accepted activation, the superseded record has the candidate as successor for good, and the candidate is a strictly later version of the same lineage. |
| `MemoryTheorems.EqualVersionsEqualRecords` | internal/memory/fake_repository.go:286-293 | At two points of a run with the same mutation version of an owner, the owner's records are identical. |
| `MemoryTheorems.MutationReplays` | internal/memory/fake_repository.go:118-134 | Repeating a mutation that succeeded, at any later time, changes nothing and returns the first result; another input under its key is a conflict. |
| `MemoryTheorems.TransitionReplays` | internal/memory/fake_repository.go:191-204 | The same for transitions. |
| `MemoryTheorems.ActivationReplays` | internal/memory/fake_repository.go:225-242 | The same for activations. |
| `MemoryEffects.ActivatedExactly` | internal/memory/fake_repository.go:225-248 | An activation under a new key is accepted if and only if candidate and target are the owner's, at the versions given, candidate and active, and the candidate names the target and is a later version of its lineage. |
| `MemoryEffects.ActivationMade` | internal/memory/fake_repository.go:249-264 | It makes the candidate active and the target superseded by it, each one row version on, queues the candidate's pending outbox row, and changes no other record or row. |
| `MemoryEffects.ActivationHolds` | internal/memory/fake_repository.go:225-264 | After it, whatever follows, the candidate is active or obsolete, never a candidate again, and the target stays superseded by it. |
| `MemoryEffects.TransitionMade` | internal/memory/fake_repository.go:205-223 | A transition moves its record to the status asked for, one version on, queues it if it became active, and changes nothing else. |
| `MemoryEffects.TransitionedExactly` | internal/memory/fake_repository.go:191-210 | A transition under a new key is accepted if and only if the record is the owner's, at the version given, and may move to the status. |
| `MemoryEffects.MutatedExactly` | internal/memory/fake_repository.go:118-170 | A mutation under a new key is accepted if and only if its new record is valid, new and the owner's, every target may move as asked, and an active record's slot is free or freed by superseding its holder. |
| `MemoryEffects.MutationMade` | internal/memory/fake_repository.go:171-189 | It stores the new record as given, moves every target as asked, with the new record as successor where superseded, queues an active record, and changes nothing else. |
| `MemoryEffects.SlotHeldOnce` | internal/memory/fake_repository.go:156-170 | A mutation leaves no second active record in the slot of the active record it adds. |
| `MemoryEffects.ExpiryMade` | internal/memory/fake_repository.go:266-284 | An expiry takes only the owner's open records whose time has come, all or as many as a positive limit allows, and changes nothing else. |
| `MemoryEffects.ProjectionsClaimed` | internal/memory/fake_repository.go:326-343 | A claim takes only waiting, available rows, all or as many as the limit allows, and counts an attempt of each. |
| `MemoryEffects.AnsweredExactly` | internal/memory/fake_repository.go:33-87 | An exact query answers only the owner's active records it names; one it leaves out is no newer than any it answers, and the answer is full. |
| `MemoryTheorems.ActiveIsQueued` | internal/memory/fake_repository.go:176-180 | Every active record, in every reachable state, has an outbox row for its owner, id, content hash and projection version. |
| `MemoryTheorems.ProjectionIDInjective` | internal/memory/fake_repository.go:29-31 | A row's key fixes its owner, record and hash, whatever ids and versions contain. |
| `MemoryProofs.StepKeeps` | internal/memory/fake_repository.go:118-382 | Every operation keeps the invariant and changes only its owner's records, each by one allowed step. |
| `MemoryRepository.FakeRepository.CommitMutation` | internal/memory/fake_repository.go:118-189 | All targets and the new record together, a replay, or the first refusal; whole new contents given. |
| `MemoryRepository.FakeRepository.TransitionMemory` | internal/memory/fake_repository.go:191-223 | One status change with its outbox row, a replay, or a refusal; whole new contents given. |
| `MemoryRepository.FakeRepository.ActivateCandidateSuperseding` | internal/memory/fake_repository.go:225-264 | Activation and supersession together, a replay, or a refusal; whole new contents given. |
| `MemoryRepository.FakeRepository.Expire` | internal/memory/fake_repository.go:266-284 | Expires due records, in no fixed order: all of them, or exactly as many as a positive limit allows. |
| `MemoryRepository.FakeRepository.ClaimProjections` | internal/memory/fake_repository.go:326-343 | Claims claimable rows, in no fixed order: all of them, or exactly as many as the limit allows, each once. |
| `MemoryRepository.FakeRepository.CompleteProjection` | internal/memory/fake_repository.go:357-367 | Completes a row of the owner. |
| `MemoryRepository.FakeRepository.FailProjection` | internal/memory/fake_repository.go:369-382 | Sends a row of the owner back, or ends it. |
| `MemoryRepository.FakeRepository.FindExact` | internal/memory/fake_repository.go:33-87 | The owner's active records a query selects, newest first and then by id, up to the limit. |
| `MemoryRepository.FakeRepository.BatchGet` | internal/memory/fake_repository.go:106-116 | The owner's records among the ids, in their order. |
| `ProjectorSystem.AttemptsBounded` | internal/memory/projector.go:46-105 | Over any batches, crashes and memory operations in between, no row is claimed more often than MaxAttempts, and one that has used them up is never claimable again. |
| `ProjectorSpec.DelayBounds` | internal/memory/projector.go:107-118 | The delay is positive, at most the maximum and monotone; it is min(max, base * 2^(attempt-1)), except exactly one more when the maximum is odd and one above the doubled delay. |
| `ProjectorEffects.BatchLeaves` | internal/memory/projector.go:46-105 | After a batch every claimed row is completed, failed to be claimed again after the delay, or failed for good, exactly as its own answer, attempts and the record it names say, is counted accordingly, and no other row and no record changed. |
| `ProjectorEffects.HandledExactly` | internal/memory/projector.go:54-99 | The same for one row; handling a row of its owner is never refused. |
| `MemoryProjector.Projector.Backoff` | internal/memory/projector.go:107-118 | The doubling loop computes that delay; each value it takes on the way is positive and at most the maximum, and is twice the one before or the maximum. |
| `MemoryProjector.Projector.HandleOne` | internal/memory/projector.go:54-99 | Version mismatch, failed reload, stale row, success and failure each take their branch; store and outcome given. |
| `MemoryProjector.Projector.RunBatch` | internal/memory/projector.go:46-105 | A batch that ends without an error has handled every claimed projection in order and counted each once by its outcome, so Claimed = Indexed + Skipped + Failed + PermanentFailed; one that ends with an error has handled and counted exactly those before the projection the store refused. |
| `RecallTheorems.RankingOrderIrrelevantExactly` | internal/memory/recall.go:330-404 | The ranked list is the same for every order and repetition of the (record, source, score) additions, and for any map order, if and only if all additions that name a record saw the same value of it. |
| `RecallTheorems.OrderIrrelevantExactly` | internal/memory/recall.go:330-342 | The same for the merged candidates; where the condition fails, already two permutations of the additions give different candidates. |
| `RecallOrder.GatheringAgrees` | internal/memory/recall.go:103-328 | What a recall gathers from one store by pinned references, plan or direct query and search pages meets that condition, when records are filed under their own ids. |
| `RecallOrder.ReachableOwnIDs` | internal/memory/fake_repository.go:118-284 | In every reachable memory store, records are filed under their own ids. |
| `RecallOrder.RecallOrderIrrelevant` | internal/memory/recall.go:190-226 | So meeting a recall's own additions in any other order, or any of them more often, gives the same candidates, items and context. |
| `RecallTheorems.MergeIsBest` | internal/memory/recall.go:330-342 | A candidate carries the best source and the best score among the additions that named it, and is exact unless only the semantic search found it. |
| `RecallTheorems.RankedUnique` | internal/memory/recall.go:387-404 | The ranking is a strict total order, so the candidates have one ranked list. |
| `RecallTheorems.ItemsAdmissible` | internal/memory/recall.go:190-226 | Every returned item is the owner's, active and in scope, with the best source and score gathered for it. |
| `RecallTheorems.LeftOutDidNotFit` | internal/memory/recall.go:207-220 | An item the budget leaves out would not have fitted behind those taken before it. |
| `RecallEffects.ReturnedExactly` | internal/memory/recall.go:196-220 | A ranked candidate is returned if and only if it stands among the first `target` and fits into the budget behind those before it; items are returned most exact, then most trusted, most salient, newest first. |
| `RecallEffects.ContextExactly` | internal/memory/recall.go:207-222 | The context is the returned records' texts, one behind the other in order, each between markers that name the record and call it untrusted. |
| `RecallEffects.RequestExactly` | internal/memory/recall.go:103-127 | A request is taken if and only if owner, query and scope are valid, target and budget, where given, are within the configured bounds, at most 32 references are pinned, and a plan can be normalised. |
| `RecallEffects.ReasonExactly` | internal/memory/recall.go:190-195 | A recall with fewer candidates than asked for reports that results ran out when nothing else was to report; any other reason stands. |
| `RecallEffects.MergedExactly` | internal/memory/recall.go:330-342 | A candidate has a value, the most exact source and the highest score of the additions that name it. |
| `RecallEffects.PinnedExactly` | internal/memory/recall.go:228-254 | A pinned reference adds a record if and only if the last reference to it still describes it and it is the owner's, active and visible in the scope. |
| `RecallEffects.QueryExactly` | internal/memory/recall.go:141-187 | A query adds exactly the stored records it wants, unless its answer is full, and then none newer is left out. |
| `RecallEffects.WantedExactly` | internal/memory/recall.go:141-187 | What the request itself, and each selector of a plan, wants, and as found by which source. |
| `RecallEffects.PlanExactly` | internal/memory/recall.go:141-173 | A plan asks selector after selector, all of them or the least that find enough candidates. |
| `RecallEffects.DirectExactly` | internal/memory/recall.go:174-187 | Without a plan the request's own query is added, as found by the entity, else the slot, else the hash. |
| `RecallEffects.PageExactly` | internal/memory/recall.go:279-318 | An entry of a page is added with its score exactly when its record is found, active and visible. |
| `RecallEffects.PageCounted` | internal/memory/recall.go:279-318 | Every entry of a page is counted once: added, unknown or obsolete. |
| `RecallEffects.UnseenExactly` | internal/memory/recall.go:282-292 | The entries looked at are those of the page not met before, each once. |
| `RecallEffects.AddedOnce` | internal/memory/recall.go:279-318 | However often the search names a record, on one page or on several, it is looked at and added once. |
| `RecallSearch.GatheredExactly` | internal/memory/recall.go:190-328 | Beside what references and queries add, a recall in semantic mode adds exactly the owner's active and visible records that the pages read name, each once with the score of its first entry; the pages read are those the client answers in turn, up to one without a further page, a bound, a failure or enough candidates. In exact mode it reads none. |
| `RecallEffects.ScanEnds` | internal/memory/recall.go:256-328 | The search goes on page after page and ends only with enough candidates, at a bound, on a failure or without a further page, with the reason that says which. |
| `MemoryRecall.RecallService.Recall` | internal/memory/recall.go:103-226 | Refuses exactly the requests with a bad owner, query, scope, target, budget, plan or reference; answers an unexecutable plan with the request for clarification; otherwise what is gathered is exactly what pinned references, queries and search pages add, the result is its ranking cut to target and budget, items + Dropped = candidates, Truncated exactly when Dropped > 0, the context within the budget, and HadSelector, Scanned, the filter counts and the degradation reason are given; Scanned stays within MaxScanned when pages respect their limit. |
| `MemoryRecall.RecallService.LoadSemantic` | internal/memory/recall.go:256-328 | Reads page after page exactly as specified: additions, counts and the reason it ends; Scanned within its bound for pages within their limit. |
| `MemoryRecall.RecallService.LoadPinned` | internal/memory/recall.go:228-254 | Adds exactly the pinned records that still match their references and are active and in scope, counts the others, and refuses exactly the malformed requests. |
| `MemoryRecall.RecallService.LoadQueries` | internal/memory/recall.go:136-187 | Adds exactly what the plan's selectors answer, in order until there are enough candidates, or what the direct query answers; fails exactly on the queries the store refuses. |
| `Ordering.BatchUnique` | internal/memory/fake_repository.go:77-85 | An ordered, limited answer is determined by what is selected, so map order does not matter. |
| `MemoryRecall.RecallService.AddCandidate` | internal/memory/recall.go:330-342 | Merges one addition into the candidates. |
| `MemoryRecall.RecallService.Rank` | internal/memory/recall.go:387-404 | All the candidates, in order. |
| `MemoryRecall.RecallService.Cut` | internal/memory/recall.go:196-220 | Cuts to the target and then the budget, counting what is left out. |
| `CaptureProofs.ActivatedAfterApproval` | internal/memoryworkflow/capture.go:288-480 | A capture run makes a record active only as its candidate, after an approve command for exactly the record's content hash was accepted for that run, whatever edits, crashes and other users came before. |
| `CaptureProofs.EarlierCandidatesRejected` | internal/memoryworkflow/capture.go:343-386 | However often a run is edited, every candidate but the last is rejected, for good. |
| `CaptureProofs.CreateEffect` | internal/memoryworkflow/capture.go:396-422 | Creating a candidate activates nothing, and rejects the one it replaces unless the same execution had done so. |
| `CaptureProofs.DecisionCommitted` | internal/memoryworkflow/capture.go:435-480 | Committing a decision activates at most the approved candidate. |
| `CaptureProofs.EditKeyInjective` | internal/memoryworkflow/capture.go:421-421 | An edit's idempotency key fixes its run and its place in the run. |
| `CaptureEffects.DecisionTakesEffect` | internal/memoryworkflow/capture.go:288-480 | When an approve or reject command is resumed with and what was reviewed still stands, at the review and later at the commit, whatever else changed in between, the two nodes leave exactly that candidate active or rejected as the action says, the policy's target superseded by it on approval, an approved candidate queued, and no other record changed. |
| `CaptureEffects.ReviewGoesOnExactly` | internal/memoryworkflow/capture.go:317-349 | The review node goes on with a decision if and only if every reference still stands and the candidate is as reviewed or as an earlier execution of the same decision left it; it leaves the store alone. |
| `CaptureEffects.DecidedAgain` | internal/memoryworkflow/capture.go:288-480 | Executing both nodes again after the decision was stored changes nothing and gives the first result if and only if the decision was not an approval that superseded a memory; then the commit node fails, because the memory is no longer active. |
| `CaptureEffects.FirstPutUp` | internal/memoryworkflow/capture.go:313-319 | The first execution stores the draft as a new candidate of its own lineage or behind the policy's target, asks for exactly it, and changes no other record. |
| `CaptureEffects.EditPutUp` | internal/memoryworkflow/capture.go:350-384 | An accepted edit rejects the reviewed candidate, stores the edited draft in its place one lineage version on, asks for exactly it, and keeps the new policy and references. |
| `CaptureEffects.KeptMemory` | internal/memoryworkflow/capture.go:300-312 | Under a policy that keeps the memory there is, the run goes on with it if and only if it is the owner's and active, and stores nothing. |
| `MemoryCapture.CaptureNodes.Review` | internal/memoryworkflow/capture.go:288-395 | First execution, approval, rejection and edit give the specified store and output. |
| `MemoryCapture.CaptureNodes.CreateCandidate` | internal/memoryworkflow/capture.go:396-422 | The candidate's lineage, what it supersedes and the rejected target, under the policy before the edit. |
| `MemoryCapture.CaptureNodes.Commit` | internal/memoryworkflow/capture.go:435-480 | Activation, transition or no-op by decision and policy. |
| `MemoryCapture.CaptureNodes.Reload` | internal/memoryworkflow/capture.go:524-553 | Succeeds exactly when every referenced record is still active and unchanged. |
| `ChatTheorems.NoGapNoDuplicate` | internal/platform/httpserver/server.go:285-320 | Across any reconnects at the last number received, what a client received is the stretch of the log right behind where it first asked: no gap, no duplicate, in order. |
| `ChatProofs.LastIDIsPosition` | internal/platform/httpserver/server.go:331-341 | The last number a client received is its position in the log, so a reconnect resumes where receiving stopped. |
| `ChatTheorems.NoLostWakeup` | internal/chat/service.go:303-327 | A stream parked after a short page while its run has an unsent event has its channel closed, or a writer between append and notify, or one about to close it. |
| `ChatTheorems.FullPageMayPark` | internal/platform/httpserver/server.go:285-320 | The short page is needed: for every unfinished run with more than a page of events there is a history in which a stream of it parks after a full page with unread events, its channel open, no writer before its notification and none about to close the channel. |
| `ChatTheorems.RoundDelivers` | internal/platform/httpserver/server.go:285-320 | One undisturbed round of a stream sends exactly the next page of its run's log, then leaves if the run has ended and parks otherwise. |
| `ChatTheorems.ParkedGoesOn` | internal/platform/httpserver/server.go:285-320 | A parked stream goes round again behind what it has sent when its channel is closed or a heartbeat was written, and ends when the heartbeat fails or the client leaves. |
| `ChatTheorems.NeverPanics` | internal/chat/notifier.go:35-43 | No channel is closed twice. |
| `ChatTheorems.OnlyOwnersReceive` | internal/chat/memory_repository.go:199-207 | Only the owner of the run's session holds a stream of it. |
| `ChatTheorems.OneActiveRun` | internal/chat/memory_repository.go:85-89 | A session has at most one run that has not ended. |
| `ChatTheorems.TerminalIsFinal` | internal/chat/memory_repository.go:161-197 | A run that has ended stays exactly as it ended. |
| `ChatProofs.StepKeepsInv` | internal/chat/notifier.go:14-43 | Every step of writers, streams and clients keeps logs, channels, deliveries and pending wake-ups consistent. |
| `ChatSpec.NewerIsSuffix` | internal/chat/memory_repository.go:210-219 | On a numbered log the events after a number are the stretch right behind it. |
| `ChatLog.ApplyKeeps` | internal/chat/memory_repository.go:72-197 | Every write keeps logs numbered, append-only and per run, sessions with their owners, and at most one active run; a refused one changes nothing. |
| `ChatEffects.CreatedExactly` | internal/chat/memory_repository.go:72-100 | A run is created if and only if the caller owns the session, the key is new and no run of the session is unfinished, with its queued event and message; a known key answers its run, and nothing else changes anything. |
| `ChatEffects.StartedExactly` | internal/chat/memory_repository.go:116-131 | Exactly a queued run starts: it is running, and its log has the event more. |
| `ChatEffects.AppendedExactly` | internal/chat/memory_repository.go:133-140 | An event is appended exactly to a known run, next in order, and to no other log. |
| `ChatEffects.CompletedExactly` | internal/chat/memory_repository.go:142-159 | Exactly a running run completes, with its event and the answer as the session's next message. |
| `ChatEffects.FailedExactly` | internal/chat/memory_repository.go:161-176 | Exactly an unfinished run fails, with the status, code and event given. |
| `ChatEffects.CancelledExactly` | internal/chat/memory_repository.go:178-197 | Exactly the owner of its session cancels an unfinished run, with its event. |
| `ChatEffects.PageExactly` | internal/chat/memory_repository.go:199-220 | The owner, and nobody else, gets the stretch of the log right behind the number, up to the limit. |
| `ChatRepository.MemoryRepository.CreateRun` | internal/chat/memory_repository.go:72-100 | Creates a run with its message and queued event, replays, or refuses; whole new contents given. |
| `ChatRepository.MemoryRepository.StartRun` | internal/chat/memory_repository.go:116-131 | Queued to running with its event, or a refusal. |
| `ChatRepository.MemoryRepository.AppendEvent` | internal/chat/memory_repository.go:133-140 | Appends the next event of a run. |
| `ChatRepository.MemoryRepository.CompleteRun` | internal/chat/memory_repository.go:142-159 | Running to completed with message and event, or a refusal. |
| `ChatRepository.MemoryRepository.FailRun` | internal/chat/memory_repository.go:161-176 | Ends a run that has not ended, or refuses. |
| `ChatRepository.MemoryRepository.CancelRun` | internal/chat/memory_repository.go:178-197 | Cancels the owner's run, or refuses. |
| `ChatRepository.MemoryRepository.ListEvents` | internal/chat/memory_repository.go:199-220 | The first events after a number, up to the limit; all of them when the limit is zero or less. |
| `ChatRepository.MemoryRepository.InterruptRunning` | internal/chat/memory_repository.go:222-234 | Every run that had not ended is interrupted with one more event, each at its own reading of the clock; ended runs, sessions, messages and idempotency keys are untouched, and the invariant is kept. |
| `ChatNotifier.Notifier.Subscribe` | internal/chat/notifier.go:14-19 | A new open channel, last in the run's list. |
| `ChatNotifier.Notifier.Unsubscribe` | internal/chat/notifier.go:20-32 | Takes the channel out of its list and nothing else. |
| `ChatNotifier.Notifier.Notify` | internal/chat/notifier.go:35-43 | Closes exactly the channels that waited, each of them open until then. |
| `CacheTheorems.SingleFlight` | internal/dailyreview/cache.go:122-146 | After a claim returned Generator, no later claim of the slot before its lease ends does, whatever happens in between, unless the holder committed or failed. |
| `CacheTheorems.AcceptedOnce` | internal/dailyreview/cache.go:147-179 | Of each token at most one commit or failure is ever accepted. |
| `CacheTheorems.TakeoverFences` | internal/dailyreview/cache.go:134-145 | A takeover makes the earlier token worthless for good. |
| `CacheTheorems.ResolvesSpends` | internal/dailyreview/cache.go:147-179 | A commit or failure is accepted only by the token now current, and spends it. |
| `CacheTheorems.LookupWasCommitted` | internal/dailyreview/cache.go:113-164 | Every result a lookup returns is unexpired and was committed for its slot by the then-current token no later than its lease end. |
| `CacheEffects.CommittedIsFound` | internal/dailyreview/cache.go:113-164 | The result an accepted commit stored is found by every lookup and claim of the slot before its validity ends, whatever else happens, if no sweep and no claim of the slot reads the clock past that. |
| `CacheEffects.FailureFrees` | internal/dailyreview/cache.go:122-179 | After an accepted failure the next claim of the slot generates again, at any reading. |
| `CacheEffects.ClaimedExactly` | internal/dailyreview/cache.go:122-146 | A claim makes its caller the generator if and only if there is neither a valid result nor a running lease. |
| `CacheEffects.CommittedExactly` | internal/dailyreview/cache.go:147-164 | A commit is accepted if and only if the result is acceptable and the token current, within the lease; it stores the result and its validity. |
| `CacheEffects.FailedExactly` | internal/dailyreview/cache.go:165-179 | A failure is accepted if and only if the token is current. |
| `CacheEffects.SweptExactly` | internal/dailyreview/cache.go:180-195 | A sweep removes only resolved records whose validity and lease are over: all, or as many as the limit allows. |
| `CacheSweeps.SweepsUnobservable` | internal/dailyreview/cache.go:113-195 | Any history of lookups, claims, commits, failures and sweeps is answered as the same history without its sweeps, as long as nobody reads a clock behind an earlier sweep's: same results, same generators, tokens and leases, same commits and failures accepted. Only what a takeover inherits may differ (id, slot, creation time and error code, and the old result and validity while generating). |
| `CacheTheorems.SweepUnobservable` | internal/dailyreview/cache.go:180-195 | The next lookup after a sweep returns the very same record, and the next claim generates in the same cases and otherwise returns the very same record; generating and still-valid records survive a sweep. |
| `CacheTheorems.LookupFindsOwnExactly` | internal/dailyreview/cache.go:110-146 | For a slot of a valid owner: in no history does a lookup meet another slot's record if and only if the logical key has no colon behind its first character and the source fingerprint none before its last. |
| `CacheTheorems.LookupMeetsOwner` | internal/dailyreview/cache.go:113-121 | In every reachable state the record at a slot's key is of the slot's owner, so the owner test never fails. |
| `CacheTheorems.MapKeyOwnExactly` | internal/dailyreview/cache.go:110-112 | A slot shares its map key with no other if and only if neither its logical key nor its source fingerprint holds a colon; the digests the review workflow passes hold none. |
| `ReviewCache.MemoryCache.Lookup` | internal/dailyreview/cache.go:113-121 | The slot's ready and unexpired record. |
| `ReviewCache.MemoryCache.Claim` | internal/dailyreview/cache.go:122-146 | Answers from a fresh or leased record, or grants a new or taken-over claim; whole new contents given. |
| `ReviewCache.MemoryCache.CommitReady` | internal/dailyreview/cache.go:147-164 | Makes the holder's record ready, or refuses; independent of map order. |
| `ReviewCache.MemoryCache.FailClaim` | internal/dailyreview/cache.go:165-179 | Fails the holder's record, or refuses; independent of map order. |
| `ReviewCache.MemoryCache.CleanupExpired` | internal/dailyreview/cache.go:180-195 | Removes expired records: all, or exactly as many as a limit allows. |
| `Basics.KeyedInjective` | internal/workflow/runner.go:130-132 | A "prefix:number" key fixes prefix and number. |

## Left out

- The SQL stores, HTTP handlers other than the event stream, authentication, the RAG client, agents, configuration and the web UI: input, output and wiring.
- Codecs, hashes, regular expressions and text normalisation: abstract functions, as listed above.
- Router and matcher tables, the taxonomy and draft normalisers, the drafts and notes services: branch tables with only shallow properties.
- Causes and messages of workflow errors: errors carry their code and node only.
- `Worker.backoff` of the reminder worker (floating-point power): an arbitrary function of the attempt in `ReminderDelivery.Worker.Tick`. Delivery attempts have no bound in the code, since takeovers count too.
- Fairness and liveness: the lost-wakeup result is the safety form only. After a full page a stream may park with unread events and no wake-up due until the heartbeat (`ChatTheorems.FullPageMayPark`).
- That a stream has sent the terminal event when it closes: the code reads the status after the page, so it need not have. `ChatTheorems.NoGapNoDuplicate` covers what a reconnecting client then receives.
- Slot uniqueness over all memory operations: `TransitionMemory` and candidate activation do not check it.
- Release of daily-review claims by the review workflow: a deadline after the claim node drops the claimed state, so it does not hold.
- The clean-up, list and metric operations of the repositories other than those modelled, and `List` of reminders with its cursor.
- The cancel functions of the chat service's `execute` and the contents of its agent stream: a writer is any sequence of the log operations, each followed by its notification.
- The reminder command workflow above `Create`, `Update` and `Cancel`.
- The extract, lookup and conflict nodes of the capture workflow: their results are arbitrary inputs of the review node.
- MemoryCapture.CaptureNodes.Review: states the node with nobody in between its store calls. `CaptureSystem` separates what a worker last read from what it writes to, so other users and workers may act in between; within the node all reads see one such view.
- MemoryCapture.CaptureNodes.Reload: fetches the referenced records one by one, where the code fetches them together.
- MemoryProjector.Projector.RunBatch: states a batch with nobody in between. `ProjectorSystem` interleaves single outcomes, crashes and memory operations.
- MemoryRecall.RecallService.Recall: states a recall over a store nobody changes meanwhile. `RecallTheorems` speaks of any additions, so of reads from different moments too.
- MemoryRecall.RecallService.Rank: `rankMemory`'s floating-point score is not modelled; the code does not sort by it.
- MemoryRepository.FakeRepository.FindExact: leaves out selection by pinned references, which no modelled caller uses, and gives the order as that of the creation time and id; the library sort is replaced by repeated selection, as in `Ordering.TakeBatch`.
- ReviewCache.MemoryCache.Claim: the token is a parameter that names no record; the random source failing is not modelled.
- WorkflowRuntime.DurableRuntime.Execute: a codec or clock that panics, and cancellation of a store call, are not modelled.
- CaptureProofs.EarlierCandidatesRejected: speaks of committed checkpoints. A candidate created by an execution that never committed stays a candidate until another execution of the same attempt finds it or someone expires it.
