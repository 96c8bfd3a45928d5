# Verified model of the durable run engine

This project models the parts of the Ouvrier runtime that must stay correct while
processes crash, leases move and messages are redelivered, and proves properties of that
model with Dafny. `dafny verify dfyconfig.toml` checks everything.

## What is modelled

**The durable run engine** (`Engine.dfy`). One execution as a step machine: the shared
store (lease row, execution status, journal, checkpoints, tool intents, approvals, trigger
key), any number of legs (the live run, recovery replays, approved resumes) and the
environment. An action is one store call, or the local work between two store calls; an
action that is not enabled changes nothing, so a run is any finite sequence of actions.
A log records what the legs do, and the theorems speak of the log and the store of every
run. The actions and the code they stand for:

- `Tick`, `Crash`: time and crash-stop failures; `Beat`: the background renewer (durable_recovery.go:91-107)
- `StartRun`, `AcquireLease`, `WriteJournal`: the entry of a live run (http_runtime.go:174-219)
- `Scan`, `Claim`, `Decide`: journal scan, fenced claim, replay policy (durable_recovery.go:339-477); with `force`, the operator's entry (routes_admin_runs.go:132-228)
- `FailRun`, `PruneRun`: failing and abandoning a run (durable_recovery.go:582-603)
- `BeginStep`, `BeginCall`, `EndCall`, `EndStep`, `FailStep`, `EndLoop`: the step loop with checkpoints and intents (http_runtime.go:460-640, internal/tools/executor.go:257-271)
- `Gate`, `Suspend`, `Approve`, `Deny`, `Resume`: approvals and the in-memory continuation (runtime_http_resume.go:101-225)
- `Confirm`, `BeginTerminal`, `EndTerminal`, `Settle`, `StopRenewer`, `Prove`: ownership proofs around the terminal (http_runtime.go:227-274, durable_recovery.go:674-697)
- `ResolveKey`, `Emit`, `Save`, `PruneJournal`, `ReleaseLease`, `Sweep`: the finish (http_runtime.go:334-410)
- `OtherReserves`: another execution takes over a failed trigger key (internal/state/memory_store.go:135-157)

The theorems about this machine: `EngineTransparency` (values, checkpoints, refusals,
namespaces), `EngineLeases` (ownership and the proof before Completed), `EngineEvidence`
(keys, outcomes, prunes), `EngineOnce` (no effect twice, if every decision is sheltered),
`EngineEffects` (guards on the stored rows that shelter it), `EngineReplay` (what a
decision can repeat, exactly) and `EngineTerminals` (the same on the plan's own terminal:
what reaches out, which row it leaves, what that row holds back). `EngineOwnership` says
how long a lease is kept, `EngineLegs` that legs only go forward, `EngineStatus` and
`EngineApprovals` what moves a status and when a parked run can still continue,
`EngineProgress` that live, crashed, refused and approved runs can be taken to their end,
and `EngineEndings` how failures are settled. `EngineStaleClaim` and `EngineReusedCall` are the runs in
which the code decides unsheltered. Beside the machine stand the imperative forms:
`Recovery` and `AdminRecover` (replay policy), `RunLoop` (step loop, resume closure,
finish, registry), `Leases` (the lease store) and `Heartbeat` (the held lease);
`EngineRefinement` shows that runs of the step loop, the resume closure and the finish
are sequences of the engine's actions.

**The plan fingerprint** (`Plans`, `PlanHash`, `PlanHashWriter`, `Namespaces`). The
length-prefixed stream over a plan tree of unbounded nesting is proved injective, and so
are the idempotency namespaces derived hop by hop. SHA-256 with hex rendering is a
parameter, assumed free of collisions where a result needs it.

**Cron** (`CronLeaders`, `CronTerms`, `CronSchedules`, `CronFields`, `CronTexts`). Any
number of replicas as followers and leaders over one lease row and the fire keys;
epoch-aligned ticks in int64 arithmetic; the five-field parser with Go's wrap-around; the
search for the next minute over a calendar given as functions; and the grammar of the
texts, with what they tell and what is refused, given without the parser.

**Stream** (`Stream`, `StreamKeys`, `StreamTrace`). One delivery with its retry budget,
acks and dead-lettering, the dead-letter queue and its replay; the reservation of message
keys; and both together, any number of deliveries counted, reserved, run and answered in
any interleaving.

**Composition and compiler** (`Composition`, `Compiler`, `CompilerErrors`). The
semaphore-bounded fan-out with all its schedules, and the node-sequence compiler against
the grammar it accepts and the first dead end that it reports.

**Wire formats** (`Resp`, `Sse`). The Redis serialization protocol writer and recursive
reader, and server-sent event frames against the event stream interpretation of the
WHATWG HTML Living Standard, section 9.2.6.

## Where the code is weaker than its comments

- An intent row is keyed by its call id and re-opened by it (internal/tools/intent.go:84-90,
  internal/state/memory_journal.go:99-119), and two adapters number the calls of every
  response from zero (internal/provider/gemini_response.go:57-61,
  internal/provider/ollama_native_response.go:18-20). An idempotent call in a later turn of
  a step then hides the side effect of an earlier one, and recovery repeats it:
  `EngineReusedCall.ReusedCallIdRepeats`, and `EngineEffects.DistinctCallsSuffice` for the
  cure.
- The scan reads journal and status, the claim comes later, and only approvals are read
  again (durable_recovery.go:353-363, durable_recovery.go:439), so a run that completes in
  between is replayed: `EngineStaleClaim.StaleClaimRepeatsTheTerminal`,
  `EngineReplay.GoneRowsRepeat`, and `EngineEffects.AtMostOnceWhileRunning` for the cure.
  Whatever the rows are, `EngineReplay.DecisionIsExact` says which decisions can repeat an
  effect, and `EngineReplay.GuardIsExact` that the guard of `EngineOnce.AtMostOnce` cannot
  be weakened.
- A cron leader stops renewing before it drains, so a drain that outlasts the lease lets
  a new leader fire beside it (runtime_cron_lease.go:217-225):
  `CronLeaders.LeadersDoNotOverlap`, `CronLeaders.ExpiryIsExact` and
  `CronLeaders.DrainCanOutlastTheLease`.
- Pending deliveries do use up the retry budget (runtime_stream.go:201-208):
  `Stream.RetryBudget`.
- A delivery that meets a pending or succeeded key looks the key up in a second call; if the
  owner has failed it in between, the delivery is decided as failed, and counted, without
  having run (runtime_stream_state.go:107-115): `StreamKeys.FailureNeedsARun` and
  `StreamKeys.LateFailureHappens`.
- A trigger with a dead-letter target but no positive limit acks and then nacks
  (runtime_stream.go:234-242); the public option always sets both: `Stream.AckIsFinal`.
- A dead-letter replay that fails drops the messages behind the failing one
  (runtime_stream_dlq.go:159-165): `Stream.ReplayStreamDLQ`.
- A cron step close to the largest int64 wraps around and matches undeclared values
  (runtime_cron.go:160-167): `CronFields.PartIsExact`, `CronFields.WrapAddsMinutes`.
- Lease names carry four bytes of a digest, so two expressions may share one
  (runtime_cron_lease.go:112): `CronSchedules.LeasesAreSeparate`.

## Hypotheses

- `WellFormed`: the digest has no collisions and field lengths fit eight bytes.
- Steps are deterministic functions of the step and its input, and redaction is a
  function of the text; both are parameters of `Engine.System`.
- `EngineOnce.Guarded`: processes are crash-stop, so no lease expires under a leg that may
  still act; nothing is forced or resumed from memory; and a decision that would replay is
  sheltered: every effect that has begun lies before its resume index, or a row at or
  behind that index blocks it.
- `CronLeaders.Forward`: a schedule's next tick lies ahead, which
  `CronSchedules.EpochIsForward` (short of an overflow) and `CronFields.FieldIsForward`
  prove of the two schedules; clocks of one replica do not go back.
- `VerbIsWord`: a request method holds no space; the separation of routes by plan keys
  rests on it.
- "Can be taken to its end" (`EngineProgress`, `EngineEndings`, `StreamTrace.DeliveriesCanEnd`)
  means: there is a continuation in which the stores answer.

## Model

| member | source | states |
|---|---|---|
| EngineTransparency.CrashTransparency | http_runtime.go:460-640 | Over every run (any crashes, claims, suspensions, resumes, interleavings): each step that begins is the original plan's step at its own index with the value of the uninterrupted left fold in front of it, the terminal gets the fold of the whole plan, a replay starts from an unredacted fold value, and while the journal stands the checkpoints are exactly those of the first k steps |
| EngineTransparency.RefusalIsExact | durable_recovery.go:479-508 | A claimed run with its journaled plan and build, a client that can still be served and no pending approval is refused as replay-unsafe if and only if the value it would resume with (last checkpoint, else journal input) was stored redacted; it is held back if and only if that value is clean and an intent at or behind the resume index blocks it; and else, exactly, it resumes behind the last checkpoint with the fold's value |
| EngineTransparency.NamespacesAreStable | durable_runs.go:405-422 | Two steps that begin in any legs of a run derive the same idempotency namespaces if and only if they are the same step of the original plan |
| EngineOnce.AtMostOnce | durable_recovery.go:461-476 | In every run of crash-stop processes without force and in-memory resumes, in which every decision to replay finds all effects begun before its resume index or a row that blocks it: no side-effecting call is begun again by another leg, and a Push or file Sink terminal begins at most once |
| EngineTerminals.BeginLeavesRow | runtime_http.go:923-995 | On the plan's own fields: a Push with a webhook URL or queue URI and a Sink with a file path open a side-effecting row behind the last step before they begin, and are effects; a Reply, a Push without a destination and a log-only Sink write no row and are none |
| EngineTerminals.EndClosesRow | http_runtime.go:241-274 | A success or a definite failure closes that row, an indefinite failure leaves it open |
| EngineTerminals.DeliversAtMostOnce | runtime_http.go:923-995 | In every guarded run of a plan that pushes to a webhook or a queue or writes a file, at most one terminal begins |
| EngineTerminals.DeliveryIsNotReplayed | durable_recovery.go:550-563 | Once a delivery has begun, no automatic decision replays the run while its journal stands, whatever the delivery came to |
| EngineTerminals.OpenCallHoldsBack | durable_recovery.go:550-563 | A non-read call whose outcome is not known holds every automatic decision back, as long as nothing closes or re-opens its row, the journal stands and its step is not checkpointed |
| EngineTerminals.EndedCallSettles | internal/tools/executor.go:257-271 | A call that ends closes its own row and no other: an idempotent one holds no replay back any more, a side-effecting one every replay from its step or before it |
| EngineReplay.DecisionIsExact | durable_recovery.go:421-477 | In every run whatsoever (forced, resumed, expired or pruned), a decision on a claimed run can be followed by a repeated effect of its leg if and only if plan and build are deployed, the client can be served, the resume value is clean, no intent at or behind the resume index is open or non-idempotent (or the decision is forced), and an effect has begun at or behind that index; for the terminal the leg must still own its lease |
| EngineReplay.GuardIsExact | durable_recovery.go:550-563 | After any guarded run, a decision that would replay, by a leg that has marked no loss of its lease, is sheltered if and only if no guarded continuation repeats an effect, so the condition of at most once cannot be weakened |
| EngineReplay.GoneRowsRepeat | durable_recovery.go:339-375 | After any guarded run, such a decision on tables that have gone since the scan can repeat an effect if and only if any effect has begun |
| EngineEffects.DistinctCallsSuffice | internal/tools/intent.go:73-100 | If the journal stands at every decision and no step uses the id of a side-effecting call for another effect, nothing effectful is repeated, and every effect begun is checkpointed or has an intent that blocks a replay from its step |
| EngineEffects.AtMostOnceWhileRunning | durable_recovery.go:381-397 | The same, when the guard is that the execution is still Running at the decision, which the code could check by reading the status again |
| EngineReusedCall.ReusedCallIdRepeats | internal/state/memory_journal.go:99-119 | For every plan with a step, an input journaled unredacted and a client that can be served: two turns of a step that use one call id, for a side effect and then for an idempotent call, and a crash make recovery begin the side effect twice; every other action of the run is orderly and the journal stands |
| EngineStaleClaim.StaleClaimRepeatsTheTerminal | durable_recovery.go:339-375 | For every plan of an effectful terminal alone there is a run without crash, pause, call, approval or force in which the terminal begins in two legs, because the scan's reads are older than the claim |
| EngineLeases.OwnershipIsExclusive | durable_recovery.go:111-128 | At any time at most one leg of an execution owns its lease; fences strictly increase from one acquisition to the next, and no renewal or proof succeeds under a passed fence |
| EngineLeases.CompletionIsProved | http_runtime.go:234-274 | Completed is written only by a leg that renewed its lease under its own fence after its renewer had stopped, with no acquisition in between, no renewal afterwards, no marked loss ever and no earlier release |
| EngineLeases.NoRenewalAfterRelease | durable_recovery.go:206-226 | A leg releases at most once; afterwards it neither renews, proves, marks a loss nor completes |
| EngineOwnership.OwnershipLasts | internal/state/memory_lease.go:12-74 | In every run, from each acquisition, renewal and proof on, the leg owns the lease for the whole ttl and nobody can acquire it, unless the leg releases it |
| EngineOwnership.RenewedRunIsNotTaken | durable_recovery.go:68-128 | A leg that acquires its lease renews it; as long as some renewal is answered in every ttl, and it neither dies nor stops its renewer, the lease stays its own under one fence and every claim of a recovery fails |
| EngineLegs.LossIsFinal | durable_recovery.go:91-140 | A background renewal that fails is the last: in no later world has the leg renewed or proved anything |
| EngineLegs.LostLegsDoNotPark | http_runtime.go:586-621 | A leg that has lost its lease is never parked afterwards |
| EngineLegs.FinishingLegsOnlyFinish | http_runtime.go:334-410 | A leg that has come to its finish acquires no lease and begins no step, call, terminal or replay in any later world |
| EngineLegs.OnlyPipesSuspend | http_runtime.go:586-621 | Whatever is parked in any run is a Pipe of the plan in front of the fold's value, and no continuation |
| EngineEvidence.OutcomesAreEvidenced | http_runtime.go:241-277 | A leg resolves its trigger key as succeeded, or saves Completed, only after its terminal returned success (or its lease was proved, when there is no terminal function), and never resolves it as failed after such a success |
| EngineEvidence.PruneNeedsEvidence | http_runtime.go:334-410 | Retention apart, a journal disappears only from a Completed or Failed execution without pending approvals, and then by a leg that completed it with events emitted and key succeeded, or that abandoned it |
| EngineEvidence.SucceededKeyIsDelivered | internal/state/memory_store.go:200-222 | First write wins: a trigger key this execution succeeded rests on a delivered terminal and stays succeeded in every continuation |
| EngineEvidence.KeyStep | internal/state/memory_store.go:135-222 | Every step of every world moves the trigger key exactly so: a pending key of this execution is resolved as the log says, a failed key is reopened by another execution, and nothing else moves it |
| EngineEvidence.SweepIsExact | internal/state/memory_journal.go:162-217 | The retention sweep takes the tables of completed and failed executions, unless an approval is pending |
| EngineStatus.StatusStep | http_runtime.go:334-410 | Every step moves the status exactly so: a saved outcome is the status, a start and a forced replay set it running, a denial, a refused recovery and a recovery that lost its lease fail a running execution, and nothing else moves it |
| EngineStatus.SettledNeedsForce | durable_recovery.go:339-397 | In every run, an execution that has completed or failed is running again only after a replay that an operator forced |
| EngineApprovals.ContinuationIsExact | runtime_http_resume.go:101-136 | Wherever a run has got to, the continuation of a parked leg can still come to run if and only if its process is alive and its approval is pending or given |
| EngineApprovals.ResumesOnce | runtime_http_resume.go:88-136 | A continuation is taken up once: after its resume no later one of that leg does anything |
| EngineApprovals.DenialIsFinal | runtime_http_resume.go:101-165 | The denial of a parked leg fails the running execution and changes nothing else; the leg is never resumed, and the execution runs again only when forced |
| EngineApprovals.PipesCanSuspend | http_runtime.go:586-621 | A Pipe that owns its lease can be parked at its first gated call with nothing written, and an approval lets it continue |
| EngineProgress.LiveRunCompletes | http_runtime.go:174-410 | Every plan can run to its end: it delivers the fold of all steps and leaves a completed execution, no tables, a settled key and a free lease |
| EngineProgress.RecoveryCompletes | durable_recovery.go:339-477 | From every reachable world whose lease has expired and whose rows and deployment do not forbid it (stated on their fields), a recovery can scan, claim and replay the run to that same end; by force also a failed one and past its intents |
| EngineProgress.CrashedRunCompletes | durable_recovery.go:339-477 | Wherever a leg of a running execution dies, once its lease has run out the run can be recovered to its end with the fold of the whole plan |
| EngineProgress.ResumeCompletes | runtime_http_resume.go:121-225 | An approved run whose lease is free can be resumed to that same end |
| EngineProgress.RefusalIsFinal | durable_recovery.go:443-508 | A decision that does not replay fails a running execution; its tables go if and only if plan or build is not deployed or the client is gone |
| EngineProgress.ForcedScanIsExact | routes_admin_runs.go:132-199 | An unfinished run can be enlisted by force if and only if the value it would resume with was stored unredacted |
| EngineProgress.ParkedIsLeftAlone | durable_recovery.go:353-363 | While an approval is pending, no recovery, automatic or forced, enlists or touches the run |
| EngineEndings.FailuresSettle | http_runtime.go:174-410 | However a run fails (start, lease, journal, step, ownership proof, terminal), with an answering store it ends saved as failed, its key failed unless the terminal had delivered, journal and checkpoints kept, its lease released if still its own |
| EngineEndings.NoSilentEnd | http_runtime.go:334-410 | A live run whose start and finish are answered and that is not suspended never ends without a saved outcome and a settled key |
| Recovery.DurablePlanForJournal | durable_recovery.go:514-530 | The loop returns the first exact key-and-hash match wherever it stands, otherwise the first key match |
| Recovery.FirstExactFinds | durable_recovery.go:514-530 | An exact match is found if and only if one is deployed |
| Recovery.LookupFindsIdenticalPlan | durable_recovery.go:443-451 | Lookup yields the journaled hash exactly when the journaled plan itself is deployed in the journaled build, and then yields that plan |
| Recovery.ReplayOnlyIdenticalContract | durable_recovery.go:443-455 | A run is replayed only with the plan it was journaled with, and is abandoned for a missing or mismatching plan if and only if that plan or build is not deployed |
| Recovery.DurableReplayBlockingIntent | durable_recovery.go:550-563 | No blocking intent is reported exactly when none exists; a reported one is the first |
| Recovery.RecoverClaimedDurableRun | durable_recovery.go:421-477 | The checks run in order: plan, hash, client, redaction, intents (skipped by force) |
| Recovery.VerdictInFull | durable_recovery.go:443-508 | The whole decision on the fields of plan and rows alone: no plan with the trigger is served; another plan or build; a synchronous or streamed Reply; a redacted resume value; an open or non-idempotent intent at or behind the resume index, unless forced; else a replay with the stored value |
| AdminRecover.Refusal | routes_admin_runs.go:151-199 | The first refusal in the order of the checks; there is none exactly when the rows allow a replay |
| AdminRecover.RefusalInFull | routes_admin_runs.go:151-199 | Which refusal is given, each with its exact condition on the rows and on the reads that fail |
| AdminRecover.ServeAdminRunRecover | routes_admin_runs.go:132-228 | A forced recovery starts if and only if its rows allow a replay and the lease could be taken; a refusal leaves all leases alone, a shutdown tombstones the claim under an advanced fence |
| PlanHash.BigEndianReads | durable_runs.go:391-398 | The length prefix reads back, most significant byte first, as the length it was written from |
| PlanHash.FramesInjective | durable_runs.go:391-398 | The 8-byte length-prefixed stream of a field list is uniquely decodable |
| PlanHash.StepCancels | durable_runs.go:289-351 | Equal field streams of two steps, with subagents, branches and maps nested to any depth, mean equal steps and equal remainders |
| PlanHash.StepsCancel | durable_runs.go:289-351 | The same for step lists with their counts |
| PlanHash.PlanFieldsInjective | durable_runs.go:280-368 | Equal field lists mean equal build, trigger, step tree and terminal |
| PlanHash.FingerprintIdentifiesPlan | durable_runs.go:275-287 | With a collision-free digest, equal fingerprints mean equal plans and builds |
| PlanHashWriter.HashInput.WriteFields | durable_runs.go:391-398 | The writer appends exactly the frames of the fields |
| PlanHashWriter.HashInput.WriteSteps | durable_runs.go:289-351 | The mutually recursive writers append exactly the frames of the step tree |
| PlanHashWriter.HashInput.WriteStep | durable_runs.go:289-351 | One step with its tools, skills, subagents, retry, budget, branches and map pipeline |
| PlanHashWriter.HashInput.WriteSubAgents | durable_runs.go:320-335 | Subagents with their nested pipelines |
| PlanHashWriter.HashInput.WriteResultSchema | durable_runs.go:370-382 | A missing schema is told apart from an empty one |
| PlanHashWriter.HashPlan | durable_runs.go:280-287 | The hashed bytes are the frames whose injectivity is proved |
| Namespaces.HopFieldsInjective | durable_runs.go:411-422 | A derivation determines its parent, position and step definition, or its kind and child index |
| Namespaces.NamespaceSeparates | durable_runs.go:405-422 | With a collision-free digest, a namespace determines the plan key and the whole path of positions and definitions; Map items share one hop by design |
| Namespaces.KeySeparates | durable_runs.go:253-265 | Two triggers have the same plan key if and only if they are of one kind and have the same verb and path, the same expression, or the same displayed URI |
| Namespaces.PlansAreSeparate | durable_runs.go:253-265 | With a collision-free digest, two tools of two plans share a namespace if and only if the plans have the same trigger and the tools the same path |
| Text.AtoiOfItoa | runtime_stream_redis.go:229-239 | Reading a written int64 gives it back |
| Text.ItoaInjective | durable_runs.go:411-416 | Decimal positions in hashed fields are unambiguous |
| Leases.PassedFenceIsDead | internal/state/memory_lease.go:12-96 | Over any operations fences never go back, and no holder can ever renew or release under a passed fence |
| Leases.TakeoverEndsEarlierFences | internal/state/memory_lease.go:12-46 | A takeover ends every earlier fence for good, its own holder's included |
| Leases.AcquisitionLasts | internal/state/memory_lease.go:12-46 | After an acquisition, fresh or a takeover, and any operations of other holders or fences within the ttl, the row is held under the next fence and is acquirable exactly when the ttl is over |
| Leases.RenewalLasts | internal/state/memory_lease.go:48-74 | A renewal by holder and fence does the same from its own time on, even behind the expiry |
| Leases.ReleaseHandsOver | internal/state/memory_lease.go:76-96 | After a release anybody can acquire the row at once, under the next fence |
| Leases.KeyIgnoresSpaces | internal/state/lease.go:76-90 | Names and holders are the same whatever spaces stand around them; blank ones are refused, the name first |
| Leases.LeaseStore.AcquireLease | internal/state/memory_lease.go:12-46 | Succeeds only on an absent or expired row and then advances the fence; else reports the current lease and changes nothing |
| Leases.LeaseStore.RenewLease | internal/state/memory_lease.go:48-74 | Extends only for the current holder and fence, never changes the fence |
| Leases.LeaseStore.ReleaseLease | internal/state/memory_lease.go:76-96 | Tombstones only for the current holder and fence and keeps the row |
| Heartbeat.DurableRunLease.Renew | durable_recovery.go:111-128 | Renewed, lost or cancelled, as holder, fence and store answer |
| Heartbeat.DurableRunLease.MarkLost | durable_recovery.go:130-140 | The first loss sticks and cancels the execution |
| Heartbeat.DurableRunLease.Tick | durable_recovery.go:91-107 | A background renewal that fails marks the loss and ends the renewer |
| Heartbeat.DurableRunLease.Confirm | durable_recovery.go:176-191 | Proves ownership if and only if no loss was marked, the store answers and holder and fence are current; every doubt but a cancellation is a loss |
| Heartbeat.DurableRunLease.StopAndConfirm | durable_recovery.go:206-212 | The proof is made when the renewer has stopped |
| Heartbeat.DurableRunLease.Release | durable_recovery.go:217-226 | Stops the renewer, then tombstones the lease if it is still owned |
| RunLoop.Journal.RunStepsResult | http_runtime.go:460-640 | The loop writes one checkpoint per finished step at base + index, starts each step at its absolute position with the fold's value, and ends completed, failed or suspended with a continuation that captures that place |
| RunLoop.Journal.Resume | http_runtime.go:586-621 | The resume closure checkpoints the suspended step under its own index and runs the rest with both offsets moved behind it, writing what the uninterrupted loop would have written; a resumed step that fails, cannot be checkpointed or is gated once more fails the run and writes nothing |
| RunLoop.WrittenIsPrefix | durable_runs.go:433-454 | What a loop has written is exactly the fold's checkpoints at its indices and nothing else |
| RunLoop.ResumedWrites | http_runtime.go:586-621 | A suspended step plus the remaining loop writes the same checkpoints as the unsuspended loop |
| RunLoop.SuspensionIsTransparent | http_runtime.go:586-621 | Suspending and resuming at any step comes to the fold of the original steps |
| EngineRefinement.RunStepsRefines | http_runtime.go:460-640 | Whatever the step loop comes to after n finished steps, n pairs of engine actions and one ending come to as well: the same checkpoints, the same steps begun, and a leg that confirms, fails or is parked with the closure's continuation |
| EngineRefinement.ResumeRefines | runtime_http_resume.go:138-165 | The engine's resumed leg writes the checkpoints and begins the steps of the resume closure |
| EngineRefinement.FinishRefines | http_runtime.go:334-410 | The finish is the engine's four actions in a row: same writes in the same order, same key outcome, same status, and the journal goes in the same case |
| RunLoop.Execution.Finish | http_runtime.go:334-410 | Key, event and state are written in this order, a succeeded key is never overwritten, and the journal goes, last, exactly for a completed run whose three writes have all succeeded |
| RunLoop.Execution.ResolveTriggerIdempotency | runtime_idempotency.go:11-29 | Only a pending reservation is resolved |
| RunLoop.ApprovalResumeRegistry.Store | runtime_http_resume.go:76-86 | A continuation is kept under its approval |
| RunLoop.ApprovalResumeRegistry.Take | runtime_http_resume.go:88-99 | A continuation is handed out once |
| RunLoop.ApprovalResumeRegistry.StartApprovedResume | runtime_http_resume.go:121-136 | A continuation that cannot be started goes back |
| CronLeaders.OneFirePerTick | runtime_cron_lease.go:226-349 | Over any number of replicas, leaders and crashes, at most one fire per tick of a lease is reserved, in flight or ended without failure |
| CronLeaders.TicksIncrease | runtime_cron_lease.go:276-346 | Within one leadership term the reserved ticks strictly increase, under clocks that do not go back |
| CronLeaders.TermLasts | internal/state/memory_lease.go:12-74 | In every run a leader that has just acquired or renewed keeps its lease for the whole ttl, unless it releases it, whatever the other replicas do |
| CronTerms.FedLeaderStays | runtime_cron_lease.go:226-273 | A replica that has won the lease, and one of whose renewals comes through in every ttl, owns it under one fence until it dies or stops its renewer |
| CronTerms.RenewerStep | runtime_cron_lease.go:226-273 | A renewer starts exactly when its replica wins the lease, and ends exactly when it is stopped or a renewal fails |
| CronTerms.FollowerTakesOver | runtime_cron_lease.go:186-225 | When a leader dies and its lease has run out, any living follower takes over under the next fence and renews from then on |
| CronTerms.SkippedTick | runtime_cron_lease.go:300-335 | A tick that cannot be reserved is skipped without a trace, and its leader goes on leading unless its own context has ended |
| CronLeaders.ReserveTakesTick | runtime_cron_lease.go:300-335 | A tick is reserved if and only if it is new or its last run has failed |
| CronLeaders.FireEndsTick | runtime_idempotency.go:11-29 | A recorded success keeps the tick for good, a recorded failure frees it, an unanswered store leaves it pending |
| CronLeaders.ReleaseComesLast | runtime_cron_lease.go:257-273 | On every return the lease is released only when the renewer is dead and all spawned fires have finished, and nothing is renewed or fired under that fence afterwards |
| CronLeaders.LeadersDoNotOverlap | runtime_cron_lease.go:217-225 | Fires in flight on living replicas belong to one term, as long as no lease expires under a leader that fires or drains |
| CronLeaders.ExpiryIsExact | runtime_cron_lease.go:217-225 | That condition cannot be weakened: while a fire is in flight and another living replica can choose a free tick, letting time pass respects it if and only if no continuation that respects it has fires of two terms in flight |
| CronLeaders.ExpiryLetsLeadersOverlap | runtime_cron_lease.go:186-204 | For every schedule, ttl and set of replicas, in every run: once a lease has expired under a fire in flight, any other living replica that can choose a free tick can fire it beside the first, without any time passing |
| CronLeaders.BecomesFollower | runtime_cron_lease.go:226-349 | Wherever a living replica stands, it can come back to following without the lease, the keys, its clock or another replica's fires moving |
| CronLeaders.DrainCanOutlastTheLease | runtime_cron_lease.go:262-273 | Against the comment: for every schedule with two ticks, every ttl and any two or more replicas there is a run in which a leader that has stopped renewing still drains its fire while another term fires |
| CronSchedules.EpochAlignedNext | runtime_cron_lease.go:133-141 | Go's truncating division with the correction below the epoch computes the floor |
| CronSchedules.EpochNextIsLeastMultiple | runtime_cron_lease.go:133-141 | For every int64 instant and period the next tick is the least multiple of the period after the instant if and only if the product does not overflow |
| CronSchedules.SameSlotSameTick | runtime_cron_lease.go:126-141 | Replicas whose clocks stand between the same two multiples derive the same tick |
| CronSchedules.CronLeaseNamesForPlans | runtime_cron_lease.go:106-116 | The counting map gives each plan the number of earlier plans of its own expression |
| CronSchedules.NamesSurviveOtherPlans | runtime_cron_lease.go:103-116 | Whatever other plans come, go or move, a plan finds its lease name in another list if and only if that list has more plans of its expression than stood before it |
| CronSchedules.LeasesAreSeparate | runtime_cron_lease.go:106-116 | Lease names are distinct if and only if no two different expressions share their four-byte digest |
| CronSchedules.FireKeysAreSeparate | runtime_cron_lease.go:106-124 | Over all leases, fire keys are equal if and only if the four-byte digests, the places among equal expressions and the ticks are equal, for an injective time format |
| CronFields.ParseCronField | runtime_cron.go:123-141 | A field is refused with its first error, or holds the union of its parts' values |
| CronFields.CronField.AddPart | runtime_cron.go:143-168 | The stepping loop terminates for every int64 step and adds exactly the values it visits |
| CronFields.PartIsExact | runtime_cron.go:160-167 | A part collects exactly its declared values if and only if `rawValue += step` does not wrap around |
| CronFields.WrapAddsMinutes | runtime_cron.go:160-167 | With wrap-around 5/9223372036854775807 also matches minutes 3 and 1 |
| CronFields.FieldMeaning | runtime_cron.go:123-168 | Without wrap-around a field is the declared union of its stepped ranges, with 7 folded to 0 |
| CronFields.FieldSchedule.Next | runtime_cron.go:38-48 | The least whole minute after the instant that matches, or none exactly when none matches up to five years ahead |
| CronFields.FieldIsForward | runtime_cron.go:38-48 | The next tick of a field schedule lies strictly ahead, and all clocks that have not passed it yet choose the same one, for a calendar whose five-year deadline does not go back |
| CronFields.ParseFieldSchedule | runtime_cron.go:91-121 | Five words or an error; the first field in error, else the schedule of the five fields |
| CronTexts.FieldGrammar | runtime_cron.go:123-202 | A word is accepted as a field if and only if it is a comma list of `*`, a number or a range in order within the bounds, each with a positive step or none |
| CronTexts.FieldTells | runtime_cron.go:123-202 | What an accepted field holds is the union of what its items tell: every step-th value from the first to the last, 7 standing for 0 where the field says so; `*` alone does not restrict |
| CronTexts.WrittenForms | runtime_cron.go:143-202 | `*`, `a` and `a-b`, with or without `/s`, tell exactly the stepped values of the whole field, of a alone and of a to b |
| CronTexts.ScheduleGrammar | runtime_cron.go:91-121 | An expression is accepted if and only if it is five such words, within 0-59, 0-23, 1-31, 1-12 and 0-7 |
| CronTexts.ScheduleMeaning | runtime_cron.go:50-121 | From the text of an accepted expression to its minutes, without the parser: one matches if and only if the text tells its minute, hour and month, and its day and weekday, of which one is enough when both are restricted |
| CronTexts.ItemIsRefused | runtime_cron.go:143-202 | Every text of one item is refused exactly for what is wrong with it: empty, its step, its first number, its second, their order; spaces around numbers do not matter |
| CronTexts.FirstBadField | runtime_cron.go:91-121 | The first of the five words that is no field is named, with its own error |
| Stream.StreamAttemptTracker.Next | runtime_stream_dlq.go:188-202 | Counts deliveries per ID; without an ID every delivery is the first |
| Stream.StreamAttemptTracker.Clear | runtime_stream_dlq.go:204-211 | Forgets one ID |
| Stream.MemoryStreamDLQ.Route | runtime_stream_dlq.go:37-49 | Appends to its target only |
| Stream.MemoryStreamDLQ.Drain | runtime_stream_dlq.go:51-57 | Returns and removes everything of its target only |
| Stream.StreamWorker.DeadLetterStreamMessage | runtime_stream.go:258-274 | Route, then ack; a failed route nacks; without a queue only the event |
| Stream.StreamWorker.AckSuccess | runtime_stream.go:216-229 | A success clears the counter and acks, unless acks are manual; a failed ack dead-letters |
| Stream.StreamWorker.RetryOrDeadLetter | runtime_stream.go:234-251 | A failure within the budget is nacked, at the budget dead-lettered and cleared |
| Stream.StreamWorker.ProcessStreamMessage | runtime_stream.go:200-252 | The effects, the counter and the queue after one delivery, whatever run and broker answer |
| Stream.AcksAreJustified | runtime_stream.go:200-274 | In the handling of one delivery an ack is attempted only for a successful run, an earlier success, or a message the queue has accepted |
| Stream.EffectsAreExact | runtime_stream.go:200-274 | What one delivery does, effect by effect: when it acks, routes, nacks, reports or stays silent, each if and only if |
| Stream.ErrorsAreExact | runtime_stream.go:200-274 | Handling a delivery ends the loop if and only if it was interrupted, or a call has failed that no dead-lettering makes up for |
| Stream.CountsAreExact | runtime_stream_dlq.go:188-211 | A delivery counts for its own message alone; a success or a failure at the limit clears the count |
| Stream.AckIsFinal | runtime_stream.go:234-242 | No successful ack is followed by a nack if and only if the trigger does not dead-letter without a positive limit |
| Stream.RetryBudget | runtime_stream.go:200-251 | With limit k, whatever other messages come in between and however the broker answers: failed and pending deliveries of a message are nacked until a failure is its k-th or later delivery since the counter was clear; that one is dead-lettered and clears the counter. Pending deliveries use up the budget, against the comment |
| Stream.ReplayStreamDLQ | runtime_stream_dlq.go:143-169 | Reprocesses up to the first failure, routes only that message back and drops the rest; nothing is lost if and only if all succeed, or the first failure is the last message and is routed back |
| StreamKeys.OneRunPerMessage | runtime_stream_state.go:55-148 | Under any interleaving: no two deliveries of a message hold its reservation, it succeeds at most once and never runs again, and a duplicate always rests on another delivery's success |
| StreamKeys.FreeKeyRuns | runtime_stream_state.go:55-98 | When the stores answer, an arrived delivery whose key is absent or failed takes the key and begins its run, as a retry exactly when the key is there |
| StreamKeys.TakenKeyDecides | runtime_stream_state.go:99-148 | It is parked exactly when the key it meets is pending, and a duplicate when it has succeeded; nothing runs |
| StreamKeys.RedeliveryRuns | internal/state/memory_store.go:135-157 | After a failed run that resolved its key, the next delivery of the message runs |
| StreamKeys.EndLeavesKey | runtime_stream_state.go:150-157 | A run that ends well leaves every key as it settled it; a failed one fails its key if that is still open |
| StreamKeys.UnansweredDecides | runtime_stream_state.go:55-148 | A call that is not answered decides the delivery at once, nothing has run and no key is touched |
| StreamKeys.FailureNeedsARun | runtime_stream_state.go:107-115 | In every run with answering stores, a delivery is decided as failed without its own run if and only if the key it met taken had been failed by its owner before it looked it up |
| StreamKeys.LateFailureHappens | runtime_stream_state.go:107-115 | Such a run, of two deliveries of any message |
| StreamTrace.AcksAreSafe | runtime_stream.go:200-325 | In every interleaving of any deliveries, every ack stands behind the end of the delivery's own run without an error, the logged success of another delivery of the same message, or its entry into the dead-letter queue, and the queue holds exactly what was routed there |
| StreamTrace.TraceProjects | runtime_stream.go:200-252 | In every trace each delivery does, in order, a beginning of what the handling of one delivery prescribes, under the attempt that counts the deliveries of its message since the counter was last cleared |
| StreamTrace.AckIsFinalInTraces | runtime_stream.go:234-251 | In every trace no delivery is nacked behind a successful ack, unless the trigger dead-letters without a positive limit |
| StreamTrace.BudgetInTraces | runtime_stream.go:234-251 | In every trace a failed delivery was nacked if fewer than the limit of deliveries of its message had begun since the counter was last cleared, and was dead-lettered and cleared it otherwise |
| StreamTrace.SuccessIsAcked | runtime_stream.go:200-229 | In every trace a successful delivery that is through has tried its ack, unless acks are manual, and only an interrupted one and a success under manual acks do nothing |
| StreamTrace.DeliveriesCanEnd | runtime_stream.go:200-325 | No delivery of any trace is stuck: each can be brought to its last effect |
| Composition.BoundedAndWrittenOnce | http_runtime_composition.go:82-126 | In every state of every schedule at most the clamped concurrency runs, and each slot is written at most once, by its own run or a cancellation |
| Composition.BoundIsReached | http_runtime_composition.go:82-126 | As many runs as were asked for, and as there are, can be inside together |
| Composition.CancellationIsExact | http_runtime_composition.go:82-126 | Without an interruption the siblings are cancelled if and only if some run has ended in an error and PartialOK does not stand |
| Composition.StopsEarly | http_runtime_composition.go:98-125 | Once the context is done nothing more need run: waiting runs are cancelled, running ones cut short, and the outcomes that are there stay |
| Composition.InterruptStops | http_runtime_composition.go:98-125 | The end of the caller's context does so at any point of any schedule |
| Composition.ScheduleDoesNotMatter | http_runtime_composition.go:82-126 | Every finished schedule gives every slot its own outcome, if all runs succeed, or under PartialOK whatever the siblings do |
| Composition.OutputIsDeterministic | http_runtime_composition.go:25-80 | Any two finished schedules encode to the same ordered items, if all runs succeed or under PartialOK |
| Composition.FailureIsReported | http_runtime_composition.go:192-199 | Without an interruption from outside an error is reported if and only if some run fails |
| Composition.CanFinish | http_runtime_composition.go:98-125 | No schedule deadlocks: every one has a finishing extension in which runs merely enter and finish |
| Composition.EncodeCompositionOutput | http_runtime_composition.go:153-190 | Items stand in the order of the runs, with errors in place under PartialOK |
| Composition.FirstCompositionError | http_runtime_composition.go:192-199 | The first error in order, or none exactly when there is none |
| Compiler.CompilePlans | compile.go:10-36 | The loop over pipelines computes the specified result, errors included |
| Compiler.CompilePlanAt | compile.go:38-107 | The scan of one pipeline computes the specified result, errors included |
| Compiler.CompilerIsExact | compile.go:10-107 | Compilation succeeds exactly on non-empty sequences of (From (Pipe or Parallel or Map)* (Reply or Push or Sink))+ with valid, fitting parts, and returns the plan of each pipeline in order |
| Compiler.NodesAreConserved | compile.go:10-173 | Compiled plans unfold to the same nodes in the same order, but for a Pipe that takes the schema of its JSON Reply; all such schemas agree then, and the unfolded nodes compile to the same plans |
| CompilerErrors.ErrorIsFirstDeadEnd | compile.go:10-200 | An error names the first dead end: the nodes before it can be completed to an accepted sequence, no sequence that begins with them and the node can, and the node has the named fault |
| CompilerErrors.CompatibilityIsIdentity | compile.go:162-173 | Schemas are compatible if and only if they have one identity: the type, else the JSON schema, else the name |
| CompilerErrors.CompiledPlansFit | compile.go:85-138 | In compiled plans a Reply answers an HTTP request, and every option belongs to its trigger |
| Compiler.ValidateTriggerOptionCompatibility | compile.go:114-138 | Options are accepted exactly when their trigger kind reads them |
| Resp.Buffer.WriteRedisCommand | runtime_stream_redis.go:169-179 | Appends the array of bulk strings |
| Resp.Buffer.ReadRedisRESP | runtime_stream_redis.go:181-219 | The recursive reader terminates on every input and parses exactly the specified value |
| Resp.Buffer.ReadRESPLine | runtime_stream_redis.go:221-227 | One line without its terminator |
| Resp.Buffer.ReadRESPSize | runtime_stream_redis.go:229-239 | A line that is a decimal int |
| Resp.CommandRoundTrip | runtime_stream_redis.go:169-219 | Whatever bytes the arguments hold and whatever follows, a written command is read back as its arguments, and exactly the suffix is left |
| Resp.ReplyRoundTrip | runtime_stream_redis.go:181-239 | Every reply (lines, integers, errors, nulls, arrays nested to any depth) is read back as sent, and exactly what follows it is left |
| Resp.NullRoundTrip | runtime_stream_redis.go:181-219 | Any negative size is a null reply |
| Resp.MalformedReplies | runtime_stream_redis.go:181-219 | A bulk string without its CRLF, an unknown first byte and the empty input are refused, each with its own error |
| Resp.CommandsAreSelfDelimiting | runtime_stream_redis.go:169-179 | Commands cannot be confused with one another, whatever follows them |
| Sse.Stream.WriteSSEOutputEventChecked | runtime_http_sse.go:241-255 | Appends the frame of the redacted text |
| Sse.StreamRoundTrip | runtime_http_sse.go:241-255 | An EventSource dispatches the written names and texts one by one, empty and multi-line texts included; a blank name leaves the default type |

## Left out

- Suspension inside Parallel or Map: the continuation covers only the branch, so the fold property does not hold there; `Engine.Gate` gates Pipes only.
- At most once across an in-memory approval resume racing a recovery replay: the resume does not read the status again; its leases, evidence and values are covered.
- At most once under an operator's forced replay: it skips the intents by design; what it can repeat is in `EngineReplay.DecisionIsExact`, and its leases, evidence and values are covered.
- Processes that act after their lease has expired: intents carry no fence; `EngineOnce` assumes crash-stop processes.
- EngineRefinement.FinishRefines: the imperative `Finish` knows no approvals, so the prune of its journal is compared where none is pending.
- EngineRefinement.RunStepsRefines: a step that fails and one whose checkpoint cannot be written are one action of the engine.
- What happens inside a step: provider calls, tool execution, schema repair, budgets and nested sessions are the function `run`; a non-read call is its intent row.
- The store's own failure modes beyond a call that fails or does not answer, and stores other than the memory store's contract.
- recoverDurableRunsScan's worker pool and startup delays: any number of scans and claims may interleave in the engine.
- Runs without durable runs or without a state store, and the journal of such runs.
- The plan list of mixed runtimes, whose routes carry a method and path that recovery's list lacks: the deployment of `Recovery` is any list.
- HTTP handlers apart from the refusals of the forced recovery, admin views, metrics, dev viewer, CLI, deploy and provider clients.
- Redaction, SHA-256, HMAC, JSON decoding and time formatting: functions given as parameters.
- EngineOnce.AtMostOnce: speaks of side-effecting calls and effectful terminals; idempotent calls may begin again by design.
- CronLeaders.TicksIncrease: the worker pool's bound on concurrent fires is not modelled, only that a spawn may fail.
- CronTexts.ScheduleMeaning: a step so large that it wraps around is excluded (`CronFields.PartIsExact` says exactly when it does).
- EngineProgress.RecoveryCompletes: the continuation is given for a lease that has expired; that it is scheduled is up to the scan's timer, which is left out.
- CronFields.ParseFieldSchedule: parsing the duration of an @every expression is left out.
- CronFields.FieldSchedule.Next: the calendar's facts (days, months, leap years, AddDate) are parameters.
- StreamTrace.AcksAreSafe: the loop over a receiver, its bound on deliveries in flight and its stop at the first error are left out (any number of deliveries may interleave, and any may stop for good), and the broker transport of a routed message is only its answer.
- StreamKeys.OneRunPerMessage: stores without idempotency outcomes, which fall back to execution status, are left out.
- Composition.EncodeCompositionOutput: the JSON text of the items is left out.
- Compiler.CompilerIsExact: what a single node validates and compiles to is given with the node; nested nodes of Parallel and Map are left out.
- Resp.Buffer.ReadRedisRESP: limits on allocation are left out; a size larger than the remaining input ends the input.
- Sse.StreamRoundTrip: the cursor of the event stream, pings and flushing are left out.
