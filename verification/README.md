# A model of the platform's durable-execution core

The platform runs tenants' work as *runs*: rows in Postgres that workers lease, execute in
idempotent steps and finish under a fence, while a reaper takes expired leases back, a relay
and a sweep hand out pointers, and users cancel. This project models that protocol and the
smaller cores around it, and proves what they promise.

| file | subject |
|---|---|
| `Prelude.dfy`, `Text.dfy`, `Ranking.dfy` | shared vocabulary; strings, stripping and containment; the first n rows under an order |
| `Leases.dfy`, `SideEffects.dfy` | the guarded UPDATE statements on the run row and on the (run, step) row |
| `Protocol.dfy` | one run executed by many workers, as a state machine over those statements |
| `LeaseSafety.dfy`, `EffectSafety.dfy`, `Echo.dfy` | what every trace keeps: leases, steps, end to end |
| `Store.dfy` | the tables and the code of leases.py, side_effects.py and runner.py on them, each method one trace of the protocol |
| `Polling.dfy` | the polling worker's pass over tenants |
| `Outbox.dfy`, `Sweeping.dfy` | fair draining; which stranded runs a sweep picks |
| `Delivery.dfy`, `Admission.dfy` | no lost intent; enqueue, drain and sweep on the tables |
| `Ledger.dfy` | budget reservations and usage |
| `Tools.dfy` | tool receipts and approvals |
| `AuditChain.dfy` | the hash-chained audit log and its retention purge |
| `Chunking.dfy` | documents into chunks |
| `Builds.dfy` | corpus builds and the reindex workload |
| `Attestations.dfy` | the walk over an OCI archive's descriptors |
| `RateLimit.dfy` | the in-process fixed-window limiter |

## How it is modelled

* A database transaction is one atomic event at its own `now()`. A trace is any sequence of
  events; one whose clock runs backwards, or that is not enabled, changes nothing. A worker may
  stop between any two events, or stall and come back, and reaps, grants and cancellations
  happen in between.
* Imperative parts are classes and methods with loops, proved against the specification
  functions of the state machines. A method is one uninterrupted execution; interleaving is the
  state machine's business.
* History that the database does not keep is part of the models where a property speaks of it:
  body starts, effects applied, lease log, newest pointer sent, the reservation behind a usage
  row. The comments say which fields these are.
* Worker ids are distinct among live executions of a run, as `worker_id()` makes them.
* SHA-256 and SHA-1 are injective; the tokenizer gives each character one token.

## Where the code and its description part

Each of these is stated with its exact condition; a lemma that gives a concrete run is named too.

* `retry_delay` does not honour provider guidance beyond `run_retry_max_seconds` (`RetryDelayBounds`).
* A claim taken over by lease expiry lets a stalled worker overwrite a completed SAFE_TO_REPEAT
  row with `failed` (`OneBodyExactlyWhenCalm`, `CompletedIsFinalIff`, `ZombieOverwritesCompleted`).
* The sweep's mark is a second transaction after its send; if the run comes due again in between,
  the mark hides it until the polling worker finds it (`NeverPassedOverIff`, `LateMarkHidesTheRun`).
* A sweep takes 100 runs, and a new run it has marked counts as lost again after 45 s, so a
  tenant's first 100 runs can keep the next one out for ever (`NeverPickedIff`, `BacklogStarves`).
* A pass of the polling worker stops at 50 tenants in id order, so tenants behind 50 busy ones
  starve (`StarvesIff`, `FiftyBusyTenantsStarveTheNext`).
* Releasing a reservation that has lapsed but was not yet swept makes its later settlement fail,
  and the spend goes unrecorded (`LazyIsEagerIff`, `LateReleaseLosesTheCharge`).
* The retention purge deletes by id but counts by age, so `events_anchored` falls behind when
  appending transactions overlap (`AccountedIff`, `OverlapMiscounts`). `verify_chain` reads the
  anchor and the rows in two statements, so a purge in between shows as a break (`TornReadIff`).
* A reindex that raises after `promote` runs `fail` on the build it has just made live and
  empties it; `promote` of a version whose row was reaped leaves no live build (`ReindexOutcome`,
  `PromotionServes`). Chunks written for a reaped version are served by the next build that gets
  its number (`CleanIff`, `ServesExactlyItsWritesIff`, `StaleChunkIsServed`). A promotion between
  the statements of `reap` loses the build it made live (`TornReapIff`).
* A write tool whose result is too large to keep is recorded `failed`, not `needs_reconciliation`
  (`FailedWriteIffOversized`, `OversizedWriteFails`).

## Model

| member | source | states |
|---|---|---|
| `Leases.RetryDelayBounds` | platform_core/correctness/leases.py:59-69 | the retry delay lies between the capped exponential and the cap; provider guidance is honoured if and only if it does not exceed the cap |
| `Leases.ReapDelayAgreesWithRetryDelay` | platform_core/correctness/leases.py:311-317 | the backoff the reaper computes in SQL equals the one `fail` computes in Python, for every attempt |
| `LeaseSafety.LeaseInvariant` | platform_core/correctness/leases.py:104-136 | over every trace: pending rows have attempts left, leased holds exactly when holder and deadline are set, handles never share an attempt and the holder's attempt is the row's |
| `LeaseSafety.SupersededHandleIsFenced` | platform_core/correctness/leases.py:183-227 | no action of a superseded handle changes the run row or its lease history |
| `LeaseSafety.SupersededForever` | platform_core/correctness/leases.py:183-227 | a handle once superseded stays superseded, whatever follows |
| `LeaseSafety.MutualExclusion` | platform_core/correctness/leases.py:298-327 | between two grants of a run the first was released by its own holder or reaped strictly after its last extended deadline |
| `LeaseSafety.OutcomeIsTheLatestGrants` | platform_core/correctness/leases.py:210-283 | a finished run got its outcome from the latest grant's holder or from the reaper of that grant, except one cancelled while pending again; a run never granted can only have been cancelled |
| `LeaseSafety.GrantsAreBounded` | platform_core/correctness/leases.py:117-128 | at most max_attempts grants in any trace |
| `LeaseSafety.TerminalIsAbsorbing` | platform_core/correctness/leases.py:210-283 | succeeded, failed and cancelled rows never change status again |
| `LeaseSafety.StatusChangesAreBounded` | platform_core/correctness/leases.py:246-268 | status changes are bounded by a rank every grant, release and reap lowers |
| `LeaseSafety.AlwaysRecoverable` | platform_core/correctness/leases.py:286-340 | from every reachable state some continuation of grants and reaps ends the run: no state is stuck |
| `LeaseSafety.CancellationWins` | platform_core/correctness/leases.py:183-193 | once cancellation is requested on a leased run its deadline is never extended, it is never completed, and it can only leave the lease as cancelled; a reap past the deadline takes it there |
| `EffectSafety.OrderInvariant` | apps/worker/runner.py:255-262 | over every trace, a worker inside a step has passed all earlier ones and rows appear in step order |
| `EffectSafety.WriteOnceMemo` | platform_core/correctness/side_effects.py:160-280 | on calm traces one worker at a time is inside a step, the completed row is final and every result handed out is the stored one |
| `EffectSafety.OneBodyExactlyWhenCalm` | platform_core/correctness/side_effects.py:205-220 | at most one body is ever inside a step throughout a trace if and only if no claim is taken over while its claimant is still inside |
| `EffectSafety.PromptTracesAreCalm` | platform_core/correctness/side_effects.py:205-220 | traces that respect the claim deadlines and reap only stopped claimants are calm |
| `EffectSafety.ReconciledStepsAreCalm` | platform_core/correctness/side_effects.py:210-211 | every trace is calm for a step declared NEEDS_RECONCILIATION |
| `EffectSafety.TallyInvariant` | platform_core/correctness/side_effects.py:226-280 | starts, recorded failures, completions and applications of a NEEDS_RECONCILIATION step stay in balance over every trace |
| `EffectSafety.SucceededInvariant` | apps/worker/runner.py:255-341 | on traces calm for a step, a succeeded run carries that step's stored result |
| `Echo.ReconciledStepAtMostOnce` | platform_core/correctness/side_effects.py:161-278 | no assumption on leases, clocks or crashes: at most one body in flight, starts at most 1 plus recorded failures, effect applied at most 1 plus the bodies that raised after applying it |
| `Echo.ReconciledStepIsFinal` | platform_core/correctness/side_effects.py:192-211 | once completed, row and stored result never change and every caller gets that result |
| `Echo.StepsRunInOrder` | workloads/echo/workload.py:47-96 | no step is applied before each earlier step has completed |
| `Echo.SucceededMeansAppliedOnce` | apps/worker/runner.py:255-341 | a succeeded run applied each such step exactly once and returns its stored result |
| `Echo.EchoAnnouncesAtMostOnce` | workloads/echo/workload.py:47-96 | over every interleaving of crashes, reaps, zombies and re-leases echo announces at most 1 plus the times announce itself raised after its effect, after reserve and transform completed; at most once when it never did, and exactly once if the run succeeded |
| `Echo.RepeatableStepIsWriteOnce` | platform_core/correctness/side_effects.py:192-236 | a SAFE_TO_REPEAT step is a write-once memo on traces that respect the deadlines |
| `Echo.RaisingAfterTheEffectRepeatsIt` | platform_core/correctness/side_effects.py:226-236 | a trace in which a body that raises after its effect makes announce happen twice: the hypothesis is needed |
| `Echo.CompletedIsFinalIff` | platform_core/correctness/side_effects.py:226-278 | whatever the policy and the timing, a completed row stays completed with its result throughout a trace if and only if no late failure or completion UPDATE reaches it |
| `Echo.ZombieOverwritesCompleted` | platform_core/correctness/side_effects.py:260-278 | a trace in which a late failure UPDATE turns a completed SAFE_TO_REPEAT row into a failed one |
| `Store.Database.AcquireSpecific` | platform_core/correctness/leases.py:139-172 | leases exactly the named run when it is leasable, as one grant of the protocol |
| `Store.Database.Acquire` | platform_core/correctness/leases.py:89-136 | leases a leasable run of the tenant such that none is ahead of it by priority, availability and creation, or reports that there is none |
| `Store.Database.Heartbeat` | platform_core/correctness/leases.py:175-200 | extends exactly a held, uncancelled lease, as one beat of the protocol |
| `Store.Database.CancelRun` | platform_core/api/routes/runs.py:84-106 | pending runs end cancelled, leased ones are asked to stop, finished ones are refused |
| `Store.Database.ReapExpired` | platform_core/correctness/leases.py:286-360 | every run past its deadline is released as one reap of the protocol with its started claims, no other is touched, and the list returned is exactly those runs |
| `Store.Database.ClaimTx` | platform_core/correctness/side_effects.py:160-236 | the claim transaction is one claim of the protocol and leaves exactly the row its outcome says |
| `Store.Database.PerformOnce` | platform_core/correctness/side_effects.py:135-280 | one call is one trace of the protocol; it returns the stored result or raises what the handler sees |
| `Store.Database.Complete` | platform_core/correctness/leases.py:203-229 | True exactly for the holder of an uncancelled lease, and then the row succeeds with that result |
| `Store.Database.Fail` | platform_core/correctness/leases.py:232-268 | True exactly for the holder; cancelled beats failed beats another attempt after the backoff |
| `Store.Database.AcknowledgeCancellation` | platform_core/correctness/leases.py:271-283 | True exactly for the holder of a cancelled lease |
| `Store.Database.RunHandler` | workloads/echo/workload.py:47-96 | steps run in order and stop at the first that raises; each collected result is the stored one |
| `Store.Database.ExecuteLeased` | apps/worker/runner.py:219-341 | an uninterrupted execution is one trace of the protocol, touches no other run, and reports success only with the row succeeded and every step's stored result in it |
| `Polling.PassExists` | apps/worker/runner.py:374-383 | the tenant query has an answer for every set of due tenants |
| `Polling.InPassIff` | apps/worker/runner.py:374-383 | a due tenant is in a pass exactly when fewer than 50 due tenants come before it |
| `Polling.StarvesIff` | apps/worker/runner.py:369-391 | a tenant that stays due is never reached if and only if 50 or more due tenants come before it in every pass |
| `Polling.FiftyBusyTenantsStarveTheNext` | apps/worker/runner.py:369-391 | with 51 tenants always due, every pass serves the first 50 and the last is never reached |
| `Polling.ServeTenants` | apps/worker/runner.py:385-397 | one run per tenant, in order, until told to stop, and did_work says whether any was leased |
| `Outbox.EarlierPositionsFirst` | platform_core/correctness/outbox.py:173-186 | if a batch holds some tenant's row at a position, it holds every tenant's unpublished rows at earlier positions |
| `Outbox.FirstRowsAlwaysFit` | platform_core/correctness/outbox.py:173-186 | with no more pending tenants than the batch size, each tenant's first row is in the batch |
| `Outbox.BatchExists` | platform_core/correctness/outbox.py:173-188 | the batch query has an answer on every table |
| `Outbox.PassAdvances` | platform_core/correctness/outbox.py:173-232 | one pass publishes a row or moves it at least one place forward |
| `Outbox.PublishedWithinPosition` | platform_core/correctness/outbox.py:159-236 | a row at position p of its tenant is published within p passes, whatever rows arrive in between |
| `Delivery.IntentIsKept` | platform_core/correctness/outbox.py:87-133 | every admitted run has exactly one outbox row from the step that created it, one run per tenant and key, and no mark without a pointer behind it |
| `Sweeping.SelectionExists` | apps/worker/tasks.py:124-141 | the sweep's query has an answer on every table |
| `Sweeping.SelectedIff` | apps/worker/tasks.py:124-141 | the query picks exactly the stranded runs that fewer than 100 stranded runs rank before, by position within their tenant and then by availability |
| `Sweeping.FirstIsSelected` | apps/worker/tasks.py:124-141 | with no more stranded tenants than the limit, each tenant's first stranded run is picked |
| `Sweeping.NeverPickedIff` | apps/worker/tasks.py:124-141 | a run that stays stranded is never picked if and only if every sweep finds 100 or more ahead of it |
| `Sweeping.PickedWithinPosition` | apps/worker/tasks.py:124-159 | with at most 100 tenants stranded and nobody returning ahead, a run at position p of its tenant is picked within p sweeps |
| `Sweeping.MarkedIsStrandedIff` | apps/worker/tasks.py:132-136 | when a mark still hides a run: for 45 s if it was never attempted, otherwise until it is returned anew |
| `Sweeping.BacklogStarves` | apps/worker/tasks.py:124-159 | with 101 new runs of one tenant that nobody works off, sweeps a minute apart pick the same 100 every time and the last one never |
| `Delivery.NeverPassedOverIff` | apps/worker/tasks.py:132-159 | over every run of the system no mark hides from the sweep's condition a returned run that had no pointer since it came due, if and only if no mark comes after the run has come due again |
| `Delivery.NoLostIntent` | apps/worker/tasks.py:122-141 | provided no mark came late, a due run the sweep does not pick either waits behind 100 or more stranded runs or has had a pointer: within 45 s plus the sweep's lag if never attempted, since its available_at if returned |
| `Delivery.LateMarkHidesTheRun` | apps/worker/tasks.py:144-159 | a trace in which a stalled sweep marks a returned run it had sent before, and so hides it |
| `Delivery.ReturnedRunIsStranded` | platform_core/correctness/leases.py:246-268 | a run that returns to pending meets the sweep's condition as soon as it is due |
| `Delivery.ExecutionUndisturbs` | platform_core/correctness/leases.py:246-317 | no statement of execution touches last_enqueued_at, and every return to pending moves available_at past now |
| `Admission.Queue.EnqueueRun` | platform_core/correctness/outbox.py:66-133 | a used key resolves to its run and writes nothing; otherwise the run and its outbox row appear together |
| `Admission.Queue.Drain` | platform_core/correctness/outbox.py:159-236 | published and marked where publish succeeds, one more attempt where it raises, the count returned, as one trace of delivery |
| `Admission.Queue.Republish` | apps/worker/tasks.py:124-159 | each run the query picked that can be sent is sent and marked, the others are left, the count returned; uninterrupted, no mark is late |
| `Ledger.NeverOverCommitted` | platform_core/observability/ledger.py:175-254 | in every reachable state spend plus live reservations stay below the cap plus the window's overshoot, and below the cap when there is none, for daily tokens and monthly cost alike |
| `Ledger.NoOvershootIff` | platform_core/observability/ledger.py:311-357 | there is no overshoot if and only if every charge of the window was covered by a reservation live at settlement |
| `Ledger.TimeOnlyFrees` | platform_core/observability/ledger.py:200-206 | expiry, day and month roll-over only ever give headroom back |
| `Ledger.SpendIsConserved` | platform_core/observability/ledger.py:311-384 | every trace keeps metered spend equal to settled actuals plus direct records, with at most one usage row per reservation however often settlement is retried |
| `Ledger.MeteredSpendAddsUp` | platform_core/observability/ledger.py:311-384 | so the equation holds in every state a ledger can reach |
| `Ledger.ClosedForever` | platform_core/observability/ledger.py:291-357 | settled and released reservations and all usage rows are never altered |
| `Ledger.LazyIsEagerIff` | platform_core/observability/ledger.py:180-186 | lazy expiry shows the totals of eager expiry at every instant if and only if no charge is settled against a reservation released after it had lapsed |
| `Ledger.LateReleaseLosesTheCharge` | platform_core/observability/ledger.py:296-342 | the smallest run in which such a settlement goes unrecorded |
| `Ledger.PostgresLedger.Reserve` | platform_core/observability/ledger.py:161-289 | admits exactly when both projections stay below their caps; unmetered exactly when the database is out of reach and the task fails open; a refusal leaves the tables as they were |
| `Ledger.PostgresLedger.Release` | platform_core/observability/ledger.py:291-309 | one release of the ledger: only a reserved row changes |
| `Ledger.PostgresLedger.Settle` | platform_core/observability/ledger.py:311-357 | one settlement of the ledger: one usage row, or none if already settled or not settleable |
| `Ledger.PostgresLedger.Record` | platform_core/observability/ledger.py:361-384 | one direct record of the ledger |
| `Ledger.PostgresLedger.Status` | platform_core/observability/ledger.py:398-446 | the figures reported are always below the cap plus the overshoot |
| `Tools.ToolRegistry.Register` | platform_core/agent/tools.py:77-102 | an ungated write tool and a second registration of a name are refused |
| `Tools.HandlerStartsOncePerKey` | platform_core/agent/tools.py:393-423 | over all concurrent and crashed invocations an idempotency key starts at most one handler |
| `Tools.EveryGatedStartWasApproved` | platform_core/agent/tools.py:425-445 | every start of a gated or write tool consumed its own approval, given by someone else, unexpired, for the same run, tool and argument hash |
| `Tools.FinishedReceiptsAreFinal` | platform_core/agent/tools.py:263-279 | a receipt that is no longer started never changes |
| `Tools.AnswersComeFromTheReceipt` | platform_core/agent/tools.py:453-460 | a result, fresh or replayed, is the one stored for the same tool and arguments and stays it |
| `Tools.FailedWriteIffOversized` | platform_core/agent/tools.py:201-319 | over every trace a write receipt is failed if and only if its owner committed a result that had come back but was too large to keep; an unknown fate is never called failed |
| `Tools.OversizedWriteFails` | platform_core/agent/tools.py:201-319 | a run in which an approved write takes effect once and its receipt ends failed |
| `Tools.ToolStore.Existing` | platform_core/agent/tools.py:442-460 | looks the key up and resolves it, as one move of the protocol |
| `Tools.ToolStore.RequestApproval` | platform_core/agent/tools.py:322-375 | reuses the newest open request for the same call or inserts one, and the run must exist |
| `Tools.ToolStore.StartExecution` | platform_core/agent/tools.py:378-439 | receipt and consumed approval commit together or not at all |
| `Tools.ToolStore.Close` | platform_core/agent/tools.py:478-488 | the owner's receipt takes the final status exactly once |
| `Tools.ToolStore.Invoke` | platform_core/agent/tools.py:126-319 | an uninterrupted invocation is one trace of the protocol, starts at most one handler, and none when the key is known |
| `Tools.ToolStore.Decide` | platform_core/api/routes/approvals.py:85-156 | a pending, unexpired request of somebody else gets its verdict; every other case is refused by name and changes nothing |
| `AuditChain.HonestChainsVerify` | platform_core/observability/audit.py:113-181 | any interleaving of appends by either path and purges verifies as intact |
| `AuditChain.AccountedIff` | deploy/migrations/versions/0023_governance_controls.py:390-425 | events anchored plus remaining rows never exceed the events appended, and equal them if and only if no purge removed a row younger than its cutoff |
| `AuditChain.OrderedAppendsAreAccounted` | deploy/migrations/versions/0023_governance_controls.py:390-425 | when timestamps follow ids every purge is clean |
| `AuditChain.OverlapMiscounts` | deploy/migrations/versions/0023_governance_controls.py:390-425 | two overlapping appends after which a purge deletes a row it does not count |
| `AuditChain.TamperingShowsIff` | platform_core/observability/audit.py:323-402 | rows ending in an intact log's last hash verify if and only if they agree with it on every digested field and keep their ids past the anchor |
| `AuditChain.TruncationIsSilent` | platform_core/observability/audit.py:323-402 | rows cut from the end still verify, with another head |
| `AuditChain.NoHashRecurs` | platform_core/observability/audit.py:83-110 | in an intact log no two rows share a hash, and none has the anchor's |
| `AuditChain.AuditLog.AppendInSession` | platform_core/observability/audit.py:113-181 | refused without an actor or outside the tenant's scope, otherwise one append of the chain |
| `AuditChain.AuditLog.Record` | platform_core/observability/audit.py:184-289 | written when there is an actor and the database is reachable; only a required event fails its caller |
| `AuditChain.AuditLog.EnforceRetention` | deploy/migrations/versions/0023_governance_controls.py:390-425 | removes a prefix and moves the head into the anchor |
| `AuditChain.AuditLog.VerifyChain` | platform_core/observability/audit.py:323-402 | intact exactly when every row is; otherwise the first bad row and the first objection to it |
| `AuditChain.TornReadIff` | platform_core/observability/audit.py:333-348 | if an operation commits between the read of the anchor and the read of the rows, an honest log still verifies unless it is a purge that moved the anchor and left rows |
| `Chunking.Sections` | platform_core/corpus/chunking.py:226-248 | the section loop yields exactly the sections of the lines |
| `Chunking.SectioningLosesNothing` | platform_core/corpus/chunking.py:226-248 | sections hold all ink of the non-heading lines in order, or of the whole text when there is none |
| `Chunking.ParagraphsLoseNothing` | platform_core/corpus/chunking.py:251-252 | a body's paragraphs hold all its ink in order |
| `Chunking.SplitOversized` | platform_core/corpus/chunking.py:255-287 | the two loops yield the split of the paragraph |
| `Chunking.SplitIsFaithful` | platform_core/corpus/chunking.py:255-287 | the split's pieces hold the paragraph's ink in order, each stripped and within the target |
| `Chunking.SplitKeepsSentence` | platform_core/corpus/chunking.py:255-287 | a sentence that fits the target occurs whole in one piece of the split |
| `Chunking.SectionPieces` | platform_core/corpus/chunking.py:312-332 | the paragraph loop yields the pieces of the section |
| `Chunking.PiecesRecover` | platform_core/corpus/chunking.py:312-332 | under its own heading every paragraph within the target occurs whole in a piece, and the split of a larger one stands in consecutive pieces |
| `Chunking.PiecesAreBounded` | platform_core/corpus/chunking.py:312-332 | no piece is empty or exceeds target + overlap + separator |
| `Chunking.MergeRunts` | platform_core/corpus/chunking.py:334-346 | the merge loop yields the merged pieces |
| `Chunking.GroupsAscend` | platform_core/corpus/chunking.py:334-346 | pieces enter merged pieces in order, without gaps |
| `Chunking.MergedHolds` | platform_core/corpus/chunking.py:334-346 | consecutive pieces that went into one merged piece stand in it together, joined and in order, under their heading |
| `Chunking.RuntsAreMerged` | platform_core/corpus/chunking.py:334-346 | no runt stays behind a piece of its own heading |
| `Chunking.Emit` | platform_core/corpus/chunking.py:348-367 | the last loop yields the chunks of the merged pieces |
| `Chunking.ChunksAreWellNumbered` | platform_core/corpus/chunking.py:348-367 | each id is its text's, ids are pairwise distinct, ordinals are 0..n-1 |
| `Chunking.ChunksFollowTheDocument` | platform_core/corpus/chunking.py:348-367 | each merged piece has its chunk: it opens the next one, or repeats an earlier piece if and only if they share an identity |
| `Chunking.DocumentRecovers` | platform_core/corpus/chunking.py:298-367 | every paragraph of every section is recovered from the chunks: whole, or read back from its split piece after piece, merged pieces together and in order |
| `Chunking.ChunkDocument` | platform_core/corpus/chunking.py:298-367 | well-numbered chunks; every paragraph within the target occurs whole in a chunk that also names its heading; a larger one is read back from its split, and each of its sentences that fits is whole in a chunk |
| `Attestations.CollectPredicates` | scripts/verify_oci_attestations.py:92-102 | collects exactly the layers' predicate types, or rejects a layer that is no object |
| `Attestations.Inspect` | scripts/verify_oci_attestations.py:69-102 | accepts exactly well-shaped documents and takes from each what its kind offers |
| `Attestations.WalkIsComplete` | scripts/verify_oci_attestations.py:59-102 | when nothing is pending, what was seen is the least set closed under listed descriptors |
| `Attestations.VerifyArchive` | scripts/verify_oci_attestations.py:51-115 | terminates on cyclic and shared graphs, accepts only good archives with exactly the reachable predicate types, rejects only defective ones, and decides every archive within the limit |
| `Builds.OneLiveThroughout` | platform_core/corpus/builds.py:109-265 | at most one build is live in every run |
| `Builds.ViewChangesOnlyAtPromote` | platform_core/corpus/builds.py:109-265 | what readers see changes only at promote, unless a build is failed or written to while it is live |
| `Builds.PromotionServes` | platform_core/corpus/builds.py:136-178 | promotion serves exactly the promoted chunks, and nothing at all if and only if the version's row is gone |
| `Builds.NeverDarkIff` | platform_core/corpus/builds.py:136-265 | a served collection stays served throughout a run if and only if every promote names an existing build and every fail a build that is not live |
| `Builds.ReapKeepsTwo` | platform_core/corpus/builds.py:203-265 | at most two builds remain, the live one and the newest once-served build below it, both with their chunks |
| `Builds.TornReapIff` | platform_core/corpus/builds.py:214-259 | if an operation commits between reap's SELECTs and its DELETEs, nothing is served afterwards if and only if it promotes a build reap has decided against |
| `Builds.CleanIff` | platform_core/corpus/builds.py:203-259 | throughout a run no chunk stands under a version without a row if and only if no write names such a version |
| `Builds.ReindexOutcome` | workloads/reindex/workload.py:198-303 | from any state a reindex leaves the old view, or the chunks it wrote and those already under its number, unless something raises after promote: then its clean-up empties the live build |
| `Builds.ServesExactlyItsWritesIff` | workloads/reindex/workload.py:198-303 | a completed reindex serves exactly what it wrote if and only if nothing else was left under its number, and in a clean state nothing is |
| `Builds.StaleChunkIsServed` | workloads/reindex/workload.py:198-303 | a run in which a chunk written after its build was reaped is served by the next reindex |
| `Builds.CorpusBuilds.LiveVersion` | platform_core/corpus/builds.py:46-82 | the live version readers resolve to, or none |
| `Builds.CorpusBuilds.Begin` | platform_core/corpus/builds.py:109-133 | a version above all existing ones, building, with the view unchanged |
| `Builds.CorpusBuilds.WriteChunk` | workloads/reindex/workload.py:207-230 | one chunk more under a version, which readers see only if it is live |
| `Builds.CorpusBuilds.Promote` | platform_core/corpus/builds.py:136-178 | refuses an empty build and changes nothing then; otherwise demotes and promotes together |
| `Builds.CorpusBuilds.Fail` | platform_core/corpus/builds.py:181-200 | drops the version's chunks, marks a building row failed, and keeps the view unless the version is live |
| `Builds.CorpusBuilds.Reap` | platform_core/corpus/builds.py:203-265 | deletes every build but two, chunks included, or nothing when none is live |
| `RateLimit.PurgingIsInvisible` | platform_core/security/rate_limit.py:98-103 | dropping expired entries never changes a decision |
| `RateLimit.AtMostTwiceTheLimit` | platform_core/security/rate_limit.py:87-106 | at most 2·limit − 1 calls of a key are admitted in any half-open interval of window length |
| `RateLimit.TheBoundIsReached` | platform_core/security/rate_limit.py:87-106 | calls that reach that bound |
| `RateLimit.WindowAdmitsExactlyTheLimit` | platform_core/security/rate_limit.py:87-106 | each window admits the smaller of the limit and the calls that asked |
| `RateLimit.RateLimiter.CheckLocal` | platform_core/security/rate_limit.py:87-106 | each answer is that of a limiter that never purges |

## Left out

- LeaseSafety.MutualExclusion: assumes distinct worker ids among live executions, because the fence is `leased_by` alone.
- Delivery.NoLostIntent: claims no redelivery after the broker loses a pointer twice, because the sweep does not provide it.
- Outbox.PublishedWithinPosition: treats one relay; the `SKIP LOCKED` re-check between several relays is not modelled.
- Sweeping.SelectedIff: takes runs that tie in every ORDER BY column in id order, which the source leaves open.
- Store.Database.PerformOnce: an uninterrupted call whose statements succeed; a database error after the claim is an event of the state machine (`Protocol.Step`).
- Polling.ServeTenants: `execute_one` is a fixed predicate; the leases it takes are the business of `Store.Database.ExecuteLeased`.
- Ledger.PostgresLedger.Status: reads the tables each time; figures from the process-local cache are not modelled.
- AuditChain.AuditLog.VerifyChain: reads anchor and rows at one instant; `AuditChain.TornReadIff` says what the two reads can show.
- Builds.CorpusBuilds.Reap: runs its statements at one instant; `Builds.TornReapIff` says what one operation in between can do.
- Attestations.VerifyArchive: says nothing about which of several defects is reported first.
- Chunking.ChunkDocument: whitespace is the ASCII set, every character is one token (so counting is additive and a cut never divides a character), and the size of a chunk after the runt merge is not bounded (the merge itself sets no limit).
- Tools.ToolStore.Invoke: unknown tools, capability checks, argument validation, key length, size limits on arguments and the run named by the request context are not modelled.
- Store.Database.ExecuteLeased: the heartbeat thread beats between events of the state machine, not inside this uninterrupted execution; a missing handler is the same path as a non-transient fault before the first step.
- The budget cache and `check` of the ledger, and which tasks fail open; set_caps (caps are fixed).
- Checkpoints, telemetry, log lines and error texts.
- HTTP, authentication, row-level security, connection handling, deployment and settings checks.
- Retention of runs, usage and sessions; only the audit purge is modelled.
- Redis, the distributed limiter and its fail-closed path.
- LLM dispatch, embedding, ranking, the knowledge graph, evaluation and promotion gates.
- Extraction of text from HTML and CSV; the real tokenizer; floating-point rounding (times and costs are reals).
