# Verified model of the SatHop orchestrator protocol

SatHop moves satellite granules through a fleet: an orchestrator leases granules to workers, workers download,
process and upload them, receivers pull the products and acknowledge them, and workers then delete their copies.
This project models that protocol in Dafny and proves what every run of it keeps. `dafny verify dfyconfig.toml`
checks the whole project.

## Layout

- `StateMachine`, `Store`, `Protocol`: the pure transition function, the tables as values with what each
  handler's transaction does to them, and the transition system over all handlers, sweeps and operator actions.
- `Handlers`: the handlers in their imperative form, a class over the tables with the source's loops, each proved
  to compute its function of `Store`. `Keyset` and `Archiving` are the paging and the chunking they rely on.
- `Preservation`, `Counting`, `Ledger`, `Quota`, `Leases`, `Retries`: the invariant and the theorems about
  every run. `Ingress`, `Locality`, `Replay`, `Timeline`: batching, replays and what a report leaves behind.
- `Columns`: each handler's conditions and effects once more, in the tables' own columns, proved equal to `Store`'s.
- `FlushBuffers`, `WorkerRuntime`, `WorkerLink`: the worker's side, in time. `Scenarios` holds concrete runs: one that
  the theorems about resent reports cover, and the ones in which something the code does not promise is lost.
- `Report`, `Puller`, `Downloader`, `HttpRange`: the consistent export and the two byte movers.
- `Rollouts`, `Nudges`, `Registry`, `Names`: the smaller state machines and the composed names.

## How the model is framed

- One handler transaction is one step. The statements that re-check their condition when they write (lease sweep,
  reclaim, deletion) may carry any earlier selection and clock reading.
- Clocks are whole milliseconds. The pair of object id and upload time never repeats, although the database may
  hand out an id again after its row is gone.
- The receipt's hash is taken as injective: the hashed tuple itself is the key. A granule's internal id is kept as
  the pair it is composed of; `Names` says exactly when the composed text is as good.
- Names, digests, keys and worker ids are tokens compared only for equality; failure texts are a token and a length.
- A limit query picks any rows of the right number, and any set of locked rows may be skipped. What the network
  delivers, and in which order, is a parameter everywhere.

Where the code and its own description differ the model follows the code: `Quota.QuotaSign` (a lease quota can be
negative), `Names.CollisionCondition` (composed granule ids can collide), `Rollouts.CanarySize` (a negative canary
count takes almost the whole fleet), `WorkerRuntime.ModeSwitchDecides` (switching the detail mode during a granule
can cost its result), `WorkerLink.PopByGranuleId` and `Scenarios.LeasedAgainLosesWork` (a granule leased again to
the worker that still handles it can be reclaimed under the running handler), `Scenarios.StaleFailureHitsNewLease` (a
failure report repeated after its worker leased the granule again fails the new attempt).

## Model

| member | source | states |
|---|---|---|
| `Preservation.ReachableInv` | src/sathop/shared/state_machine.py:438-634 | in every reachable database: outside `deleted` a granule has an owner and an expiry exactly when leased; object rows exist only under uploaded, acked or deleted granules, with one uploader and one deletion time; acked means every row acked, uploaded with rows means some row not; each acked row has its receipt |
| `Preservation.NextKeepsInv` | src/sathop/orchestrator/api/_transition.py:46-103 | every protocol step, with whatever stale selection it writes, keeps that invariant |
| `Preservation.ReportMoves` | src/sathop/shared/state_machine.py:495-572 | an accepted report starts from a state without objects; only an upload adds them; a lease is kept in leased states and given up otherwise |
| `Preservation.AckOneConfirms` | src/sathop/orchestrator/api/receivers.py:210-234 | a confirmed report marks one row, adds its receipt if it was its first, and promotes the granule exactly when it was uploaded and is now fully acked |
| `Columns.FirstAck` | src/sathop/orchestrator/api/receivers.py:210-234 | the first matching success stamps the object and writes its receipt with the row's and the batch's content; the granule becomes acked, its delivery stage closed, exactly when it was uploaded and nothing is left unacked |
| `Columns.IdleAck` | src/sathop/orchestrator/api/receivers.py:201-224 | an acknowledgement of an unknown or acked object, or with another digest, changes nothing at all |
| `Timeline.StagesTile` | src/sathop/shared/state_machine.py:378-400 | the stages recorded along the single-step path start where the one before ended, in order, and add up to the time from claim to last report |
| `Timeline.FailureLeaves` | src/sathop/shared/state_machine.py:521-542 | an accepted failure releases the lease, counts one attempt, keeps the texts up to 2000 and 16000 characters, and stops the granule exactly when the attempts reach the cap |
| `Timeline.SuccessLeaves` | src/sathop/shared/state_machine.py:471-482 | an accepted upload releases the lease and leaves no failure text, with the attempts unchanged |
| `Timeline.UploadedRowsMatch` | src/sathop/orchestrator/api/_transition.py:79-89 | the rows an upload inserts are the reported objects, in order, hosted by the reporter and free to be pulled |
| `Counting.DeliveredExactlyOnce` | src/sathop/orchestrator/api/_transition.py:47-77 | in every reachable state the delivered counter is the deleted granules still present plus those already reaped |
| `Counting.CountsSumToAdded` | src/sathop/orchestrator/api/batch_readmodels.py:113-133 | the state counts of a batch always sum to the granules ever added to it |
| `Counting.AddedMinusReaped` | src/sathop/orchestrator/reaping.py:35-53 | granules ever added are those present plus those reaped |
| `Counting.FlipIsBalanced` | src/sathop/orchestrator/api/_transition.py:47-77 | a deletion on any snapshot counts once if it flips the row, and not at all otherwise |
| `Counting.RetainIsBalanced` | src/sathop/orchestrator/background.py:207-222 | the retention sweep removes only deleted granules, so the counter still accounts for all of them |
| `Ledger.AckedRowHasItsReceipt` | src/sathop/orchestrator/delivery_ledger.py:49-99 | an object row is acked exactly when some receipt matches it, and that receipt is unique and carries the row's content |
| `Ledger.ReceiptsEndure` | src/sathop/orchestrator/delivery_ledger.py:49-99 | receipts never change or vanish, whatever rows are removed |
| `Ledger.LedgerCountsFirstAcks` | src/sathop/orchestrator/api/receivers.py:201-234 | the ledger holds one receipt per first acknowledgement ever made |
| `Ledger.ReceiptNeedsMatchingReport` | src/sathop/orchestrator/api/receivers.py:226-234 | a receipt appears only with a successful report carrying its object's digest, in the reporter's name |
| `Quota.InflightCapped` | src/sathop/orchestrator/api/worker_leases.py:61-87 | with a positive cap no worker ever holds more in flight than the cap, in any reachable state |
| `Quota.CountsDisjoint` | src/sathop/orchestrator/api/worker_leases.py:61-73 | the leased and the hosted granules of a worker never overlap, so the two counts add up to the size of their union |
| `Quota.OnlyClaimsGrow` | src/sathop/shared/state_machine.py:471-491 | no step but a claim by that worker adds to what it holds: an upload moves a granule from one count to the other |
| `Quota.QuotaSign` | src/sathop/orchestrator/api/worker_leases.py:41-58 | the quota is negative exactly when the request is, although its description says never |
| `Columns.QuotaColumns` | src/sathop/orchestrator/api/worker_leases.py:41-87 | without a cap the quota is the request; with one it is the smaller of the request and what the granules in hand and hosted leave of the cap |
| `Leases.LeaseEndsOnlyBy` | src/sathop/orchestrator/api/worker_leases.py:124-246 | a lease ends only by its holder's report, a deletion, an operator, its holder's own reconcile, or expiry as seen when the sweep writes |
| `Leases.ClaimsAreSeparated` | src/sathop/orchestrator/api/worker_leases.py:124-153 | between two claims of one granule an entitled step ended the first claimer's lease |
| `Leases.SweepRechecks` | src/sathop/orchestrator/background.py:51-67 | whatever its stale selection, the sweep writes only rows that are leased and expired before its own clock reading when it writes |
| `Leases.RecentLeaseSurvivesSweep` | src/sathop/orchestrator/background.py:45-50 | a lease claimed or renewed less than its duration before the sweep's reading survives the sweep |
| `Leases.ReclaimRechecksOnlyOwner` | src/sathop/orchestrator/api/worker_leases.py:204-246 | a report of the holder that slips in between the reclaim's read and its write saves the granule exactly when it ends the lease itself; mere progress is thrown away |
| `Leases.DeletionKeepsLeaseFields` | src/sathop/orchestrator/api/_transition.py:55-65 | in reachable databases a deletion leaves an owner on the row exactly when it found the granule leased |
| `Leases.DeletedIsFinal` | src/sathop/orchestrator/api/_transition.py:47-77 | no step ever changes a deleted row again, whatever lease it still shows, until it is reaped |
| `Scenarios.DeletedWithOwner` | src/sathop/orchestrator/api/_transition.py:55-65 | a run from the empty database that ends with a deleted row that still has an owner |
| `Leases.ClaimableExactly` | src/sathop/orchestrator/api/worker_leases.py:124-138 | in every reachable database a granule is claimable exactly when it is pending and its batch is not paused |
| `Leases.RequeueClears` | src/sathop/orchestrator/api/admin.py:209-243 | requeueing leaves no undeliverable granule, and touches no other granule and no object of one |
| `Leases.SoftClaimExcludes` | src/sathop/orchestrator/api/receivers.py:102-135 | in every run: from its pull until its soft claim expires an object is offered to nobody, unless a failure of it is reported or its id is handed out again |
| `Leases.SoftClaimLapses` | src/sathop/orchestrator/api/_helpers.py:40-53 | after the expiry it is offered to whom it was offered before |
| `Leases.FailureReoffers` | src/sathop/orchestrator/api/receivers.py:163-187 | a reported failure re-offers the object at once exactly when attempts are left |
| `Retries.RetryCountIsAttempts` | src/sathop/shared/state_machine.py:521-608 | the retry count is the accepted failures plus the revocations since the last operator reset, with at most the configured number of failures in between |
| `Retries.ClientsAloneSettle` | src/sathop/shared/state_machine.py:521-608 | under claims, reports and acknowledgements alone a granule changes state at most as often as its measure allows |
| `Retries.ReportDescends` | src/sathop/shared/state_machine.py:495-542 | every accepted report lowers the lexicographic measure of attempts and states left |
| `Retries.PendingMayBePastTheCap` | src/sathop/shared/state_machine.py:557-570 | in every reachable database the count of a pending granule is below the cap plus its revocations: only revocations take it past the cap |
| `Scenarios.PendingPastAnyCap` | src/sathop/shared/state_machine.py:557-570 | for every count, and so past every cap, a run from the empty database that ends with a pending granule of that count |
| `Ingress.AckBatchIsOneByOne` | src/sathop/orchestrator/api/receivers.py:255-315 | marking all, archiving once and promoting once leaves exactly what single acknowledgements leave |
| `Ingress.BulkIsTheTransition` | src/sathop/orchestrator/api/worker_leases.py:104-201 | claims, revocations, cancellations and retries write what the transition function decides for the row, and nothing else |
| `Ingress.PromotionIsTheTransition` | src/sathop/orchestrator/api/receivers.py:231-233 | promotion is the object-acked transition, accepted exactly from uploaded |
| `Ingress.RequeueIsTheTransition` | src/sathop/orchestrator/api/admin.py:234-238 | requeueing is the requeue transition plus dropping the object rows |
| `Locality.EmitAllIsLocal` | src/sathop/orchestrator/api/workers.py:232-265 | a batch of reports acts on each granule's row, timings and objects by that granule's own reports alone |
| `Locality.InterleavingIsIrrelevant` | src/sathop/orchestrator/api/workers.py:232-265 | two batches with the same subsequence per granule leave every granule and every delivered counter the same |
| `Replay.ReplayIsNoOp` | src/sathop/orchestrator/api/workers.py:250-263 | re-applying a batch in pipeline order changes nothing |
| `Replay.BatchIsNoOpExactly` | src/sathop/orchestrator/api/workers.py:250-263 | a batch, whatever its order, changes nothing exactly when each of its reports is ignored |
| `Replay.IgnoredStays` | src/sathop/shared/state_machine.py:385-492 | a report that would change nothing stays so, whatever else happens, until a claim or an addition opens its granule to it again |
| `Replay.ClaimRevives` | src/sathop/orchestrator/api/worker_leases.py:124-153 | a claim revives an ignored report exactly when it is its own worker's claim and the report acts on a fresh lease |
| `Replay.AdditionRevives` | src/sathop/orchestrator/api/batches.py:210-240 | adding a granule whose row was reaped revives exactly the deletion reports |
| `Replay.FlushActsOnce` | src/sathop/shared/flush_buffer.py:91-106 | in every run with FIFO at-least-once flushes of a log each flush leaves the database that only its never-delivered part would leave, if no step in between revives a delivered report that is sent again |
| `Replay.RunSendsOnce` | src/sathop/shared/flush_buffer.py:91-106 | so the run's databases are those of the run in which every report is sent at most once |
| `Replay.NothingSentAgain` | src/sathop/shared/flush_buffer.py:91-106 | when no report is sent twice there is no condition on the other steps or on the order of the log |
| `Replay.CarriedOnceInOrder` | src/sathop/shared/flush_buffer.py:91-106 | when nothing was shed those parts are the log's prefix, each report once and in order |
| `Replay.DeliveredIsIgnored` | src/sathop/orchestrator/api/workers.py:250-263 | in every such run, what was delivered and is to be sent again is ignored |
| `Replay.AcceptsDecides` | src/sathop/shared/state_machine.py:385-528 | the states from which each report is accepted |
| `Replay.FailureReportActsOnWhateverLease` | src/sathop/orchestrator/api/workers.py:197-199 | a failure report changes the database exactly when its worker holds the granule, be it by a newer lease |
| `Scenarios.RetryIsALogRun` | src/sathop/orchestrator/api/workers.py:232-265 | a run of that kind: a failure, the same granule leased again and reported on, both flushes repeated; both first flushes act and neither repetition does |
| `Scenarios.StaleFailureHitsNewLease` | src/sathop/orchestrator/api/workers.py:197-203 | the run that breaks it: the granule is leased again before the failure report is repeated, and the repetition takes the new lease away |
| `Handlers.Orchestrator.ApplyToSession` | src/sathop/orchestrator/api/_transition.py:46-103 | materialises one transition result: the conditional, counted delete, or the row with its objects and stage rows |
| `Handlers.Orchestrator.FlipToDeleted` | src/sathop/orchestrator/api/_transition.py:47-77 | only the request that flips the row marks the objects and bumps the counter |
| `Handlers.Orchestrator.Transition` | src/sathop/orchestrator/api/_transition.py:130-159 | snapshot, decide, write; a conflict writes nothing |
| `Handlers.Orchestrator.EmitEvent` | src/sathop/orchestrator/api/workers.py:190-203 | one report: unknown granules and stolen leases are refused without effect |
| `Handlers.Orchestrator.EmitEventsBatch` | src/sathop/orchestrator/api/workers.py:232-265 | a batch of reports leaves what posting them singly leaves and returns the granules it missed |
| `Handlers.MissedGranulesComplete` | src/sathop/orchestrator/api/workers.py:252-259 | every missed event's granule is returned |
| `Handlers.MissedGranulesSound` | src/sathop/orchestrator/api/workers.py:252-259 | every returned granule has a missed event |
| `Handlers.MissedGranulesOnce` | src/sathop/orchestrator/api/workers.py:265 | no granule is returned twice |
| `Handlers.Orchestrator.Update` | src/sathop/orchestrator/api/worker_leases.py:235-246 | one guarded UPDATE writes every named row that meets its condition and counts them |
| `Handlers.Orchestrator.TransitionEach` | src/sathop/orchestrator/api/worker_leases.py:181-201 | putting the selected rows through the transition function one by one equals the bulk update |
| `Handlers.Orchestrator.ClaimPending` | src/sathop/orchestrator/api/worker_leases.py:104-153 | claims as many claimable, unlocked rows as the limit allows |
| `Handlers.Orchestrator.Lease` | src/sathop/orchestrator/api/workers.py:168-186 | a worker that is known, not removed and not paused gets as many claimable granules as the quota allows; others are refused |
| `Handlers.Orchestrator.RevokeWorkerLeases` | src/sathop/orchestrator/api/worker_leases.py:181-201 | revokes every lease of the worker |
| `Handlers.Orchestrator.ReclaimInactive` | src/sathop/orchestrator/api/worker_leases.py:204-246 | releases the worker's leases that were unreported and untouched for the grace |
| `Handlers.Orchestrator.Heartbeat` | src/sathop/orchestrator/api/workers.py:117-164 | reclaims what a reported set leaves out, renews, and returns the reported granules the worker does not hold; without a reported set nothing but expiries changes |
| `Handlers.Orchestrator.RevokedActive` | src/sathop/orchestrator/api/worker_heartbeat.py:88-104 | the reported granules not held, in report order |
| `Handlers.HeartbeatReconciles` | src/sathop/orchestrator/api/worker_leases.py:170-246 | after a heartbeat every lease was reported or is within the grace and has half its duration left; a lease is lost exactly when unreported and older |
| `Handlers.UnownedExact` | src/sathop/orchestrator/api/worker_heartbeat.py:88-104 | the revoked list is exactly the reported granules the worker does not own |
| `Handlers.Orchestrator.Register` | src/sathop/orchestrator/api/workers.py:81-113 | a re-registering worker's leases are revoked, a removed one is turned away |
| `Handlers.Orchestrator.RemoveWorker` | src/sathop/orchestrator/api/workers.py:493-534 | marks the worker removed, with force revoking its leases and writing off its undeleted objects; purges the row of a removed one and only of such |
| `Handlers.Orchestrator.ArchiveConfirmed` | src/sathop/orchestrator/delivery_ledger.py:49-99 | page by page, adds the receipts of the acked rows in scope that have none |
| `Handlers.Orchestrator.InsertPage` | src/sathop/orchestrator/delivery_ledger.py:75-98 | adds one page of receipts |
| `Handlers.Orchestrator.RecordPullFailure` | src/sathop/orchestrator/api/receivers.py:163-187 | counts a failed pull of an unacked object and drops its soft claim |
| `Handlers.Orchestrator.ApplyAck` | src/sathop/orchestrator/api/receivers.py:238-251 | applies one report to its row and says whether it confirmed it |
| `Handlers.Orchestrator.AckReport` | src/sathop/orchestrator/api/receivers.py:210-235 | one acknowledgement: unknown objects and wrong digests are refused |
| `Handlers.Orchestrator.AckReports` | src/sathop/orchestrator/api/receivers.py:255-315 | a batch of acknowledgements leaves what single ones leave |
| `Handlers.Orchestrator.MarkEach` | src/sathop/orchestrator/api/receivers.py:286-293 | marks the rows in order and collects the granules touched |
| `Handlers.Orchestrator.PromoteEach` | src/sathop/orchestrator/api/receivers.py:296-312 | promotes the touched granules that are now fully acked |
| `Handlers.Orchestrator.Pull` | src/sathop/orchestrator/api/receivers.py:95-136 | to an enabled receiver: every object handed out is unacked, undeleted, below the failure cap, free of a claim, of an uploaded granule, and of a batch with no target or this one; every such unlocked object below the last one handed out is among them; exactly those are claimed |
| `Handlers.Orchestrator.SweepExpiredLeases` | src/sathop/orchestrator/background.py:51-71 | the sweep's write, for any earlier selection |
| `Handlers.Orchestrator.SweepOrphanedAcked` | src/sathop/orchestrator/background.py:134-165 | exactly the acked granules without an undeleted object on a live worker are deleted, with all their objects, and each batch counts exactly its own; every other row stays as it was |
| `Handlers.Orchestrator.ReapGranules` | src/sathop/orchestrator/reaping.py:35-53 | chunk by chunk, removes the granules and what refers to them, keeps their receipts, and counts the rows |
| `Archiving.ReapInChunks` | src/sathop/orchestrator/reaping.py:46-52 | reaping chunk after chunk is reaping all at once, receipts included |
| `Handlers.Orchestrator.SweepRetention` | src/sathop/orchestrator/background.py:199-222 | exactly the object rows deleted before the cutoff go, and the granules deleted and last touched before it with all that is theirs |
| `Handlers.Orchestrator.RequeueUndeliverable` | src/sathop/orchestrator/api/admin.py:209-243 | resets every stuck granule in scope and drops its object rows |
| `Handlers.Orchestrator.AddToBatch` | src/sathop/orchestrator/api/batches.py:211-239 | adds the new names as pending granules, skips the known ones, refuses duplicates |
| `Handlers.Orchestrator.DeleteBatch` | src/sathop/orchestrator/api/batches.py:435-487 | refuses while granules are leased unless forced, then removes the batch and keeps its receipts |
| `Handlers.Orchestrator.Deletable` | src/sathop/orchestrator/api/workers.py:269-299 | exactly the granules of which the worker hosts an undeleted object and all undeleted objects are acked |
| `Handlers.DeletableIsDelivered` | src/sathop/orchestrator/api/workers.py:269-299 | a granule offered for deletion is acked or deleted, with every object acked, receipted and hosted by that worker |
| `Keyset.FetchPage` | src/sathop/orchestrator/delivery_ledger.py:37-46 | a keyset page: the next ids in order up to the limit |
| `Keyset.PageCovers` | src/sathop/orchestrator/delivery_ledger.py:40-46 | everything between two page starts is on the page |
| `WorkerLink.NoFinishedWorkLost` | src/sathop/worker/runtime.py:142-156 | while a lease reply and a heartbeat together take at most the grace, and no reply names a granule still in the handler dictionary, no heartbeat reclaims a granule being worked on or whose event is owed |
| `WorkerLink.PopByGranuleId` | src/sathop/worker/runtime.py:142-147 | popping by granule id keeps the dictionary true exactly when the finished handler's granule was not being handled already |
| `WorkerLink.HandledReplyLosesWork` | src/sathop/worker/runtime.py:136-147 | when it was, the next report leaves the granule out and a minute later the reconcile releases it under the running handler |
| `Scenarios.LeasedAgainLosesWork` | src/sathop/worker/runtime.py:136-147 | a run from a fresh worker that gets there: leased, revoked, leased again to the same worker, the second handler ends at once; that lease reply is the only step outside the guard, and the granule ends pending under its running handler |
| `WorkerLink.LinkStepKeeps` | src/sathop/worker/event_buffer.py:39-56 | what the dictionary, the buffer, the messages in flight and the leases have in common is kept by every step |
| `WorkerRuntime.EventBuffer.Enqueue` | src/sathop/worker/event_buffer.py:23-35 | appends without blocking, and wakes the flusher for a terminal event or a full batch |
| `WorkerRuntime.EventBuffer.BeginSend` | src/sathop/worker/event_buffer.py:39-42 | slices a batch and remembers its granules |
| `WorkerRuntime.EventBuffer.EndSend` | src/sathop/worker/event_buffer.py:43-48 | forgets the batch's granules; a failed batch is back in the queue in the same turn |
| `WorkerRuntime.EventBuffer.PendingGranuleIds` | src/sathop/worker/event_buffer.py:50-56 | exactly the granules of events queued or mid-send |
| `WorkerRuntime.Runtime.StartHandler` | src/sathop/worker/runtime.py:136-140 | starts a handler as the link model does |
| `WorkerRuntime.Runtime.OnHandlerDone` | src/sathop/worker/runtime.py:142-147 | removes the granule before signalling the free slot |
| `WorkerRuntime.Runtime.ActiveGranuleIds` | src/sathop/worker/runtime.py:149-156 | the handled granules and those whose events are owed |
| `WorkerRuntime.Runtime.PipelineTurn` | src/sathop/worker/runtime.py:368-411 | one turn of the loop starts a handler for every item leased, and as no more is leased than asked for the dictionary never outgrows the ceiling; nothing is leased while leasing is gated |
| `WorkerRuntime.Runtime.CancelRevoked` | src/sathop/worker/runtime.py:290-294 | cancels exactly the running handlers of revoked granules |
| `WorkerRuntime.Handle` | src/sathop/worker/handler.py:115-148 | enqueues one handler's reports |
| `WorkerRuntime.HandlerReportsInOrder` | src/sathop/worker/handler.py:150-244 | a handler reports in pipeline order with at most one terminal report, as its last |
| `WorkerRuntime.FinishedRunUploads` | src/sathop/worker/handler.py:115-244 | the reports of a finished run, in either mode, leave the leased granule uploaded at the orchestrator, with exactly the run's objects added in order |
| `WorkerRuntime.OtherRunsEnd` | src/sathop/worker/handler.py:115-244 | those of a failed run give the granule up with one attempt and the failure's text; a cancelled run keeps its lease |
| `WorkerRuntime.ModeSwitchDecides` | src/sathop/shared/state_machine.py:438-469 | a finished run leaves its granule uploaded exactly when the detail mode did not go from verbose to fast between the first two reports |
| `WorkerRuntime.FastRecordsTheSameStages` | src/sathop/shared/state_machine.py:438-470 | the fast path records the verbose path's stages and durations, minus the download wait |
| `FlushBuffers.FlushBuffer.Enqueue` | src/sathop/shared/flush_buffer.py:52-57 | appends the item and wakes the flusher for an item that cannot wait or a full batch |
| `FlushBuffers.FlushBuffer.BeginFlush` | src/sathop/shared/flush_buffer.py:91-95 | in-flight plus queued stays a suffix of the enqueue order |
| `FlushBuffers.FlushBuffer.FlushSucceeded` | src/sathop/shared/flush_buffer.py:96-97 | exactly the batch's items become sent, in enqueue order |
| `FlushBuffers.FlushBuffer.FlushFailed` | src/sathop/shared/flush_buffer.py:98-106 | the batch goes back in front, the oldest items past the bound are shed, and at most the bound remains |
| `FlushBuffers.FlushBuffer.Flush` | src/sathop/shared/flush_buffer.py:91-106 | one flush, whether or not its request arrives and is confirmed |
| `FlushBuffers.FlushBuffer.Drain` | src/sathop/shared/flush_buffer.py:68-74 | the drain ends, empty or after a flush that made no progress |
| `FlushBuffers.RequestsInARun` | src/sathop/shared/flush_buffer.py:91-106 | the order the buffer guarantees of its arrived requests carries over to a run with other steps between them |
| `FlushBuffers.BufferSendsOnce` | src/sathop/shared/flush_buffer.py:91-106 | the buffer and the orchestrator together: with this buffer's arrived requests, confirmed or not, the databases are those of sending each report at most once; if nothing was shed, that is a prefix of what was ever enqueued, in order, with every item the buffer counts as sent |
| `Report.DeliveryReport` | src/sathop/orchestrator/api/batch_reports.py:42-142 | the first section lists exactly the batch's objects present at the start and unrecorded then, the second exactly the receipts present then, each once, in any chunking, from whatever later state each page is read |
| `Report.EachExactlyOnce` | src/sathop/orchestrator/api/batch_reports.py:85-142 | every object present at the start appears exactly once over both sections, every earlier receipt exactly once |
| `Report.ScanObjects` | src/sathop/orchestrator/api/batch_reports.py:88-128 | the bounded scan of retained objects |
| `Report.ScanReceipts` | src/sathop/orchestrator/delivery_ledger.py:30-46 | the bounded scan of receipts |
| `Report.SameDueObjects` | src/sathop/orchestrator/api/batch_reports.py:104-112 | the same objects are due whichever state a page is read from |
| `Report.StepGrows` | src/sathop/orchestrator/api/batch_reports.py:47-63 | every protocol step that removes no object row keeps what the export relies on |
| `Report.RunEvolves` | src/sathop/orchestrator/api/batch_reports.py:47-63 | what the queries see along any run without removals is what the export relies on |
| `Report.EveryRunNumbers` | src/sathop/orchestrator/delivery_ledger.py:18-46 | the receipts of every run can be numbered in the order of their insertion |
| `Report.DeliveryReportInRun` | src/sathop/orchestrator/api/batch_reports.py:42-142 | a report made during any run without removals, with its queries at any moments of it, lists every object the batch had at the first query exactly once over both sections, every receipt of the second query exactly once, and nothing else |
| `Puller.ByteRanges` | src/sathop/receiver/puller.py:55-67 | the ranges are consecutive, non-empty, cover the object and are of equal length but for the last; a negative size is refused |
| `Puller.CoveredOnce` | src/sathop/receiver/puller.py:55-67 | every position lies in exactly one range |
| `Puller.Segment.OnResponse` | src/sathop/receiver/puller.py:86-102 | a response is streamed only if it serves exactly the range asked for, of an object of the expected size |
| `Puller.Segment.OnChunk` | src/sathop/receiver/puller.py:103-107 | a chunk is written at the segment's own position, or refused when it overshoots; nothing outside the range changes |
| `Puller.Segment.On` | src/sathop/receiver/puller.py:109-142 | a transient failure costs one of three retries and no byte; a fourth, a client error or an answer for anything else is final |
| `Puller.PullSegmented` | src/sathop/receiver/puller.py:145-183 | for any size, segment count and interleaving, the pull completes exactly when every segment returned, and then the file is the object; it completes whenever each segment meets at most three breaks, short bodies or server errors before a full answer |
| `Puller.AnswerFinishes` | src/sathop/receiver/puller.py:117-126 | from any point of any attempt one full answer finishes the segment |
| `Puller.ResumesAndReturns` | src/sathop/receiver/puller.py:109-142 | after at most three setbacks, each met from where the last one got to, the segment returns with its whole range |
| `Puller.ProgressKept` | src/sathop/receiver/puller.py:113-142 | written bytes are never given up, and a segment makes at most four requests |
| `Puller.BrokenAfterLastByte` | src/sathop/receiver/puller.py:117-142 | a segment that breaks after its last byte can never return, as its next request has an empty range |
| `Downloader.Files.Fetch` | src/sathop/worker/downloader.py:155-233 | the partial file stays a prefix of the object; with the rest served as asked, the whole served anew, a whole partial confirmed, or a refused resume served on the second request, the fetch returns and the destination is the object; an answer about another stretch or of another length is refused |
| `Downloader.Files.Accept` | src/sathop/worker/downloader.py:189-233 | an error status, another stretch or a transformed partial is refused without touching the file; a broken transfer keeps what arrived |
| `Downloader.Files.Receive` | src/sathop/worker/downloader.py:217-227 | appends the chunks, refusing one past the declared size |
| `Downloader.Files.FetchAgain` | src/sathop/worker/downloader.py:155-233 | over any sequence of attempts the partial file stays a prefix and a return means the whole object |
| `Downloader.UndeclaredIsTrusted` | src/sathop/worker/downloader.py:214-233 | without a declared size a fetch returns with whatever arrived, which is the object exactly when all of it did |
| `HttpRange.ParseUndoesFormat` | src/sathop/shared/http_range.py:16-24 | parsing reads back a formatted range, whatever white space and case surround it |
| `HttpRange.FormatUndoesParse` | src/sathop/shared/http_range.py:16-24 | whatever parses is a valid range, and its canonical form parses to the same |
| `HttpRange.ParsedShape` | src/sathop/shared/http_range.py:16-24 | whatever parses is of the prescribed form, between white space, and is read as the numbers written |
| `HttpRange.UnsatisfiedShape` | src/sathop/shared/http_range.py:27-29 | the same for the size a 416 reports |
| `HttpRange.UnsatisfiedRoundTrip` | src/sathop/shared/http_range.py:27-29 | the size a 416 reports is read back and is never taken for a range |
| `HttpRange.ParseContentRange` | src/sathop/shared/http_range.py:16-24 | a parsed range is non-empty and inside its total |
| `Rollouts.AtMostOneOpen` | src/sathop/orchestrator/api/rollout.py:119-120 | at most one rollout is pending, running or halted in every reachable state |
| `Rollouts.WavesNeverGoBack` | src/sathop/orchestrator/background.py:343 | a rollout's wave index never decreases |
| `Rollouts.LaterWaveIsGated` | src/sathop/orchestrator/background.py:366-374 | a later wave is stamped only at a tick where every member of the frozen cohort is on target or excused |
| `Rollouts.TickDecides` | src/sathop/orchestrator/background.py:353-383 | a pending rollout enters the canary; a running one enters the next wave, or is done, when no member is still to come; a blocked one is halted at its deadline and else waits |
| `Rollouts.RaisedWaveStamps` | src/sathop/orchestrator/background.py:328-350 | whenever a wave is raised its cohort is the first workers by id that are not removed, not paused and off the target, each is told to update, and no other worker is |
| `Rollouts.ResumeStamps` | src/sathop/orchestrator/api/rollout.py:171-190 | a resume tells exactly the cohort's members still off target again, and sets the deadline anew |
| `Rollouts.LaterCohortSizes` | src/sathop/orchestrator/background.py:295-303 | a batch wave's cohort is the asked fraction of the workers left, rounded up, at least one; the fleet wave's is all of them |
| `Rollouts.OnlyTheCohortIsStamped` | src/sathop/orchestrator/background.py:336-342 | only members of the open rollout's cohort are stamped, with its target |
| `Rollouts.CanarySize` | src/sathop/orchestrator/background.py:295-303 | the canary takes at most the configured count exactly when that is not negative or the fleet is small |
| `Rollouts.CanaryStampsBounded` | src/sathop/orchestrator/background.py:328-350 | in every run all ticks and resumes of a canary wave together stamp at most as many workers as a count that is not negative |
| `Rollouts.LaterWaveSizes` | src/sathop/orchestrator/background.py:300-303 | the batch wave takes the asked fraction rounded up, at least one; the fleet wave all |
| `Rollouts.AtMostFourTicks` | src/sathop/orchestrator/background.py:353-383 | without a resume at most four ticks change a rollout's row |
| `Rollouts.Service.MemberBreakdown` | src/sathop/orchestrator/background.py:305-325 | every cohort member is confirmed, awaited or excused |
| `Rollouts.Service.Enter` | src/sathop/orchestrator/background.py:328-350 | freezes the wave's cohort and tells exactly its members to update, or finishes when nobody is left |
| `Rollouts.Service.Advance` | src/sathop/orchestrator/background.py:353-383 | one leader tick: what it does to the newest rollout and to the workers, case by case |
| `Rollouts.Service.StartRollout` | src/sathop/orchestrator/api/rollout.py:116-146 | refused exactly while a rollout is open; zero means the default |
| `Rollouts.Service.AbortRollout` | src/sathop/orchestrator/api/rollout.py:158-167 | closes the open rollout |
| `Rollouts.Service.ResumeRollout` | src/sathop/orchestrator/api/rollout.py:171-190 | re-stamps the members still awaited and extends the deadline |
| `Nudges.Hub.FanOut` | src/sathop/orchestrator/pubsub.py:61-66 | every subscriber gets the event unless its queue is full |
| `Nudges.Hub.CloseWindow` | src/sathop/orchestrator/pubsub.py:69-79 | a repeated scope is told to every subscriber once more and keeps its window; otherwise the window closes |
| `Nudges.Hub.Coalesce` | src/sathop/orchestrator/pubsub.py:82-97 | a nudge is told to every subscriber at once or marked in its open window; two fan-outs of a scope stay a window apart |
| `Nudges.Hub.LocalPublish` | src/sathop/orchestrator/pubsub.py:100-111 | plain nudges are coalesced, everything else passes at once |
| `Nudges.NothingPending` | src/sathop/orchestrator/pubsub.py:69-97 | when a scope's window is closed every nudge of it has gone out within a window |
| `Nudges.RateBound` | src/sathop/orchestrator/pubsub.py:49-58 | a scope's fan-outs in a stretch of time are at most one per window and one more |
| `Registry.Registry.UploadBundle` | src/sathop/orchestrator/api/bundles.py:102-154 | registers a bundle whose shared files exist and stores its blob once per digest |
| `Registry.Registry.DeleteBundle` | src/sathop/orchestrator/api/bundles.py:284-308 | refused while a batch refers to the bundle; the blob goes with the last row that has its digest |
| `Registry.Registry.CollectGarbage` | src/sathop/orchestrator/api/admin.py:146-205 | left are exactly the bundles some batch refers to and those uploaded from the threshold on; exactly the blobs nothing refers to any more are unlinked |
| `Registry.Registry.CreateBatch` | src/sathop/orchestrator/api/batches.py:148-170 | accepts exactly a fresh id with a reference to a registered bundle |
| `Registry.Registry.PutShared` | src/sathop/orchestrator/api/shared.py:89-146 | replaces the file and its row together |
| `Registry.Registry.DeleteShared` | src/sathop/orchestrator/api/shared.py:180-202 | refused while a registered bundle needs the file |
| `Registry.BatchIsServable` | src/sathop/orchestrator/api/batches.py:158-170 | for every batch the bundle's row, its blob and its shared files are there |
| `Registry.DeletionSpares` | src/sathop/orchestrator/api/bundles.py:287-300 | a bundle no reference formats to is no batch's bundle |
| `Names.FormatUndoesParse` | src/sathop/shared/bundle_ref.py:14-29 | a reference that parses is the formatted reference of what it parses to |
| `Names.ParseUndoesFormat` | src/sathop/shared/bundle_ref.py:14-29 | parsing gives a key back exactly when neither part is empty and the version has no `@` |
| `Names.RegistrableParses` | src/sathop/shared/bundle_manifest.py:41-61 | every name and version a manifest may carry is read back |
| `Names.CollisionCondition` | src/sathop/orchestrator/api/batches.py:70-75 | two batches can share an internal granule id exactly when one batch id followed by a colon begins the other, although the description says collisions are impossible |
| `Names.CollisionExample` | src/sathop/orchestrator/api/batches.py:70-75 | batch `a` with `b:x` and batch `a:b` with `x` get the same id |
| `Names.WithinABatchDistinct` | src/sathop/orchestrator/api/batches.py:70-75 | within one batch distinct names get distinct ids |

## Left out

- HTTP routing, authentication, SQL and row locking, LISTEN/NOTIFY and leader election: their effect is the atomic step.
- Transactions split under read-committed: two sibling acknowledgements could then both miss the promotion (`src/sathop/orchestrator/api/receivers.py:211` locks the row, not the granule).
- Receipt numbers that become visible out of order (a sequence value taken before another transaction commits): `Report` assumes later receipts have larger numbers.
- Event log rows, progress timelines, telemetry, caches, metrics, version flaps and the update and cache-collection one-shots of workers: plumbing next to the protocol.
- Handlers.Orchestrator.Heartbeat: leaves out the display telemetry and the one-shot signals it also delivers.
- Handlers.Orchestrator.SweepOrphanedAcked: takes the set of live workers as a parameter, however liveness was judged.
- Handlers.Orchestrator.SweepRetention: does not model pruning event rows and removed workers.
- Handlers.Orchestrator.AddToBatch: takes names that passed the bundle's input schema; schema validation is not part of this model.
- FlushBuffers.FlushBuffer.BeginFlush: a send cancelled half-way is not modelled; the code then loses the batch, as its handler does not catch cancellation (`src/sathop/shared/flush_buffer.py:98`).
- FlushBuffers.FlushBuffer.RequestArrives: a request that the orchestrator handles only after the worker has given up on it and sent the next one is not modelled; requests arrive while their flush waits, or never.
- WorkerLink.NoFinishedWorkLost: the queue holds the handlers' events only; deletion events concern granules without a lease.
- Nudges.Hub.Coalesce: one event loop; a second loop drops the first one's windows, and publishing without a loop fans out at once.
- Puller.PullSegmented: stands for the file alone; hashing, renaming and the temporary file's removal are not modelled, nor is the back-off between attempts.
- Downloader.Files.Fetch: takes answers that are honest about one unchanging object as the network's side of the claim; credentials and progress callbacks are left out.
- Rollouts.Service.StartRollout: release lookup and the check against the orchestrator's own version come before it and are not modelled; the batch fraction is a real number.
- Registry.Registry.UploadBundle: the archive and manifest are parsed elsewhere; a blob left by a crash between file and row is not modelled.
- HttpRange.ParseContentRange: digit strings have no length limit, unlike the interpreter's own conversion.
- Bundle execution, environments, certificates, the MinIO and aria2 backends, signal handling: foreign calls.
- The web interface and the command line reports: user interface with easy arithmetic.
- Manifest and YAML parsing, regular expressions, schema migration: long but shallow branch checks.
