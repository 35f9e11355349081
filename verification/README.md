# Verified model of the native download engine

This project models the engine that fills one partial file from many ranged
HTTP responses, survives crashes, and publishes the file atomically, together
with the views of progress built on it. It proves properties over every input,
every interleaving and every reachable state. `dafny verify dfyconfig.toml`
checks all of it.

How the pieces fit together:

- **Arithmetic, Ranges, Coordinator.** Byte ranges, the completed list and its complement,
  request planning, and the shared queue of chunks. Each section guarded by the
  coordinator's mutex is a step function and a method of `WorkCoordinator`
  proved equal to it.
- **Storage, StorageOutcomes, PartialFiles.** Write ownership, canonical coverage and the
  Active/Validating/Validated/Published lifecycle, as `PartialFile` and its two
  writers. The operating system answers every write; a failed write leaves any
  bytes inside its own span, and `unsynced` lists the spans a crash may lose.
- **Network.** The checks on a 206 response (RFC 9110, sections 8.8.3, 14.4 and
  15.3.7) down to header text. A server is a function from strong entity tags to
  bytes (section 8.8.1 of RFC 9110) and may change tags at any time.
- **Transfer, TransferSafety, TransferTheorems, TransferSuccess, Hedging.** A segmented
  transfer as an arbitrary interleaving of worker steps, failures, hedges and
  cancellation, its invariant, what holds of whole transfers, that transfers can
  succeed, and when their last request is duplicated.
- **Download.** Transfers with checkpoints, failed checkpoints, retries, crashes
  at any step and resumption.
- **SingleTransfer.** The one-request transfer of known or unknown length.
- **TaskRecord, RecordOutcomes, TaskStores, Records, RecordedCoverage.** The task record
  with every mutator and exactly when each succeeds, its validation, the revisioned
  store, the persisted text fields, and the record together with the storage object its
  captures come from.
- **Lifecycle, LifecycleSafety, LifecycleTheorems, LifecycleProgress,
  LifecycleOutcomes, ManagedTasks.** A run and its controls as sections under the task
  lock: stop requests against publication, what each section leads to, and that runs
  end within their retry budget.
- **Recovery, RecoverySafety, RecoveryTheorems.** The same runs with the
  destination directory, crashes between any two sections, loading and recovery.
- **Delivery, DeliverySafety, DeliveryTheorems.** Recovery and Transfer composed: records,
  directory and bytes of one task over every history, and what its final name reaches.
- **Admission, AdmissionTheorems.** Permits, cooldowns, bans and reclaimed table
  entries under any number of callers.
- **Events, Sessions, Connection, EventStream, TaskViews.** The event buffer, snapshot
  paging and replies, the extension's reassembly, and the progress numbers they carry.
- **Estimator, Calendar, Timestamps, Retry.** Speed and time left, the closed
  form of the calendar, rendered timestamps, and retry budgets.

## What the code does not do

Six statements one might expect are false of the code, or of one function of it on its
own. Each has a lemma with the concrete situation, and the property is proved exactly
where it holds.

1. `validate_task` is not inductive: a valid record can be made invalid by a legal
   mutator unless a record without a partial claims no coverage
   (`TaskRecord.ValidationAloneIsNotInductive`). The mutators never build such a
   record; this is a fact about the validator.
2. `refresh_completed` does not check that a validating record keeps its exact coverage,
   so alone it can make a valid record invalid
   (`TaskRecord.RefreshMayUnsettleValidation`, exactly: `TaskRecord.MutateKeepsSound`,
   `TaskRecord.RunStaysSoundExactly`). With the storage object it captures from this
   never happens (`RecordedCoverage.CaptureIsExact`, `RecordedCoverage.RecordStaysSound`).
3. A shutdown can still be recorded after a run completed and before it is marked
   inactive; nothing reads it (`LifecycleTheorems.PublicationIsUndisturbed`).
4. A durable record does not always load. Exactly two sections break that
   (`RecoveryTheorems.StepStrandsExactly`, `RecoveryTheorems.RecordLoadsExactly`): a
   failing run deletes the partial its durable record needs while neither the failure nor
   the deletion is recorded (`RecoveryTheorems.FailureMayStrandTheRecord`), and a retry in
   the same process starts to transfer, through its open handle, into a partial whose
   unrecorded deletion it does not notice (`RecoveryTheorems.RetryAfterLostDeletion`).
5. Recovering a probing record whose retained partial is gone takes two
   recoveries to settle (`RecoveryTheorems.RecoveryIsIdempotent`).
6. `acquire` reads the clock twice. A cooldown that ends between the two reads
   parks the caller without a timer although it could be admitted
   (`AdmissionTheorems.ParkingStrandsExactlyWhenCrossed`,
   `AdmissionTheorems.AWaiterCanBeStranded`).

## Model

| member | source | states |
|---|---|---|
| Ranges.CanonicalIsUnique | crates/engine/src/storage.rs:1348-1363 | Two sorted lists without touching ranges that cover the same bytes are equal, so coverage has one representation. |
| Ranges.FullCoverageIsExact | crates/engine/src/scheduler.rs:1567-1573 | A canonical list covers exactly the bytes below `total` iff it passes the exact-coverage test (one whole range, or none for an empty file). |
| Ranges.MergeInto | crates/engine/src/storage.rs:1348-1363 | The sort-and-merge loop computes `InsertCompleted`. |
| Ranges.InsertCompletedIsUnion | crates/engine/src/storage.rs:1348-1363 | Inserting a disjoint range into a canonical list gives the canonical list of exactly the union, whatever it touches on either side. |
| Ranges.DisjointMeansUncovered | crates/engine/src/storage.rs:795-802 | The overlap test against the completed list is exact: no overlap iff no byte of the range is completed. |
| Ranges.MissingRanges | crates/engine/src/scheduler.rs:1494-1527 | Accepts a completed list iff it is bounded, ordered, untouching and inside the file; the result is ordered and covers exactly the uncompleted bytes, with at most one more range than the input. |
| Ranges.AcceptedIsCanonical | crates/engine/src/scheduler.rs:1494-1527 | The pairwise check of neighbours accepts exactly the canonical lists inside the file. |
| Coordinator.ValidateRequestPlan | crates/engine/src/scheduler.rs:1529-1540 | Accepts a plan iff the total number of chunks stays within the request limit. |
| Coordinator.PopChunkSplits | crates/engine/src/scheduler.rs:1551-1565 | Taking a chunk loses and duplicates no byte, keeps the queue ordered and disjoint from the chunk, and uses up exactly one planned request. |
| Coordinator.SilentSectionsKeepWaiting | crates/engine/src/scheduler.rs:1171-1343 | No lost wake-up: a coordinator section that does not move the change channel leaves a worker that had nothing to do with still nothing to do and no new timer. |
| Coordinator.WorkCoordinator.TryNext | crates/engine/src/scheduler.rs:1171-1265 | One pass of the scheduling loop changes the object exactly as `NextWork` does; when that duplicates a request is stated by `Coordinator.TailIsHedgedOnTime`, `Coordinator.OtherwiseWaitsUntimed` and `Hedging.HedgesStartOnTime`. |
| Coordinator.TailIsHedgedOnTime | crates/engine/src/scheduler.rs:1205-1247 | With an empty queue and one chunk in flight, fetched once, a worker duplicates the request iff the hedge delay since its start is over; before that it waits, with a timer that ends at that moment, and nothing changes. |
| Coordinator.OtherwiseWaitsUntimed | crates/engine/src/scheduler.rs:1205-1263 | With hedging off, several chunks in flight, a committing chunk or an already duplicated one, the worker waits without a timer and nothing changes. |
| Coordinator.ClaimExactly | crates/engine/src/scheduler.rs:1277-1293 | A claim wins iff the transfer runs and nobody claimed the chunk before; it ends the worker's attempt, also when another was first. |
| Hedging.HedgesStartOnTime | crates/engine/src/scheduler.rs:1171-1265 | Over every transfer, whatever the interleaving and the clock, a step starts a hedge iff an idle worker asks while one chunk is left, still being fetched, nothing was duplicated before, and the hedge delay has passed since the step that first handed out the chunk; the worker then fetches the same range. |
| Coordinator.WorkCoordinator.Claim | crates/engine/src/scheduler.rs:1277-1293 | Only the first claim of an in-flight chunk wins; an aborted or cancelled claim leaves the attempt count untouched. |
| Coordinator.WorkCoordinator.ReleaseFailed | crates/engine/src/scheduler.rs:1302-1318 | A failed attempt is fatal exactly when it was the last one of a chunk nobody is committing. |
| Coordinator.WorkCoordinator.CompleteCommit | crates/engine/src/scheduler.rs:1320-1328 | A finished commit removes its chunk, and a failed one aborts the transfer. |
| Storage.ApplyKeepsInv | crates/engine/src/storage.rs:780-1315 | Every storage operation under every outcome keeps: assignments pairwise disjoint, disjoint from coverage and inside the file; coverage canonical; the lifecycle consistent with open writers. |
| Storage.FrozenOutsideActive | crates/engine/src/storage.rs:851-1066 | From the start of validation to publication or release nothing any writer attempts changes bytes, coverage or ownership. |
| Storage.RunKeepsProven | crates/engine/src/storage.rs:851-991 | Over every run, a validated or published file hashes to the supplied digest. |
| Storage.PublishedIsWholeAndVerified | crates/engine/src/storage.rs:851-991 | After any run from creation, a published file has exact coverage of its whole length and matches the supplied digest. |
| Storage.PublishedIsFinal | crates/engine/src/storage.rs:956-991 | No later operation changes a published file. |
| Storage.RunOnlyGrows | crates/engine/src/storage.rs:1282-1306 | Over every run of storage operations and failures no completed byte is uncovered and a known length never changes, so exact coverage stays exact. |
| Storage.ValidationNeverSticks | crates/engine/src/storage.rs:851-951 | Validation succeeds iff nothing stopped it and the digest agrees; otherwise the file is active again with the same bytes and coverage. |
| StorageOutcomes.AssignExactly | crates/engine/src/storage.rs:780-824 | A writer gets a range iff the file is open for writing, its length holds the range, and no byte of it is completed or owned by another writer; nothing else changes. |
| StorageOutcomes.WriteExactly | crates/engine/src/storage.rs:1228-1280 | A write succeeds iff it stays in its own range and the system wrote it; its bytes are then in place behind the earlier ones, no other byte changed, and the span is marked unsafe until the next flush, also when torn. |
| StorageOutcomes.FinishExactly | crates/engine/src/storage.rs:1282-1306 | A writer becomes coverage iff its range is full, and coverage then is exactly the union. |
| StorageOutcomes.StreamWritesExactly | crates/engine/src/storage.rs:1086-1142 | A stream grows by exactly the chunk iff the limit allows it and the system wrote it; otherwise its earlier bytes stay. |
| StorageOutcomes.StreamEndsExactly | crates/engine/src/storage.rs:1144-1178 | A stream ends iff its count agrees with the file and it was flushed; its length is then fixed and every byte covered. |
| StorageOutcomes.ValidationStartsExactly | crates/engine/src/storage.rs:851-905 | Validation starts iff the file is open, nobody writes, and every byte below its length is completed. |
| StorageOutcomes.PromotionExactly | crates/engine/src/storage.rs:956-991 | A file is published iff it is validated and its final name could be linked. |
| PartialFiles.ValidateRecoveredCoverage | crates/engine/src/storage.rs:1327-1346 | The loop accepts exactly the canonical lists within the recovered length. |
| PartialFiles.PartialFile.Recover | crates/engine/src/storage.rs:580-693 | Recovery succeeds iff coverage is canonical and inside the length, the path leads to the managed regular file that was opened, and the file has that length; every refusal has its own error, and success restores exactly that coverage with no writer open. |
| PartialFiles.PartialFile.RecoverStreaming | crates/engine/src/storage.rs:599-613 | An interrupted stream reopens iff its path can be opened safely, and none of its bytes count as coverage. |
| PartialFiles.PartialFile.AssignRange | crates/engine/src/storage.rs:780-824 | Reserves a range exactly when it is in bounds and meets neither coverage nor another assignment; otherwise changes nothing. |
| PartialFiles.PartialFile.FlushCompleted | crates/engine/src/storage.rs:726-736 | Coverage is reported only after its bytes were flushed. |
| PartialFiles.PartialFile.Validate | crates/engine/src/storage.rs:851-951 | The chunked hashing loop hashes the whole frozen file up to the read that finds its end; it reaches a verdict only if no read failed and no cancellation was seen up to the last one, and stops only on cancellation, a failed read or a failure before the first. |
| PartialFiles.PartialFile.Publish | crates/engine/src/storage.rs:956-991 | Publishes only a validated, whole, writer-free file. |
| PartialFiles.SegmentWriter.Write | crates/engine/src/storage.rs:1228-1280 | Writes sequentially inside its own range; a torn write may change bytes of its own span only and earns no coverage. |
| PartialFiles.SegmentWriter.Finish | crates/engine/src/storage.rs:1282-1306 | Turns a completely written assignment into coverage exactly once. |
| PartialFiles.StreamingWriter.Finish | crates/engine/src/storage.rs:1144-1178 | Fixes the length of a stream at what was written and covers exactly that. |
| PartialFiles.StreamingWriter.Drop | crates/engine/src/storage.rs:1180-1186 | Dropping an unfinished stream writer frees the file for another attempt and claims nothing. |
| PartialFiles.CommitRange | crates/engine/src/scheduler.rs:1483-1492 | Succeeds iff the range can be reserved, the body has its length and the write succeeds; then the body is in place and covered, and otherwise coverage, ownership and every byte outside the range are unchanged. |
| Network.DecimalRoundTrip | crates/engine/src/network.rs:662-667 | Decimal text reads back as the number printed. |
| Network.ContentRangeRoundTrip | crates/engine/src/network.rs:621-641 | The Content-Range parser reads back every satisfiable range. |
| Network.EtagRoundTrip | crates/engine/src/network.rs:713-732 | Printing and parsing an entity tag is the identity, weak or strong. |
| Network.ParsedEtagPrintsBack | crates/engine/src/network.rs:713-732 | Every accepted tag text is the printed form of the tag it yields. |
| Network.AcceptedBodyIsSlice | crates/engine/src/network.rs:578-613 | An accepted ranged body is exactly the assigned slice of the version named by the strong tag of the probe, whatever versions the server switches between and although a compressed answer may hold anything. |
| Network.RangeAcceptedExactly | crates/engine/src/network.rs:578-613 | A response is accepted iff its status is 206, it has no content coding or `identity` in any case, one well-formed Content-Range with the assigned positions and size, a Content-Length that agrees or none, and well-formed validators that equal every validator of the probe. |
| Network.PositionsExactly | crates/engine/src/network.rs:621-641 | The parser accepts exactly the texts of the Content-Range syntax with 64-bit decimals and satisfiable positions, and returns those numbers. |
| Network.GenuineResponseIsAccepted | crates/engine/src/network.rs:578-613 | The checks refuse no correct answer: every range of the accepted version under its entity tag and modification date passes, whatever the range. |
| TransferSafety.StepKeepsInv | crates/engine/src/scheduler.rs:748-869 | Every worker, storage, cancellation and abort step keeps: committers of a chunk unique, attempt counts exact while neither aborted nor cancelled, every byte in exactly one of completed, pending, in flight or given up, and all stored bytes correct. |
| TransferSafety.AssignAlwaysSucceeds | crates/engine/src/storage.rs:795-802 | A worker that won its claim can never be refused its range. |
| TransferSafety.FinishAlwaysSucceeds | crates/engine/src/storage.rs:1282-1306 | A worker that wrote its whole body can never be refused coverage. |
| TransferSafety.WritersDiffer | crates/engine/src/scheduler.rs:1277-1293 | Two committing workers never share a writer or overlapping ranges. |
| TransferTheorems.CompletedBytesAreAccepted | crates/engine/src/scheduler.rs:789-869 | No version mixing: under every interleaving each completed byte is that byte of the accepted version. |
| TransferTheorems.SuccessMeansWholeFile | crates/engine/src/scheduler.rs:681-746 | A transfer without failures or cancellation holds the whole accepted version, passes the final coverage check, has no writer left, issued exactly the planned number of requests, and hedged at most once. |
| TransferTheorems.EveryChunkIsHeld | crates/engine/src/scheduler.rs:1277-1328 | While neither aborted nor cancelled, some worker fetches or commits every in-flight chunk. |
| TransferTheorems.FailuresAreFatalExactly | crates/engine/src/scheduler.rs:1302-1318 | In every reachable running transfer a failed request ends its worker and aborts the transfer iff no other worker fetches or commits its chunk; otherwise the worker goes on. |
| TransferTheorems.StoppingStartsNothing | crates/engine/src/scheduler.rs:1266-1300 | Once a transfer is cancelled or aborted it stays so, and no worker starts a request or claims a chunk; workers that hold a claim finish it. |
| TransferTheorems.NeverDeadlocks | crates/engine/src/scheduler.rs:748-869 | While a worker has not stopped, a step is enabled that lowers the measure. |
| TransferTheorems.StepMeasure | crates/engine/src/scheduler.rs:748-869 | No step raises the measure and every working step lowers it. |
| TransferTheorems.RunsAreBounded | crates/engine/src/scheduler.rs:1171-1328 | A transfer takes a bounded number of working steps, starts at most one hedge, and never has more fragments than workers plus initial gaps plus one. |
| TransferTheorems.FewFragments | crates/engine/src/scheduler.rs:1171-1201 | The completed list never has more ranges than chunks in flight or given up, plus pending gaps, plus one. |
| TransferTheorems.FreshDownloadStaysCheckpointable | crates/engine/src/persistence.rs:2347-2369 | A fresh download of up to eight workers never has more than ten fragments, so no checkpoint can trip the range limit. |
| TransferSuccess.TransfersCanSucceed | crates/engine/src/scheduler.rs:681-746 | From every start and for every number of workers some run in which requests get genuine responses and writes succeed ends with success and the whole accepted version. |
| Download.EventKeepsInv | crates/engine/src/persistence.rs:709-749 | Flushes, captures, checkpoints, failed writes, crashes, retries and resumptions keep the durable record within flushed bytes and durable revisions growing. |
| Download.RecordSurvivesAnyCrash | crates/engine/src/task.rs:2100-2155 | At every point of every run, whatever a crash leaves on disk, every byte the durable record covers is the byte of the accepted version. |
| Download.CheckpointsSaveProgress | crates/engine/src/task.rs:2100-2155 | A flush followed by a written checkpoint makes exactly the completed bytes durable, unless they are in more pieces than a record may hold; a flush or write that fails changes no durable byte. |
| Download.ResumedDownloadIsWhole | crates/engine/src/task.rs:1896-1951 | However often it crashed, retried and resumed, an attempt that succeeds holds the whole accepted version. |
| SingleTransfer.ConsumeKnown | crates/engine/src/scheduler.rs:955-971 | Success means the file equals the received body of the probed length with exact coverage; any failure leaves coverage empty and no writer open. |
| SingleTransfer.ConsumeStream | crates/engine/src/scheduler.rs:972-987 | Success fixes the length at the received body, within the limit and the declared length; any failure leaves nothing covered and the length unknown. |
| SingleTransfer.AcceptedSingleIsWhole | crates/engine/src/scheduler.rs:923-953 | The body of a single response that passes its checks is the version named by the strong tag of the probe, although a compressed answer may hold anything. |
| SingleTransfer.SingleAcceptedExactly | crates/engine/src/scheduler.rs:915-953 | A single response is accepted iff its status is 200, it is not compressed, its Content-Length is absent or the probed size, or within the limit if none was probed, and its validators equal those of the probe. |
| SingleTransfer.TransferSingle | crates/engine/src/scheduler.rs:915-987 | Success leaves exactly the received body in the file with exact coverage and length, and under a strong tag that is the version accepted when probing; any failure leaves nothing covered. |
| TaskRecord.MutateKeepsSound | crates/engine/src/persistence.rs:621-824 | Every successful mutator advances the revision by one exactly when something changed, never touches identity, digest or original URL, and keeps the record sound except precisely a refresh of a validating record that captures less than the whole file. |
| TaskRecord.TransitionExactly | crates/engine/src/persistence.rs:178-196 | A sound record makes exactly the named moves with the side data each needs, given a revision to spare and a clock that did not go back, and a move changes only state, revision and time. |
| TaskRecord.TerminalStatesAbsorb | crates/engine/src/persistence.rs:178-196 | Completed records never change and cancelled ones never leave. |
| TaskRecord.RunKeepsSound | crates/engine/src/persistence.rs:621-824 | Over every run of attempted mutations revisions never go down, finished records stay finished, nothing but the coverage of a validating record can go wrong, and Completed implies exact coverage and a final path. |
| TaskRecord.RunStaysSoundExactly | crates/engine/src/persistence.rs:709-749 | Every record of a run is sound iff no refresh shrinks the coverage of a validating record. |
| TaskRecord.RefreshMayUnsettleValidation | crates/engine/src/persistence.rs:709-749 | A concrete sound validating record that a refresh with no coverage makes invalid. |
| TaskRecord.BuiltIsCanonical | crates/engine/src/persistence.rs:287-308 | With idempotent normalization the constructor returns exactly the resources it leaves unchanged, so every built resource has a canonical URL. |
| RecordOutcomes.CreationExactly | crates/engine/src/persistence.rs:430-485 | A task is created iff it has 1, 2, 4 or 8 workers, its URL normalizes and its directory is acceptable; it starts queued, at revision one, with nothing fetched. |
| RecordOutcomes.ValidationExactly | crates/engine/src/persistence.rs:2165-2250 | A record is valid iff every field is, its coverage is canonical and inside the length, and state, resource, paths and coverage agree state by state: a transfer has a partial, from validation on every byte is there, and only a published file has a final name. |
| RecordOutcomes.ResourceExactly | crates/engine/src/persistence.rs:650-675 | A probing record learns its resource, and never another one once it has a partial. |
| RecordOutcomes.AttachmentExactly | crates/engine/src/persistence.rs:677-707 | A probing record gets its first partial, of its resource's length, inside its own directory, with the name chosen for it. |
| RecordOutcomes.RefreshExactly | crates/engine/src/persistence.rs:709-755 | Flushed coverage replaces the recorded one iff it is that of the record's own partial, canonical and inside a length that agrees with the known one; an unchanged record keeps its revision. |
| RecordOutcomes.ForgettingExactly | crates/engine/src/persistence.rs:757-782 | A failed or cancelled record forgets its deleted partial together with its coverage. |
| RecordOutcomes.PromotionExactly | crates/engine/src/persistence.rs:784-812 | A promoting record notes one final name inside its directory, never a second one, and keeps or forgets its partial. |
| RecordedCoverage.CaptureIsExact | crates/engine/src/persistence.rs:709-749 | A capture for a validating record, taken from the storage object behind its partial, is always the whole file. |
| RecordedCoverage.RecordStaysSound | crates/engine/src/persistence.rs:621-824 | However storage operations, captures, reopenings and mutators interleave, the record stays sound, storage covers what it claims, and it reads back as itself. |
| RecordedCoverage.CapturesAreTaken | crates/engine/src/persistence.rs:709-755 | A flushed capture during a transfer takes over exactly the coverage and length of the storage object, within the limits on pieces, revisions and the clock; one that is not flushed changes nothing. |
| RecordedCoverage.NewRecordsStaySound | crates/engine/src/persistence.rs:445-472 | The same from the creation of a task on. |
| TaskRecord.ValidationAloneIsNotInductive | crates/engine/src/persistence.rs:2165-2250 | A concrete valid record, not reachable by the mutators, that a legal mutator makes invalid. |
| TaskStores.TaskMetadata.TransitionTo | crates/engine/src/persistence.rs:621-648 | Moves the object as `Transition` does or restores every field; which moves succeed is stated by `TaskRecord.TransitionExactly`. |
| TaskStores.TaskMetadata.RefreshCoverage | crates/engine/src/persistence.rs:709-749 | Takes over coverage only after a successful flush and only when it is valid for the resource. |
| TaskStores.TaskMetadata.NotePromotion | crates/engine/src/persistence.rs:784-812 | Records the final path, keeps or forgets the partial, and refuses a different final path. |
| TaskStores.TaskStore.Checkpoint | crates/engine/src/persistence.rs:1266-1313 | The store object changes exactly as the revision rules say; a failed write changes nothing. |
| TaskStores.DurableRevisionsOnlyGrow | crates/engine/src/persistence.rs:1266-1313 | Across saves, refusals, failed writes and restarts no durable revision goes down, equal revisions mean equal records, and unreadable records are never replaced. |
| TaskStores.CriticalCheckpointOutcome | crates/engine/src/persistence.rs:1266-1313 | A critical checkpoint writes iff the record is valid, newer, over a readable file and the write succeeds; success means this revision is durable and failure leaves the old record. |
| TaskStores.CheckpointExactly | crates/engine/src/persistence.rs:1266-1313 | The outcome of every checkpoint follows from the record and the durable revision: an unreadable file is never touched, an older record refused, the same one left, a routine one deferred within the interval, and only a successful write changes a file. |
| LifecycleSafety.StepKeepsInv | crates/engine/src/task.rs:1660-2496 | Every section of a run and of its controls, under every combination of checkpoint outcomes, keeps: the durable record never ahead of memory, the run's position consistent with the task state, and a recorded stop only where it can still win. |
| LifecycleTheorems.StoppedRunNeverPublishes | crates/engine/src/task.rs:1304-1467 | After a pause, cancel or shutdown was accepted before promotion, that run reaches neither Promoting nor Completed in any interleaving, in memory or on disk. |
| LifecycleTheorems.PublicationIsUndisturbed | crates/engine/src/task.rs:2157-2333 | While a run promotes no control is accepted or pending; after completion exactly a shutdown can be recorded, and finishing discards it. |
| LifecycleTheorems.StopOutcome | crates/engine/src/task.rs:2384-2496 | A stop is never applied without a recorded request; in memory its result is the requested state iff its checkpoint is written and Failed otherwise, and on disk the same unless the fallback checkpoint fails too, which leaves the old record. |
| LifecycleTheorems.AcceptedPauseIsApplied | crates/engine/src/task.rs:2384-2455 | An accepted pause is applied from Downloading and leads to Paused iff its checkpoint is written, and to a durable Paused record iff it is written or nothing was written over an older one. |
| LifecycleTheorems.RunKeepsLife | crates/engine/src/task.rs:1660-1765 | The invariant holds after every history of a task, and durable revisions only grow. |
| LifecycleTheorems.NewTaskStaysValid | crates/engine/src/task.rs:1140-1158 | From the creation of a task, after every history the durable record is valid and a completed one has exact coverage and a final path. |
| LifecycleProgress.StartExactly | crates/engine/src/task.rs:1165-1300 | A queued task starts a run, and a failed one is queued again, iff the move can be recorded; otherwise nothing changes. |
| LifecycleProgress.CreateExactly | crates/engine/src/task.rs:1811-1895 | A task without a partial starts to transfer iff storage created one of the probed length inside its destination and the move was recorded; the record then names resource, partial and name, in memory and on disk. |
| LifecycleProgress.RelaunchExactly | crates/engine/src/task.rs:1811-1895 | A task with a retained partial starts to transfer iff the server offers the same resource, with a strong tag if bytes are kept, the partial reopens, and the move was recorded. |
| LifecycleProgress.ResumeExactly | crates/engine/src/task.rs:1896-1951 | A paused task is Downloading again, in memory and on disk, iff the server offers the same resource, with a strong tag if bytes are kept, its partial reopens, and the move was recorded; otherwise the run fails with the durable record as it was. |
| LifecycleOutcomes.CancellationExactly | crates/engine/src/task.rs:2498-2553 | An inactive, unfinished task is cancelled iff that can be recorded, and its deleted partial is forgotten iff that can be too; otherwise nothing changes. |
| LifecycleOutcomes.TickExactly | crates/engine/src/task.rs:2100-2121 | A progress checkpoint that is invalid or cannot be written ends the transfer as failed; a deferred one is kept in memory only. |
| LifecycleOutcomes.BoundaryExactly | crates/engine/src/task.rs:2123-2155 | A transfer reaches its decision, and a stop its application, iff the coverage at its boundary is recorded. |
| LifecycleOutcomes.DecisionsExactly | crates/engine/src/task.rs:1683-1765 | A visible cancellation comes first, then completion; an error is retried while the budget has a number left, asks the server again once, or ends the run. |
| LifecycleOutcomes.RevalidatesOnce | crates/engine/src/task.rs:1715-1741 | A run asks the server again at most once: entering the revalidation sets a mark that stays until the next run and bars a second one. |
| LifecycleOutcomes.StopExactly | crates/engine/src/task.rs:2384-2496 | The record a stop leaves, in memory and on disk, for every outcome of its own checkpoint, of the fallback and of the deletion. |
| LifecycleOutcomes.FailureExactly | crates/engine/src/task.rs:2555-2619 | The record a failing run leaves, in memory and on disk, for every outcome of its checkpoint and of the deletion. |
| LifecycleOutcomes.EntryExactly | crates/engine/src/task.rs:2157-2333 | Validation and promotion are entered iff no cancellation is visible, every byte is there and the move is recorded. |
| LifecycleOutcomes.NotesExactly | crates/engine/src/task.rs:2273-2294 | The final name is noted with the partial, then without it; what cannot be recorded leaves the task promoting until recovery. |
| LifecycleOutcomes.CompletionExactly | crates/engine/src/task.rs:2196-2244 | A run completes iff its last checkpoint is written. |
| LifecycleProgress.UndisturbedRunCompletes | crates/engine/src/task.rs:2157-2244 | A fully downloaded run that nobody stops, whose file validates and links and whose checkpoints are written, becomes Completed with that name durable and its partial gone. |
| LifecycleProgress.RunsEnd | crates/engine/src/task.rs:1660-1765 | Apart from progress ticks, a task takes at most fifteen sections for each start and for each retry its budget allows, probing and revalidation included. |
| LifecycleProgress.OneRunIsBounded | crates/engine/src/task.rs:2847-2872 | A run is over after fifteen sections for each configured retry and fifteen more. |
| LifecycleProgress.RunningHasASection | crates/engine/src/task.rs:1660-1765 | A run that is not inactive always has a next section of its own. |
| ManagedTasks.ManagedTask.Pause | crates/engine/src/task.rs:1304-1322 | Accepts exactly a running, downloading task without another stop, and records the request with cancellation in one section. |
| ManagedTasks.ManagedTask.Cancel | crates/engine/src/task.rs:1341-1390 | Records the request for a running task, or cancels and optionally deletes an inactive one, exactly as the section function does. |
| ManagedTasks.ManagedTask.EnterRunState | crates/engine/src/task.rs:2296-2333 | Refuses once cancellation is visible and restores the record when the checkpoint fails. |
| ManagedTasks.ManagedTask.ScheduleRetry | crates/engine/src/task.rs:2847-2872 | Schedules a wait and uses one number of the budget, or fails the run once the budget is spent. |
| ManagedTasks.ManagedTask.ApplyStop | crates/engine/src/task.rs:2384-2475 | Applies the requested stop with its fallback to Failed, each with its own checkpoint, and the optional deletion. |
| ManagedTasks.ManagedTask.Fail | crates/engine/src/task.rs:2555-2619 | Fails the run, keeping the in-memory failure even when its checkpoint fails, and deletes the partial when configured. |
| RecoverySafety.NextKeepsInv | crates/engine/src/task.rs:2157-2294 | Every section, crash and recovery, in every history, keeps what both records say about existing files true of the directory, and memory missing a partial only where its run is about to fail. |
| RecoveryTheorems.StepStrandsExactly | crates/engine/src/persistence.rs:2252-2337 | A step takes a durable record that loads to one that does not iff it is one of two sections: a failure that deletes the needed partial and records nothing, or a relaunch into a partial whose name is gone. |
| RecoveryTheorems.RecordLoadsExactly | crates/engine/src/persistence.rs:2252-2337 | Over every history, wherever a crash falls, the durable record is valid; and it passes the recovery checks at every point iff no step of the history is one of those two. |
| RecoveryTheorems.NewTaskLoadsExactly | crates/engine/src/task.rs:1140-1158 | The same from the creation of a task on. |
| RecoveryTheorems.StrandedStaysDown | crates/engine/src/persistence.rs:2252-2337 | After a crash a record that misses its needed partial never loads again. |
| RecoveryTheorems.RecoveryOutcome | crates/engine/src/task.rs:2778-2813 | Recovery completes a task iff its durable record names a final file, otherwise settles it in an inactive state with at most one write, and fails only when the record does not load or the revision is exhausted. |
| RecoveryTheorems.LoadingExactly | crates/engine/src/persistence.rs:2252-2337 | In any directory a record loads iff the partial it needs is there, the partial it has is of the recorded length, and its published file exists with that length. |
| RecoveryTheorems.NormalizationExactly | crates/engine/src/task.rs:2778-2813 | What recovery writes, state by state: an ended task forgets a partial that is gone, a download becomes paused, a published file completes, any other interrupted run fails, and nothing else changes. |
| RecoveryTheorems.InterruptedDownloadGoesOn | crates/engine/src/task.rs:1896-1951 | A transfer interrupted by a crash, whose partial is there, loads, is paused by recovery, can be resumed, and transfers again with every byte its record claims, if the server still offers the same resource. |
| RecoveryTheorems.DirectoryExactly | crates/engine/src/persistence.rs:1471-1512 | Only three kinds of sections change a name in the directory: a new partial starts a new file, a recorded cancellation or failure with deletion and the end of a publication take its name, and a link adds a final one. |
| RecoveryTheorems.RecoveryIsIdempotent | crates/engine/src/task.rs:2778-2813 | Recovering twice is recovering once, for every loadable record except a probing one whose retained partial is gone. |
| RecoveryTheorems.CompleteBytesStayReachable | crates/engine/src/storage.rs:393-414 | In every history, from promotion on the directory holds a complete file of the recorded length, reached by the final name once one is durable, and by the partial before that iff the record loads. |
| RecoveryTheorems.PublicationIsForever | crates/engine/src/task.rs:2196-2244 | Once a final name is durable it stays durable, keeps naming the same complete file and its record loads, through every history of crashes, failures and recoveries. |
| RecoveryTheorems.FailureMayStrandTheRecord | crates/engine/src/task.rs:2555-2600 | Every failing run whose durable record needs its partial has an outcome that leaves that record unloadable. |
| RecoveryTheorems.RetryAfterLostDeletion | crates/engine/src/persistence.rs:1471-1512 | After an unrecorded deletion a retry in the same process can reach a durable record whose partial is missing, with every write succeeding. |
| DeliverySafety.StepDelivers | crates/engine/src/task.rs:2157-2333 | Every fetch, section, crash and recovery keeps: what both records claim is stored, flushed and of the accepted version; a whole file is exactly that version with the supplied digest; the open handle and the bytes agree. |
| DeliveryTheorems.FinalNameReachesAcceptedBytes | crates/engine/src/storage.rs:956-1035 | From the creation of a task, over every interleaving of workers, controls, failed writes, crashes and recoveries, a durable final name is in the directory and reaches, whatever a crash leaves, exactly the version of the recorded resource, matching the supplied digest. |
| DeliveryTheorems.DeliveryIsFinal | crates/engine/src/task.rs:2196-2244 | A durable final name and the version it stands for never change again. |
| DeliveryTheorems.CapturesAlwaysFit | crates/engine/src/persistence.rs:709-749 | What storage reports for a checkpoint always covers what the record claims and has the length of the file. |
| Admission.StepKeepsInv | crates/engine/src/admission.rs:108-273 | Every section keeps: referenced origins are the table's entries, active counts equal live permits, limits within the cap, unexpired guidance in the table. |
| Admission.InheritanceKeepsInv | crates/engine/src/admission.rs:170-203 | Replacing the domain is refused iff some request is active, and otherwise takes over exactly the banned keys and those whose last cooldown is less than a minute past, with the smaller of both caps. |
| Admission.OriginState.Admit | crates/engine/src/admission.rs:133-153 | Grants iff the origin is not banned, has room and its cooldown is over. |
| Admission.OriginState.Observe | crates/engine/src/admission.rs:244-262 | A 429 or 503 halves the limit down to one and extends the cooldown or bans; other answers change nothing. |
| AdmissionTheorems.PermitsStayWithinCaps | crates/engine/src/admission.rs:108-237 | In every reachable state permits per origin key stay within the per-host cap and all permits within the global cap, across reclaimed and recreated entries. |
| AdmissionTheorems.GrantsRespectGuidance | crates/engine/src/admission.rs:133-151 | With a global slot a caller is let through iff its key was never banned, its origin has room, and the latest deadline ever recorded for the key is over. |
| AdmissionTheorems.GuidanceIsTold | crates/engine/src/admission.rs:244-262 | After a 429 or 503 an origin cools down exactly until the later of its known deadline and now plus the seconds asked for, one if none; more than an hour bans it. |
| AdmissionTheorems.PressureIsForgotten | crates/engine/src/admission.rs:205-236 | A minute after its last cooldown an unused, unbanned key is given out with the full cap and no cooldown. |
| AdmissionTheorems.FindExactly | crates/engine/src/admission.rs:205-236 | A caller is refused an origin iff 1024 other keys are in use or remembered. |
| AdmissionTheorems.TableStaysBounded | crates/engine/src/admission.rs:205-236 | Over every run at most 1024 origins are kept. |
| AdmissionTheorems.PressureIsRemembered | crates/engine/src/admission.rs:205-236 | For a minute after the latest cooldown of a key, grants keep its permits within half the configured cap, even if the entry was idle meanwhile. |
| AdmissionTheorems.FreshDomainsAreSafe | crates/engine/src/admission.rs:76-88 | From the creation of a domain, for any number of callers: the caps hold in every state, no grant is early or to a banned key, and without a crossing every parked caller is attended. |
| Admission.PressureCompounds | crates/engine/src/admission.rs:244-262 | Repeated pressure divides the cap by a power of two down to one, never shortens a cooldown and never lifts a ban. |
| AdmissionTheorems.ParkingStrandsExactlyWhenCrossed | crates/engine/src/admission.rs:156-166 | A caller parks with nothing to wait for iff its deadline passed between the two clock reads with room left and no change announced. |
| AdmissionTheorems.WaitersStayAttended | crates/engine/src/admission.rs:108-168 | In every run without such a crossing each parked caller has a timer, an unseen change, or a full origin. |
| AdmissionTheorems.AttendedCallersWake | crates/engine/src/admission.rs:265-273 | An attended caller can wake by its timer or by a change, has a running timer, or waits for a permit some caller holds. |
| AdmissionTheorems.WakesExactly | crates/engine/src/admission.rs:156-166 | A parked caller can wake by its timer iff that has passed, and by a change iff it has not seen the latest one, which it then has. |
| AdmissionTheorems.AWaiterCanBeStranded | crates/engine/src/admission.rs:112-166 | From a valid idle state with a cooldown running, a concrete run strands the only caller. |
| AdmissionTheorems.TimeAloneWakesNobody | crates/engine/src/admission.rs:161-165 | A stranded caller is never woken by time passing. |
| Events.EventBuffer.Emit | crates/engine/src/task.rs:758-785 | The buffer changes exactly as the replacement rules say. |
| Events.EventBuffer.TryNext | crates/engine/src/task.rs:802-818 | Takes the oldest event with the next number; exhaustion is reported without losing the event. |
| Events.BufferStaysBounded | crates/engine/src/task.rs:745-818 | Over every run, with removals and resets, the queue stays within capacity, holds at most one sample per task, and delivered numbers are consecutive. |
| Events.LossRaisesOverflow | crates/engine/src/task.rs:758-785 | Delivered plus queued lifecycle events are exactly the emitted ones in order iff the overflow flag is down. |
| Events.NewestSampleWins | crates/engine/src/task.rs:758-785 | A new sample replaces the queued one of its task, unless lifecycle events fill the buffer; then none is queued. |
| Events.EmittedComesLast | crates/engine/src/task.rs:758-785 | Every emitted event, of any kind, becomes the last one queued, in place of its task's sample or, in a full buffer, of the oldest notice; only a buffer full of lifecycle events refuses it, and a refused lifecycle event raises overflow. |
| Events.TakingDrains | crates/engine/src/task.rs:802-818 | A reader that keeps asking gets the whole queue in order, numbered without gaps, while the safe integers last. |
| Events.RemovalKeepsOrder | crates/engine/src/task.rs:787-791 | Removing a task takes out its events and keeps all others in order. |
| Sessions.Session.SendSnapshotEvents | crates/native-host/src/lib.rs:693-714 | The paging loop writes exactly the planned pages, numbered, and stops at exhausted numbers. |
| Sessions.Session.SendReply | crates/native-host/src/lib.rs:324-590 | Each command gets one unnumbered reply of its own kind about the task it named. |
| Connection.NativeConnection.ReceiveSnapshot | extension/src/native-connection.ts:511-564 | Assembly accepts or rejects a page exactly as specified and replaces the visible tasks only on the last one. |
| Connection.NativeConnection.ReceiveEvent | extension/src/native-connection.ts:421-509 | The object changes exactly as `EventReceived` does; what that accepts is stated by `EventStream.EventAcceptedExactly`, what is then shown by `EventStream.SessionStaysInStep`. |
| Connection.NativeConnection.ReceiveReply | extension/src/native-connection.ts:343-404 | A reply is matched with its open command, checked against its kind and task, and changes the visible tasks accordingly. |
| EventStream.PagesAreAccepted | crates/native-host/src/lib.rs:693-714 | For every list within the bound, with distinct ids and acceptable numbers, all pages are accepted, no proper prefix changes what is visible, and the last page replaces it by exactly the sent list. |
| EventStream.SessionStaysInStep | crates/native-host/src/lib.rs:850-879 | For every session after hello, with commands and replies, the client never rejects a message or a reply, its sequence check stays in step, and it shows the sends entry by entry: a sample changes the four numbers of its own task, a task replaces its entry or comes last, a removed one disappears, and nothing else changes. |
| EventStream.SessionsLast | crates/native-host/src/lib.rs:850-889 | A session never ends while the safe integers last; every message uses one sequence number and one token, every snapshot one token more. |
| EventStream.RepliesAnswer | crates/native-host/src/lib.rs:324-590 | A declined command is refused; every other gets the answer of its kind, about its task, that the client accepts. |
| EventStream.EventAcceptedExactly | extension/src/native-connection.ts:421-509 | An event is accepted iff it is the next in sequence after hello and continues the snapshot, or comes between snapshots with safe numbers; any other closes the port and shows nothing. |
| EventStream.PageAcceptedExactly | extension/src/native-connection.ts:511-564 | A page is accepted iff it is well formed, continues the snapshot being assembled or starts one, and repeats no task; only the last page changes what is shown, to exactly the collected tasks. |
| EventStream.ReplyAcceptedExactly | extension/src/native-connection.ts:343-404 | A reply is accepted iff it answers an open command of its kind with a result of that kind about the commanded task. |
| EventStream.OnlySafeNumbersAreShown | extension/src/native-connection.ts:421-509 | Whatever arrives in whatever order, every number shown is a safe integer. |
| EventStream.GapsCloseThePort | extension/src/native-connection.ts:421-430 | After a missed event the port closes at the next one and nothing that arrives later is shown. |
| EventStream.CommandsStayBounded | extension/src/native-connection.ts:270-300 | At most 32 commands are open over every history, and posting fails iff so many are. |
| TaskViews.ChangeKeepsInv | crates/engine/src/task.rs:2060-2155 | Every change of a record or of the numbers shown for it keeps the completed bytes within the expected and the recorded length and every number a safe integer. |
| TaskViews.RunKeepsEngine | crates/engine/src/task.rs:1496-1507 | Over every run of the engine at most ten thousand tasks are managed, each under its own id and with acceptable numbers. |
| TaskViews.FinishedShowsAll | crates/engine/src/task.rs:2321-2330 | A completed task shows its whole size as both completed and expected, and no time left. |
| TaskViews.BeginningShowsRecord | crates/engine/src/task.rs:2663-2680 | A run and a restart begin with what the record covers, without a speed, and with zero time left iff nothing is missing. |
| TaskViews.SamplesShowProgress | crates/engine/src/task.rs:2060-2088 | A sample shows the bytes counted and the length once storage tells it, and leaves speed and time left alone. |
| TaskViews.EngineSessionStaysInStep | crates/native-host/src/lib.rs:948-985 | Whatever states of the engine a session sends or replies with after its first snapshot, the client rejects nothing and shows exactly what was sent, entry by entry. |
| Estimator.SpeedEstimator.SampleAt | crates/engine/src/progress.rs:163-235 | The estimator object keeps an ordered window of at most 256 samples and reports the specified estimate of it. |
| Estimator.TrimmedIsSuffix | crates/engine/src/progress.rs:184-192 | Trimming keeps the newest samples, at most 256, with at most one older than the window. |
| Estimator.ExtendedExactly | crates/engine/src/progress.rs:163-182 | A clock or counter that went back starts the window again; otherwise every earlier sample is kept and one of the same instant replaced. |
| Estimator.TrimmedDropsOnlyOld | crates/engine/src/progress.rs:184-192 | A sample is dropped only for a newer one that is older than the window while three are held, or to keep the 256 newest. |
| Estimator.SpeedExactly | crates/engine/src/progress.rs:194-247 | A speed is reported iff three samples span half a second, and is the floor of the bytes per second between the first and the last, up to the clamp. |
| Estimator.EstimateExactly | crates/engine/src/progress.rs:194-275 | An estimate is stable iff it has a speed and no interval rate is more than four times another, and its time left is that of the newest sample. |
| Estimator.SpeedIsBetweenIntervalRates | crates/engine/src/progress.rs:194-247 | Despite flooring and clamping the reported speed lies between the smallest and largest interval rate. |
| Estimator.TimeLeftIsLeast | crates/engine/src/progress.rs:222-275 | Zero is reported iff the file is complete; a nonzero time left is the least whole number of seconds covering the remainder, up to the clamp, and is reported iff the speed is positive and stable. |
| Calendar.CivilDateIsNthDay | crates/native-host/src/lib.rs:1125-1140 | For every day number the closed form equals the Gregorian calendar counted one day at a time from 1970-01-01. |
| Calendar.CivilDateAdvances | crates/native-host/src/lib.rs:1125-1140 | Every date is valid and consecutive day numbers give the calendar successor under the 4/100/400 rule. |
| Calendar.DayNumberInverts | crates/native-host/src/lib.rs:1125-1140 | Counting the days up to a date month by month returns the day number. |
| Timestamps.RenderedInOrder | crates/native-host/src/lib.rs:1112-1123 | Over the whole range of timestamps, earlier milliseconds are rendered as lexicographically smaller strings. |
| Timestamps.RenderedShape | crates/native-host/src/lib.rs:1112-1123 | Every timestamp has 24 characters with two-digit fields, a four-digit year and three digits of milliseconds at their places. |
| Timestamps.FieldsAddUp | crates/native-host/src/lib.rs:1112-1123 | The rendered fields are in range and add up to the millisecond count. |
| Records.ParseDigest | crates/engine/src/integrity.rs:12-21 | The loop parses exactly 64 hexadecimal digits of either case, byte by byte. |
| Records.DigestRoundTrip | crates/engine/src/integrity.rs:12-36 | Printing and parsing a digest is the identity. |
| Records.RecordRoundTrip | crates/engine/src/persistence.rs:1946-2163 | A valid record reads back as itself iff its resource URL is canonical. |
| Records.ReachableRecordsReadBack | crates/engine/src/persistence.rs:2083-2163 | Every record the mutators can reach from a sound one reads back as itself iff it is valid, and so always unless a refresh shrank the coverage under validation. |
| Records.ReadRecordsPrintBack | crates/engine/src/persistence.rs:2083-2163 | Whatever the reader accepts is valid and prints to the same text, up to the case of the digest. |
| Retry.DelayIsBounded | crates/engine/src/task.rs:131-160 | A delay exists iff the budget and the guidance allow it, and lies between half the capped exponential and the cap unless raised exactly to the guidance. |
| Retry.CapsNeverShrink | crates/engine/src/task.rs:140-147 | Later retries never have a smaller cap, and no cap exceeds the maximum delay. |
| Retry.CapsDouble | crates/engine/src/task.rs:140-147 | The caps start at the base delay and double up to the maximum. |
| Retry.JitterReachesAll | crates/engine/src/task.rs:148-159 | Every delay between half the cap and the cap is given for some entropy, and accepted guidance only ever raises it. |
| Retry.ProbeWithRetries | crates/engine/src/task.rs:1953-2001 | How probing ends is decided by its last call: it succeeds iff that did, stops iff that or the last wait was cancelled, and fails only on an answer outside 408, 425, 429, 500, 502, 503, 504, an unusable one, or one worth retrying with no budget or unacceptable guidance; every earlier call was worth retrying and used one number of the budget. |
| Retry.RunTask | crates/engine/src/task.rs:1660-1809 | A run publishes iff its last transfer finished, passed its boundary and was not cancelled; stops iff that transfer, the last probe or the last wait was cancelled; and fails only on a failed checkpoint, an answer not worth retrying, a changed resource, or an exhausted budget. Every earlier transfer was worth retrying, with one wait each, at most `maximum_retries + 1` transfers and one revalidation, after the first 416. |
| Retry.WidthReachesOne | crates/engine/src/scheduler.rs:71-77 | After `i` retries a run uses the configured width divided by two to the `i`, and at least one worker; from the fourth transfer on it uses one. |

## Left out

- Real network and TLS: responses are values that pass or fail the checks; redirects, probing requests and header transport are not modelled.
- Real file system: links, renames, locks and identity checks are outcomes passed in; tampering by other programs is not modelled.
- Server honesty: equal strong entity tags mean equal bytes; resources without a strong tag are only covered by the header checks of `SingleTransfer`, not by byte equality.
- SHA-256: an arbitrary function of the bytes.
- URL parsing, filename sanitizing, path confinement, HTTP dates and UUID syntax: functions gathered in `TaskRecord.Env`; the results from creation on assume that normalizing a URL and sanitizing a name are idempotent.
- JSON text and the size limit of a state file: records round trip field by field; a record that is too large is a failed write.
- Migration of record versions 1 to 3: fills in constants.
- Exhaustion of chunk ids, assignment ids, run generations and event tokens at 64 bits: unbounded numbers, except revisions and event sequence numbers, which are bounded as in the source.
- Panics and failed joins of background tasks: treated as a failed worker or a failed run.
- Runs of `Lifecycle`, `Recovery`, `Delivery`, `Transfer` and `Admission`: state machines on values, one event per locked section; the objects themselves are the classes `ManagedTask`, `PartialFile`, `WorkCoordinator` and `OriginState`, and sharing of these objects between threads is represented by the interleaving of events.
- Clock failures and progress fields: in `Lifecycle` the clock never fails, progress numbers are modelled apart from it in `TaskViews`, and no order between emitted events and state changes is claimed.
- Single-stream tasks in `Delivery`: the composed result is about segmented resources with a strong entity tag; `SingleTransfer.TransferSingle` covers one single transfer.
- Outcomes of requests, checkpoints and waits in the retry loop: inputs of `Retry.RunTask`; latency is not modelled.
- Other session messages: the paged list command, changed settings and the contents of recovery warnings; text checks of task fields on the client are assumed to pass.
- Transfer metrics: counters other than the number of requests and hedges.
- Removal of task history, session cookies, settings, the setup program, native framing and the user interface: short checks beside the protocols above.
