# Verified model of the storage backend's protocols

A Dafny 4.11 model of the parts of the storage backend where several actors, crashes
or caches meet, with proofs of what those parts promise. `dafny verify dfyconfig.toml`
checks the whole project. The statement of each result is over every input, every run
of the protocol or every interleaving; where the code does not keep a promise that its
own comments make, the project states exactly when it does.

The model covers six areas.

**Permanent deletion (purge saga).** `PurgeTables` holds the job rows, the sweeper's
work list and the single statements that change them, with a repository class over
them. `PurgeBatches` and `MsgIds` cut a block list into decrement requests and name
them. `PurgeSaga` is the saga as a state machine of single statements: requests,
completion handlers and sweepers interleave, die between statements, and messages are
lost, repeated and reordered. `PurgeSchedule` proves the retry bookkeeping of that
machine. `PurgeHandlers` and `PurgeSweeper` are the coordinator and the sweeper as
classes, each call ending in the state given by a function of what the database, the
stream and the removal did during the call; `PurgeConvergence`, `PurgeBudget`,
`PurgeStuck` and `PurgeWorkList` reason about any sequence of such calls, and
`PurgeRefinement` shows that a request, a completion or a recovery handled as a whole is
a run of the machine. `SweepWindow` has the backoff and the scan window.

**Serving byte ranges.** `RangeRequest` parses the header, `BlockStream` locates a
range and writes it through the reorder buffer, `WorkerPool` is the parallel fetch pool
as a state machine over its channels, with a consumer that may leave early,
`Consolidation` assembles a file into one object,
and `ContentServer` puts the two tiers side by side.

**Refresh-token rotation.** `SessionRotation` interleaves single store and cache
accesses of any number of processes. `AuthService` is the service and its store as
classes, and `TokenRules` says exactly when it accepts, rotates or refuses a token.
`RotationRefinement` shows that a whole call is a sequence of those single accesses.
`AuthRuns`, `NewestToken`, `AcrossProcesses` and `SignOut` reason about runs of whole
calls, with cache expiry, global versions and the theft response.

**Consolidation registry.** `StitchRegistry` has the base table, its work index, every
operation as an ordered list of writes that may stop anywhere, and the repository class;
`StitchSweep` is the worker that uses it.

**Folders and file order.** `FolderTree` walks a subtree, `FolderPurge` removes its
rows in three phases, `FileOrderIndex` keeps the order index of files, and `FileListing`
has the writers and the paged listing as a class.

**Smaller machines.** `TokenBucket` is the rate limiter over exact reals, `Delivery`
the outcome handling of the message consumer.

## What the code does not promise after all

Each of these is a theorem of the project, with the condition under which the promise
does hold.

- A re-drive whose messages are all reported back closes a requested job exactly when
  some batch was unrecorded. So a job whose last completion was recorded but whose state
  change was lost, which every purge can reach, is not repaired by the sweeper, where
  the comment of `RecordBatch` says so (`PurgeStuck.RedriveClosesExactlyWhen`,
  `PurgeStuck.AllRecordedStillRequested`).
- A job whose creation stopped after its row is in no sweep until a later state change
  comes to its end; otherwise an unfinished job is always in the work list
  (`PurgeWorkList.UnfinishedIsListedExactlyWhen`, `PurgeWorkList.UnfinishedIsListed`).
- The sweeper's attempt gate ignores the state, so it turns a finished job FAILED exactly
  when its claim uses up the budget; every purge has such a history
  (`PurgeBudget.GateIgnoresTheState`, `PurgeStuck.CompleteJobIsFailed`).
- The invalid-operation note misses the last batch, unless that brought no new ones
  (`PurgeBudget.NoteMissesTheLastBatch`).
- For retry caps that are not whole hours a job can leave the scan window while it may
  still retry (`SweepWindow.CoveredExactlyWhenLifetimeFits`).
- Backoff is computed from the attempts before the claim, where the comment of
  `ComputeBackoff` says post-claim. A claim waits as meant exactly for the first attempt,
  once the growth is at the cap, or when multiplying does not move the delay
  (`SweepWindow.ClaimWaitsAsMeantExactlyWhen`, `SweepWindow.SecondClaimWaitsHalf`).
- When a read or a copy fails, the consumer of a range's workers returns without draining
  their results: workers block for ever exactly when the results still to be sent exceed
  the channel, which can happen exactly when the span has two blocks more than there may
  be workers (`WorkerPool.GoroutinesReturnExactlyWhen`, `WorkerPool.LeaksExactlyWhen`).
- A manifest without blocks makes `manifestOffsets` index with -1
  (`BlockStream.ManifestOffsets`).
- After a mint that failed behind its compare-and-set the newest token is never
  rotated again (`NewestToken.NewestTokenIsHonoured`). On several processes the newest
  token is taken for a replay exactly when the process asked still remembers another
  generation (`AcrossProcesses.NewestIsReplayedExactlyWhen`,
  `NewestToken.SecondProcessRefusesTheNewest`).
- Signing out everywhere does not reach a process that remembers the session: a client
  there goes on refreshing exactly as long as no two calls are further apart than the
  cache lifetime (`AcrossProcesses.SignOutEverywhereNeedsAGap`,
  `AcrossProcesses.SignedOutClientGoesOn`).
- A crash inside a re-claim, a failure mark or a reset can hide an actionable row from
  every sweep (`StitchRegistry.CrashHidesExactlyWhen`).
- A death in the third phase of a folder purge can orphan folders
  (`FolderPurge.RerunFinishesExactlyWhen`, `FolderPurge.ChainLeavesAnOrphan`).
- Two updates of a file within one millisecond drop it from its folder's order index
  (`FileOrderIndex.UpdateKeepsPlaceExactlyWhen`), and a crash in the middle of a move
  hides the file (`FileOrderIndex.CrashHidesExactlyInMoves`).
- The dead-letter hook also runs without a stored copy, and an exhausted message is
  terminated rather than left unacknowledged (`Delivery.WaysToEnd`).

## Model

| member | source | states |
|---|---|---|
| PurgeSaga.RemovalOnlyAfterEveryBatch | services/metadata/internal/purge/coordinator.go:398-434 | in every run of single statements, with losses, repeats, reordering and crashes: once a job's metadata began to be removed, all its batches 0..N-1 are recorded, and every entry of its block list was in a published request whose batch the worker reported |
| PurgeSaga.RunKeepsInv | services/metadata/internal/repository/purge_repo.go:282-314 | recorded batches are batches of the job that were published and reported, whatever interleaves; decremented and complete rows have them all |
| PurgeSaga.CheckKeepsInv | services/metadata/internal/repository/purge_repo.go:295-314 | reading as many recorded batches as the batch count means that all of them are recorded, even though the handler's copy of the row is stale |
| PurgeSchedule.EachAttemptIsClaimedOnce | services/metadata/internal/repository/purge_repo.go:238-257 | however many sweepers race, no attempts value of a job is claimed twice |
| PurgeSchedule.WorkListIsNeverLate | services/metadata/internal/repository/purge_repo.go:77-90 | with one sweeper and a nondecreasing clock, every work-list entry is in the bucket of the job's creation and due no later than the job row, in every interleaving |
| PurgeSchedule.DueJobIsListed | services/metadata/internal/purge/sweeper.go:102-118 | so a sweep lists every due job that has an entry, as long as the job can still retry and the cap is a whole number of hours |
| PurgeWorkList.UnfinishedIsListedExactlyWhen | services/metadata/internal/repository/purge_repo.go:140-200 | over any sequence of whole handlers with any failures, an unfinished job is in the work list if and only if some handler had its list write answered |
| PurgeWorkList.UnfinishedIsListed | services/metadata/internal/repository/purge_repo.go:179-200 | so it is there in every history in which no creation stopped between the row and the entry |
| PurgeWorkList.HandlerChanges | services/metadata/internal/purge/coordinator.go:147-177 | what one request, completion or recovery makes of the job's entry, by how many statements were answered: written with the row's due time, dropped, or left alone, and no other entry changes |
| PurgeWorkList.CompletionLeavesTheList | services/metadata/internal/repository/purge_repo.go:193-199 | a handler that completes the job takes it off the list if and only if its last statement was answered |
| PurgeWorkList.CompleteStaysOff | services/metadata/internal/repository/purge_repo.go:193-199 | and it stays off for as long as it is COMPLETE |
| PurgeWorkList.DueJobIsSweptExactlyWhen | services/metadata/internal/purge/sweeper.go:100-118 | in any history with a clock that does not run backwards, a sweep finds a due, unfinished job within its lifetime, for whole-hour caps, if and only if some handler had its list write answered |
| PurgeRefinement.HandledCompletionIsARun | services/metadata/internal/purge/coordinator.go:343-436 | handling a completion as a whole, with any failure inside, leaves the tables as some run of single statements from the same state does |
| PurgeRefinement.HandledRequestIsARun | services/metadata/internal/purge/coordinator.go:147-243 | so does handling a request as a whole, published messages included, with any failure of the database or the stream inside |
| PurgeRefinement.HandledRecoveryIsARun | services/metadata/internal/purge/sweeper.go:120-217 | so does the whole recovery of a listed job, from the read before the claim to the note of its error |
| PurgeRefinement.CompletionIsStatements | services/metadata/internal/purge/coordinator.go:343-436 | which statements those are, for every number of answered statements and either outcome of the removal |
| PurgeConvergence.EveryOrderConverges | services/metadata/internal/purge/coordinator.go:334-436 | completions covering every batch, in any order and with any repeats and failures in between, followed by one recovery whose removal works, end COMPLETE with the metadata gone and one possible value of both accounting sets, unless the attempts ran out |
| PurgeConvergence.CoveredJobCompletesByItself | services/metadata/internal/purge/coordinator.go:398-434 | the ordinary path needs no recovery: when the removal works inside the deliveries that land, covering every batch once, in any order and with anything in between, ends COMPLETE with the metadata gone and both accounting sets fixed, or FAILED with the attempts used up |
| PurgeConvergence.CompletedRunsAgree | services/metadata/internal/repository/purge_repo.go:276-294 | any two runs of one job that complete agree on batches_done and invalid_ops |
| PurgeConvergence.CoveredJobCloses | services/metadata/internal/purge/coordinator.go:398-425 | once each batch has a delivery that lands, the job is past the decrement stage |
| PurgeConvergence.JobsOnlyAdvance | services/metadata/internal/repository/purge_repo.go:179-200 | over any sequence of whole handlers a job loses no recorded batch, no attempt and no stage |
| PurgeConvergence.CompletedRows | services/metadata/internal/purge/coordinator.go:343-436 | what one completion makes of the job row, by how far the database answered, and that no other row changes |
| PurgeConvergence.AcknowledgedExactlyWhen | services/metadata/internal/purge/coordinator.go:343-436 | exactly when a completion is acknowledged: orphans after three retries, finished jobs at once, a wrong batch count never, the last batch only when everything after it worked |
| PurgeConvergence.RequestSucceedsExactlyWhen | services/metadata/internal/purge/coordinator.go:147-177 | exactly when a request succeeds; then the job is requested and counted, and all its batches are on the stream unless it was further already |
| PurgeConvergence.RecoveredRows | services/metadata/internal/purge/sweeper.go:120-217 | what one recovery may make of the job row: one attempt more, FAILED exactly past the gate, COMPLETE only with the metadata removed, no recorded batch touched |
| PurgeConvergence.DispatchSucceedsExactlyWhen | services/metadata/internal/purge/sweeper.go:157-217 | exactly when a dispatch succeeds, by gate and state, and that a failed publish or removal is noted on the row while the database answers |
| PurgeBudget.RedrivesAreBounded | services/metadata/internal/purge/sweeper.go:158-170 | in any sequence of handlers at most MaxAttempts - 1 recoveries of a job put anything on the stream or remove its metadata |
| PurgeBudget.OnlyRedrivesAct | services/metadata/internal/purge/sweeper.go:158-170 | a recovery stopped by the gate or a failed claim leaves the stream and the metadata as they were and ends the same whatever those would do; one that changes either costs an attempt below the limit and never touches a finished job |
| PurgeBudget.FailedStaysFailed | services/metadata/internal/purge/coordinator.go:161-164 | FAILED is absorbing for recoveries, completions and new requests |
| PurgeBudget.GateIgnoresTheState | services/metadata/internal/purge/sweeper.go:158-170 | a claimed recovery ends FAILED exactly when it uses up the attempts, whatever the state of the job |
| PurgeBudget.RecoveriesDoNotFinish | services/metadata/internal/repository/purge_repo.go:276-281 | recoveries alone never take a requested job further than FAILED nor record a batch |
| PurgeBudget.NothingIsMissing | services/metadata/internal/purge/coordinator.go:250-267 | a re-drive has something to send exactly when a batch is unrecorded |
| PurgeStuck.RedriveClosesExactlyWhen | services/metadata/internal/repository/purge_repo.go:276-281 | a recovery re-drives a counted, requested job and every message it sends is reported back: the job is closed then if and only if some batch was unrecorded before |
| PurgeStuck.AllRecordedStillRequested | services/metadata/internal/purge/coordinator.go:398-419 | for every purge there is a history from an empty database that ends with all batches recorded and the job still requested |
| PurgeStuck.CompleteJobIsFailed | services/metadata/internal/purge/sweeper.go:157-170 | for every purge and attempt limit there is a history in which a recovery turns the COMPLETE job FAILED |
| PurgeBudget.NoteMissesTheLastBatch | services/metadata/internal/purge/coordinator.go:415-422 | the note of a decremented job counts its invalid operations exactly when the last batch brought no new ones |
| PurgeHandlers.Coordinator.HandleCompletion | services/metadata/internal/purge/coordinator.go:343-436 | the whole new state and the acknowledgement, for every point at which the database may stop answering |
| PurgeHandlers.Coordinator.Request | services/metadata/internal/purge/coordinator.go:147-177 | the whole new state of a request, stream included: created or found, counted, published, advanced, with every failure point; nothing is published for a job that could not be stored and counted or is closed |
| PurgeHandlers.Coordinator.RemoveMetadataAndComplete | services/metadata/internal/purge/coordinator.go:583-651 | metadata goes before the COMPLETE mark; a failed removal writes nothing; a complete job is left alone |
| PurgeHandlers.Coordinator.PublishRequest | services/metadata/internal/purge/coordinator.go:306-311 | an uncounted job is counted and published from the start under first-publish ids, a counted one gets its unrecorded batches in order under ids of the attempt, whatever its state; on failure the stream has the batches up to where it stopped |
| PurgeHandlers.Coordinator.PublishRequestRedrive | services/metadata/internal/purge/coordinator.go:250-267 | an uncounted job is refused; otherwise exactly the unrecorded batches are published in order, up to one that cannot be built or that the stream refuses |
| PurgeHandlers.Coordinator.PublishRequestV2 | services/metadata/internal/purge/coordinator.go:198-243 | nothing is published before the batch count is recorded; then the leading batches are, up to one that does not decode or that the stream refuses |
| PurgeHandlers.Coordinator.Dispatch | services/metadata/internal/purge/sweeper.go:157-217 | the whole new state of a dispatch by state, stream included, with the gate first and the error recorded on failure; past the gate or with nothing left to publish the stream is unchanged |
| PurgeHandlers.Coordinator.Recover | services/metadata/internal/purge/sweeper.go:120-155 | the whole new state of peek, claim, re-read and dispatch, stream included; without the claim, past the gate or in a state with nothing to publish the stream is unchanged |
| PurgeSweeper.Sweeper.SweepOnce | services/metadata/internal/purge/sweeper.go:100-118 | when the list can be read, a pass recovers exactly the jobs with a due entry in the scanned buckets, one after the other, whatever fails in one, and the tables and the stream end as those recoveries leave them; a failing list ends the pass before anything happens |
| PurgeTables.PurgeRepo.Create | services/metadata/internal/repository/purge_repo.go:140-177 | the row is inserted only if the id is new, otherwise the existing row is returned; the state left by a failure after each statement |
| PurgeTables.PurgeRepo.UpdateState | services/metadata/internal/repository/purge_repo.go:179-200 | on success the row has the state and note, the work list shows the job under the caller's schedule unless it is COMPLETE, when its entry is gone, and no other row or entry changes; the state after each failing statement |
| PurgeTables.PurgeRepo.ClaimJob | services/metadata/internal/repository/purge_repo.go:238-257 | applies exactly when the row is there with the expected attempts, and then moves attempts and schedule of the row alone |
| PurgeTables.PurgeRepo.SetBatchCount | services/metadata/internal/repository/purge_repo.go:259-273 | writes the batch count of this row and nothing else |
| PurgeTables.PurgeRepo.RecordBatch | services/metadata/internal/repository/purge_repo.go:276-314 | unions the batch and its invalid operations into the row, and answers whether the row then shows every batch |
| PurgeTables.PurgeRepo.ListDueActive | services/metadata/internal/repository/purge_repo.go:210-236 | exactly the due entries of the given buckets, each once, unless reading one of them fails |
| PurgeBatches.BatchesPartitionTheBlockList | services/metadata/internal/purge/coordinator.go:198-243 | the published batches joined are the block list itself: every occurrence once, in order, with its own decoded hash, and each batch has 1 to 500 operations |
| PurgeBatches.HexRoundTrip | services/metadata/internal/purge/coordinator.go:211-221 | decoding a hash returns the bytes that were printed, in lower or upper case |
| PurgeBatches.OccurrencesIdentifyEntries | services/metadata/internal/purge/coordinator.go:216-221 | 32-bit occurrence numbers identify the entries of a list exactly when it has at most 2^32 of them |
| PurgeBatches.RedriveRepeatsTheBatch | services/metadata/internal/purge/coordinator.go:270-300 | a re-driven batch has the body of the first publish and an id no other publish has |
| PurgeBatches.MissingIncreases | services/metadata/internal/purge/coordinator.go:254-265 | the batches of a re-drive come in increasing order |
| PurgeBatches.PublishAll | services/metadata/internal/purge/coordinator.go:206-243 | what reaches the stream is a run of complete leading batches, all of them on success, and why it stopped otherwise |
| PurgeBatches.PublishBatchRedrive | services/metadata/internal/purge/coordinator.go:269-300 | one message or none; out-of-range batches and undecodable hashes are refused, exactly those |
| PurgeBatches.Redrive | services/metadata/internal/purge/coordinator.go:250-267 | the stream gains exactly the unrecorded batches up to where it stopped |
| MsgIds.IdsNeverCollide | pkg/events/headers.go:34-47 | two publishes have the same id exactly when job, batch and attempt are the same, for all job ids |
| SweepWindow.BackoffIsMonotoneAndCapped | services/metadata/internal/purge/sweeper.go:227-246 | delays never shrink with the attempts and never exceed the cap |
| SweepWindow.ComputeBackoff | services/metadata/internal/purge/sweeper.go:230-246 | the loop computes the growth function, floor by floor, up to the cap |
| SweepWindow.ClaimWaitsAsMeantExactlyWhen | services/metadata/internal/purge/sweeper.go:142-145 | the delay a claim gets is the one its post-claim attempts call for if and only if it is the first, the growth is at the cap, or multiplying does not move it |
| SweepWindow.SecondClaimWaitsHalf | services/metadata/internal/purge/sweeper.go:227-246 | with doubling below the cap the second claim waits the base delay where the documented rule gives twice that |
| SweepWindow.WindowIsExactly | services/metadata/internal/purge/sweeper.go:248-269 | jobs up to some age are always scanned if and only if that age fits the window |
| SweepWindow.WholeHourCapsAreCovered | services/metadata/internal/purge/sweeper.go:248-269 | with a cap of whole hours no job within the sum of all its delays plus two hours is outside the window |
| SweepWindow.CoveredExactlyWhenLifetimeFits | services/metadata/internal/purge/sweeper.go:248-269 | for any settings, that promise holds exactly when the lifetime fits the hours counted |
| SweepWindow.HalfHourCapLosesJobs | services/metadata/internal/purge/sweeper.go:258-262 | settings for which a job that may still retry is never scanned |
| SweepWindow.DueBuckets | services/metadata/internal/purge/sweeper.go:258-269 | the buckets listed are exactly the hours of the window, each once |
| SweepWindow.Normalize | services/metadata/internal/purge/sweeper.go:60-80 | settings become usable, and usable ones stay as they are |
| RangeRequest.AcceptedRangeIsInside | services/metadata/internal/content/server.go:483-525 | every accepted header gives an interval inside the file; it is empty only for an empty file |
| RangeRequest.ClosedFormIsExact | services/metadata/internal/content/server.go:506-524 | "bytes=a-b" is served as [a, b], and refused exactly when backwards or past the end |
| RangeRequest.OpenFormIsExact | services/metadata/internal/content/server.go:506-524 | "bytes=a-" runs to the last byte, refused exactly when a is past it |
| RangeRequest.SuffixFormIsExact | services/metadata/internal/content/server.go:493-505 | "bytes=-n" is the last n bytes or the whole file, refused exactly for n = 0 |
| RangeRequest.PaddedEndsAreRead | services/metadata/internal/content/server.go:487-497 | blanks around the header and around either number do not change what is read |
| RangeRequest.OtherFormsAreRefused | services/metadata/internal/content/server.go:488-496 | several ranges, another unit or no dash are refused, wherever they stand in the header |
| RangeRequest.OtherEndsAreRefused | services/metadata/internal/content/server.go:499-524 | ends that are not 64-bit numerals, or two missing ends, are refused |
| BlockStream.ManifestOffsets | services/metadata/internal/content/server.go:530-543 | the blocks and offsets found hold the two end positions; it panics exactly for a manifest without blocks |
| BlockStream.Search | services/metadata/internal/content/server.go:535-536 | the binary search returns the least index whose prefix sum exceeds the target |
| BlockStream.HolderIsUnique | services/metadata/internal/content/server.go:530-543 | no other block or offset holds the same position |
| BlockStream.SegmentsJoinToRange | services/metadata/internal/content/server.go:567-580 | the segments the workers ask for, joined in block order, are exactly the requested bytes of the file |
| BlockStream.StreamRange | services/metadata/internal/content/server.go:596-634 | for every order of results the bytes written are a prefix of the range, and the whole range when every block arrives and nothing fails |
| BlockStream.Receive | services/metadata/internal/content/server.go:600-628 | one result keeps the reorder buffer's picture: what is written is the join of the blocks before the next one, the rest waits |
| WorkerPool.ReceivedIsDeliverable | services/metadata/internal/content/server.go:557-595 | in every interleaving of workers, spawner and consumer the consumer gets distinct blocks of the span with the bytes asked for |
| WorkerPool.ClosedMeansAllReceived | services/metadata/internal/content/server.go:582-595 | when the results channel closes without cancellation every block was received |
| WorkerPool.PoolAlwaysFinishes | services/metadata/internal/content/server.go:557-595 | while the consumer is there no interleaving deadlocks: until the channel closes some goroutine can move, and each move leaves less to do |
| WorkerPool.GoroutinesReturnExactlyWhen | services/metadata/internal/content/server.go:600-627 | after the consumer left on a failed read or copy, the remaining goroutines can all return if and only if the results still to be sent fit the channel |
| WorkerPool.LeaksExactlyWhen | services/metadata/internal/content/server.go:557-627 | a range can leave workers blocked for ever if and only if its span has at least two blocks more than the configured workers |
| WorkerPool.FirstReadFails | services/metadata/internal/content/server.go:600-603 | a run in which all indices are handed out, the first read fails and the consumer leaves |
| Consolidation.FirstIneligibleBlock | services/metadata/internal/content/stitcher_worker.go:24-34 | -1 exactly when every non-final block meets the minimum, otherwise the first that does not |
| Consolidation.Stitcher.Stitch | services/metadata/internal/content/s3.go:281-348 | done exactly for non-empty eligible layouts with valid hashes whose blocks are all stored, when the store answers; then the object holds the stored blocks in order, which is the file byte for byte when they have their recorded sizes; a refused or failed assembly leaves none |
| Consolidation.TiersAgree | services/metadata/internal/content/server.go:413-427 | any range read from the consolidated object equals the join of the block segments |
| ContentServer.HandleContent | services/metadata/internal/content/server.go:346-384 | the status, the announced length and the body: without a Range header the whole file and not a part; with one never a wrong byte, and the whole range without failures, on either tier |
| ContentServer.ServeLive | services/metadata/internal/content/server.go:376-384 | locating and streaming give a prefix of the slice, all of it without failures |
| ContentServer.PiecesReassemble | services/metadata/internal/content/server.go:346-384 | a file requested in pieces split anywhere, as "bytes=from-to" each: undisturbed answers to these headers are never refused, and their bodies one after the other are the file, whichever tier serves each |
| SessionRotation.OnePairPerGeneration | services/auth/internal/service/auth_service.go:225-284 | across all processes, interleavings and evictions at most one pair is minted from each session generation |
| SessionRotation.CachedPairIsTheReplacement | services/auth/internal/service/auth_service.go:599-606 | a cached replacement pair for generation g is the one minted as g + 1 |
| SessionRotation.SameTokenSameAnswer | services/auth/internal/service/auth_service.go:150-157 | the same refresh token is never answered with two different pairs, on any process at any time |
| SessionRotation.NoRotationAfterDelete | services/auth/internal/scyllastore/session_store.go:95-106 | after a session row is deleted no compare-and-set of the session is ever won |
| SessionRotation.MintKeepsInv | services/auth/internal/service/auth_service.go:584-597 | whoever mints a pair was the only one owing it |
| RotationRefinement.HandledRefreshIsARun | services/auth/internal/service/auth_service.go:136-285 | a refresh of the service as a whole, with any failure of the database or of minting, ends as some continuation of a run of single accesses does, with the same answer |
| RotationRefinement.HandledLogoutIsARun | services/auth/internal/service/auth_service.go:305-339 | so does a sign-out, whether its delete works or not |
| RotationRefinement.HandledValidationIsARun | services/auth/internal/service/auth_service.go:418-477 | so does a validation |
| RotationRefinement.HandledLoginIsARun | services/auth/internal/service/auth_service.go:503-555 | so does a login |
| AuthService.SessionStore.AtomicBumpGen | services/auth/internal/scyllastore/session_store.go:95-106 | applies exactly when the row exists at the expected generation, and changes only its generation |
| AuthService.SessionStore.BumpUserGlobalVer | services/auth/internal/scyllastore/session_store.go:150-163 | the user's version rises by one from the stored or missing one, and by nothing when a statement fails |
| AuthService.Service.RefreshToken | services/auth/internal/service/auth_service.go:136-285 | the whole new state and answer, in the order rotated pair, cached session, stored session |
| AuthService.Service.RotateSession | services/auth/internal/service/auth_service.go:557-623 | the whole new state of a rotation, where the cache is written before or after minting, and what a lost swap answers |
| AuthService.Service.HandleTheftDetected | services/auth/internal/service/auth_service.go:641-694 | the replayed session's row and entry go, the third replay within the hour raises the user's version by one and starts the count afresh, an earlier one does not |
| AuthService.Service.ValidateToken | services/auth/internal/service/auth_service.go:418-477 | the whole new state and verdict, from a live entry or from the store |
| AuthService.Service.Logout | services/auth/internal/service/auth_service.go:305-339 | when the database answers, the row is deleted and no other; this process's entry and replacement go in any case; versions and theft counts stay |
| AuthService.Service.LogoutAllDevices | services/auth/internal/service/auth_service.go:360-382 | the stored version of this user rises by one, nothing else changes |
| AuthService.Service.MintSessionTokenPair | services/auth/internal/service/auth_service.go:503-555 | the row comes first; a later failure leaves it without a token |
| AuthRuns.RevocationReachesEveryServer | services/auth/internal/service/auth_service.go:286-339 | no process validates a token of a deleted session later than SessionStateTTL after the deletion |
| AuthRuns.DeletedHasNoRow | services/auth/internal/service/auth_service.go:305-339 | a session that was deleted stays without a row in every run |
| SignOut.SignOutReachesEveryProcess | services/auth/internal/service/auth_service.go:286-339 | after a sign-out that reaches the database, in every later state and on every process: no token of the session is validated without a live entry or later than SessionStateTTL, and none is refreshed except with the replacement made before, for at most RotatedTokenTTL |
| SignOut.SignedOutStaysGone | services/auth/internal/service/auth_service.go:305-339 | and its row is gone in every later state of the run |
| TokenRules.AcceptedExactlyWhen | services/auth/internal/service/auth_service.go:418-477 | the exact condition under which an access token is accepted, from what the process remembers or from the store |
| TokenRules.GrantedExactlyWhen | services/auth/internal/service/auth_service.go:136-285 | the exact condition under which a refresh token gets its successor |
| TokenRules.GrantRotates | services/auth/internal/service/auth_service.go:557-623 | what a grant changes: one row by one generation, the replacement for 30 seconds, the remembered session for 15 minutes, and nothing else |
| TokenRules.OverlapRepeatsTheAnswer | services/auth/internal/service/auth_service.go:150-157 | asking the same process again within the overlap gives the very same pair, whatever the database does |
| TokenRules.ReplayedExactlyWhen | services/auth/internal/service/auth_service.go:160-203 | the exact condition under which a token is taken for a replay, and that the session is deleted then, and no other |
| TokenRules.ThirdReplayRaisesTheVersion | services/auth/internal/service/auth_service.go:641-694 | the first two replays of a user leave the version alone, the third raises it and resets the count |
| NewestToken.NewestTokenIsHonoured | services/auth/internal/service/auth_service.go:158-188 | on one process, whatever is evicted: the newest token of a stored session gets its successor exactly when no mint of the session failed and its version suffices; it is a replay only after a failed mint |
| NewestToken.CachedGenerationIsTheRows | services/auth/internal/service/auth_service.go:254-260 | on one process a cached generation is the stored one, unless a mint failed |
| NewestToken.NewestRefreshed | services/auth/internal/service/auth_service.go:136-285 | the answer to the newest token in any state the runs can reach, cache hit or miss |
| NewestToken.SecondProcessRefusesTheNewest | services/auth/internal/service/auth_service.go:160-177 | a run on two processes in which the newest token is taken for a replay |
| AcrossProcesses.NewestIsReplayedExactlyWhen | services/auth/internal/service/auth_service.go:158-188 | in every run on any number of processes, with no failed mint: the newest token of a stored session is taken for a replay exactly when the process asked remembers another generation, and otherwise gets its successor exactly when its version suffices |
| AcrossProcesses.RunsStaySpread | services/auth/internal/service/auth_service.go:557-623 | in every run each row is at the newest generation handed out, or one further after a failed mint, and no process caches a replacement for the newest |
| AcrossProcesses.SignedOutValidation | services/auth/internal/service/auth_service.go:418-477 | right after a sign-out everywhere a process accepts an older access token if and only if it remembers the session at its generation with a version it meets |
| AcrossProcesses.SignedOutRefresh | services/auth/internal/service/auth_service.go:136-285 | and rotates an older refresh token if and only if it does so and the row is at that generation, or it has the replacement cached |
| AcrossProcesses.SignOutEverywhereNeedsAGap | services/auth/internal/service/auth_service.go:360-382 | after any run with a sign-out everywhere, from any process: every call of a client that goes on refreshing on a process that remembers the session is granted if and only if no two calls are more than SessionStateTTL apart |
| AcrossProcesses.SignedOutClientGoesOn | services/auth/internal/service/auth_service.go:360-382 | a login and a sign-out everywhere lead there from the start |
| NewestToken.RotationKeepsTheExpiry | services/auth/internal/scyllastore/session_store.go:95-106 | a refresh never moves the expiry stored at login |
| NewestToken.RunsKeepTheExpiry | services/auth/internal/service/auth_service.go:503-555 | in every run the expiry of a stored session is the time of its login plus its lifetime |
| NewestToken.ColdValidationStopsAtTheLoginsExpiry | services/auth/internal/service/auth_service.go:440-450 | in every run a process without a cache entry accepts the newest access token exactly until the lifetime counted from the login is over |
| StitchRegistry.CompletedRunsAreExact | services/metadata/internal/repository/stitch_repo.go:35-55 | over every run of completed operations the work index holds exactly the pairs of actionable rows |
| StitchRegistry.CompletedOpKeepsExact | services/metadata/internal/repository/stitch_repo.go:426-451 | each completed operation keeps the index exact for every file |
| StitchRegistry.EnqueueRepairs | services/metadata/internal/repository/stitch_repo.go:57-87 | from any tables at all, one completed Enqueue makes the file's actionable row visible under its own state and touches no other file |
| StitchRegistry.DeleteClears | services/metadata/internal/repository/stitch_repo.go:343-358 | one completed Delete leaves neither row nor entry |
| StitchRegistry.CrashesAreRepaired | services/metadata/internal/repository/stitch_repo.go:57-87 | both repairs hold after any run with any crashes |
| StitchRegistry.CrashHidesExactlyWhen | services/metadata/internal/repository/stitch_repo.go:159-169 | after which writes a crash leaves an actionable row that no sweep looks at, exactly |
| StitchRegistry.CrashNeverHidesNewRow | services/metadata/internal/repository/stitch_repo.go:76-87 | a crash while a row is created never hides it |
| StitchRegistry.StaleEntryStays | services/metadata/internal/repository/stitch_repo.go:426-451 | an entry under a state the row has left survives every operation but Delete |
| StitchRegistry.StitchRepo.Enqueue | services/metadata/internal/repository/stitch_repo.go:63-87 | performs its ordered writes up to where the database stops |
| StitchRegistry.StitchRepo.ClaimForStitch | services/metadata/internal/repository/stitch_repo.go:117-169 | claims exactly new, pending, failed and stale files, with its writes in order up to a failure |
| StitchRegistry.StitchRepo.MarkReady | services/metadata/internal/repository/stitch_repo.go:173-198 | refused without a row; otherwise its writes in order up to a failure |
| StitchRegistry.StitchRepo.MarkFailed | services/metadata/internal/repository/stitch_repo.go:202-220 | refused without a row; otherwise its writes in order up to a failure |
| StitchRegistry.StitchRepo.MarkSkipped | services/metadata/internal/repository/stitch_repo.go:227-255 | nothing to do without a row or for a ready one; otherwise its writes in order |
| StitchRegistry.StitchRepo.MarkStitchingReset | services/metadata/internal/repository/stitch_repo.go:259-275 | refused without a row; otherwise its writes in order up to a failure |
| StitchRegistry.StitchRepo.Delete | services/metadata/internal/repository/stitch_repo.go:343-358 | the row, then the three entries, up to a failure |
| StitchRegistry.StitchRepo.IndexSet | services/metadata/internal/repository/stitch_repo.go:426-451 | retires the old entry, publishes the new one, stops in between on a failure |
| StitchRegistry.StitchRepo.ListPending | services/metadata/internal/repository/stitch_repo.go:277-320 | lists only unfinished rows as the registry has them, drops only entries without a row, and lists every visible one when nothing is cut off by the limit |
| StitchSweep.StitchWorker.SweepOnce | services/metadata/internal/content/stitcher_worker.go:105-180 | whatever fails, every READY row names an object equal to the file's blocks and finished rows are not touched; while the database answers, no row changes but ripe ones (old enough, unclaimed, within their attempts), each ending at its verdict, and all visible ones are worked on when the index fits the batch |
| StitchSweep.StitchWorker.StitchOne | services/metadata/internal/content/stitcher_worker.go:136-176 | claims exactly the claimable files and touches no other row; a claimed file ends READY, parked or failed as its verdict says |
| StitchSweep.VerdictExactlyWhen | services/metadata/internal/content/stitcher_worker.go:136-176 | parked exactly for a non-final block below 5 MiB, ready exactly for non-empty large enough blocks with valid hashes and a store that answers, failed otherwise |
| StitchSweep.StitchWorker.ParkIfIneligible | services/metadata/internal/content/stitcher_worker.go:187-201 | parks exactly the layouts that cannot be assembled |
| FolderTree.FolderSubtree | services/metadata/internal/repository/purge_metadata.go:126-153 | ends on every table, cycles included, with exactly the reachable folders, each once, none before a nearer one |
| FolderPurge.MetadataRepo.RemoveFolderProjections | services/metadata/internal/repository/purge_metadata.go:166-259 | on success exactly the doomed rows are gone; a failure in the first two phases leaves all folder rows, any failure leaves every other row |
| FolderPurge.PurgeKeepsAgreement | services/metadata/internal/repository/purge_metadata.go:155-166 | on agreeing tables a full purge leaves agreeing tables in which no row names a purged folder, the surviving parent's items included |
| FolderPurge.RerunConverges | services/metadata/internal/repository/purge_metadata.go:180-232 | after a death before the third phase, a full re-run ends where one full run would have |
| FolderPurge.RerunFinishesExactlyWhen | services/metadata/internal/repository/purge_metadata.go:229-257 | for a subtree of the owner's folders: after a death between folders of the third phase, a re-run finishes exactly when no remaining folder lost a parent other than the root |
| FolderPurge.ChainLeavesAnOrphan | services/metadata/internal/repository/purge_metadata.go:229-257 | tables and a point of death that do orphan a folder: a chain of three, dead after two |
| FolderPurge.MetadataRepo.DeleteFolderItemRows | services/metadata/internal/repository/purge_metadata.go:309-352 | removes only rows of the folder and the given ids, and all of them on success |
| FileOrderIndex.RunsKeepPlaced | services/metadata/internal/repository/crud_repo.go:203-219 | over every run of completed creates, renames, moves, deletes and restores with increasing stored times, each file has exactly one order row, at its own folder and time |
| FileOrderIndex.UpdateKeepsPlaceExactlyWhen | services/metadata/internal/repository/crud_repo.go:274-282 | an update keeps that exactly when it does not fall into the same millisecond and folder as the one before; otherwise the file has no order row left |
| FileOrderIndex.TwoRenamesInOneMillisecond | services/metadata/internal/repository/hierarchy_repo.go:306-329 | a run that loses a file from its folder's listing |
| FileOrderIndex.CreateKeepsPlaced | services/metadata/internal/repository/metadata_repo.go:79-127 | a create gives the new file its one order row |
| FileOrderIndex.CrashHidesExactlyInMoves | services/metadata/internal/repository/hierarchy_repo.go:331-375 | a crash takes a file out of every listing exactly between the row and the order row of a move to another folder |
| FileOrderIndex.MoveKeepsListingExactlyWhen | services/metadata/internal/repository/hierarchy_repo.go:359-364 | a repository move keeps the folder listing right exactly when the destination is another folder |
| FileListing.FolderIsListed | services/metadata/internal/repository/crud_repo.go:121-201 | on an index in place the pages of a folder list exactly its live files, each once, last changed first, wherever the pages are cut |
| FileListing.PageIsRight | services/metadata/internal/repository/crud_repo.go:165-199 | with arbitrarily stale rows a page lists exactly the live, current, owned files of the folder it comes across, each once |
| FileListing.UpdateShowsExactlyWhen | services/metadata/internal/repository/hierarchy_repo.go:306-412 | after a rename, move, delete or restore a folder's listing shows the file if and only if it is the file's folder now, the reader owns it, it is current and not deleted, and the update did not collide with the one before in its millisecond |
| FileListing.DeletedIsOnNoPage | services/metadata/internal/repository/hierarchy_repo.go:377-412 | a deleted file is on no page of any folder, whatever stale rows are left |
| FileListing.MetadataRepo.ListFilesByFolder | services/metadata/internal/repository/crud_repo.go:140-201 | a page shows each live file of the owner and folder that it comes across, once, where its first row stands |
| FileListing.MetadataRepo.UpdateFileName | services/metadata/internal/repository/hierarchy_repo.go:306-329 | refuses missing and foreign files; on success the row has the new name and keeps folder, owner and flag; otherwise its writes in order up to a failure |
| FileListing.MetadataRepo.MoveFile | services/metadata/internal/repository/hierarchy_repo.go:331-375 | refuses missing and foreign files; on success the row has the folder and keeps name, owner and flag; otherwise its writes in order up to a failure |
| FileListing.MetadataRepo.SetFileDeleted | services/metadata/internal/repository/hierarchy_repo.go:377-412 | refuses missing and foreign files; on success the row has the flag and keeps name, folder and owner; otherwise its writes in order up to a failure |
| FileListing.MetadataRepo.CreateFile | services/metadata/internal/repository/metadata_repo.go:79-127 | listing, row and order row, in this order up to a failure |
| TokenBucket.WindowIsBounded | services/metadata/server/guardrails.go:43-58 | in any window the calls admitted are at most burst + rps * length for one bucket, plus a burst for each time the cache forgot it |
| TokenBucket.TokensStayInRange | services/metadata/server/guardrails.go:43-58 | tokens stay between zero and the burst |
| TokenBucket.WaitingIsEnough | services/metadata/server/guardrails.go:43-58 | a user who waited for one token is admitted |
| TokenBucket.NewUserHasTheBurst | services/metadata/server/guardrails.go:34-58 | of n calls at once, a user without a bucket gets exactly the smaller of n and the burst |
| TokenBucket.RateLimiter.Allow | services/metadata/server/guardrails.go:34-58 | one user's call moves that user's bucket by one step and nobody else's |
| TokenBucket.TokenBucket.Allow | services/metadata/server/guardrails.go:43-58 | the in-place update admits and charges as the refill function says |
| Delivery.NothingIsSilentlyDropped | pkg/natsx/consume.go:166-178 | over every run of outcomes, panics, lost settlements and dead-letter failures: acknowledged only by a handler that returned Ack, terminated without a copy only when the deliveries are used up |
| Delivery.LastDeliverySettles | pkg/natsx/consume.go:214-250 | the last allowed delivery settles the message when it can be read and its settlement arrives |
| Delivery.DeliveriesAreCounted | pkg/natsx/consume.go:201-271 | every attempt is a delivery until the message is settled or the limit is reached, and none after |
| Delivery.PanicsNeverAcknowledge | pkg/natsx/consume.go:324-333 | a handler that always panics never gets its message acknowledged |
| Delivery.UnreadableIsNeverTerminated | pkg/natsx/dlq.go:27-30 | without readable metadata nothing is dead-lettered or terminated |
| Delivery.WaysToEnd | pkg/natsx/consume.go:214-250 | how one delivery can end: who acknowledges, what terminates, and that the hook runs without a copy exactly when deliveries are used up and the copy failed |
| Delivery.OnMessage | pkg/natsx/consume.go:201-271 | the settlement for each outcome, delay and number of deliveries, and the stored copy with its routing and reason exactly when it reports one |
| Delivery.ScheduleRetryDelay | pkg/natsx/consume.go:274-291 | entry n of the schedule, its last entry from then on, never negative |
| Delivery.NewRetryAfter | pkg/natsx/consume.go:65-71 | negative delays become none, others are kept |

## Left out

- Database, message stream, object store and cache internals: they are maps, sets, sequences and a cache that may forget anything; each answers for a while and then fails. Part copies are assumed to be joined by part number.
- Token signing, hashing and key stores: a token is a record, and a client can only present one that was minted.
- Expiry of rows by their time to live in the purge and session tables, and purge states from before the current ones.
- Columns nothing decides on: reasons, completion and update times of jobs, copies in index rows, sizes and entity tags.
- Rounding in ComputeBackoff and in the token bucket: the first multiplies exactly and floors, the second is over reals; duration overflow is not modelled.
- 64-bit overflow of prefix sums and offsets; the 32-bit conversions of batches, counts, occurrences and attempts are modelled.
- Messages of errors stored by the sweeper: two fixed texts stand for them.
- The branch of a metadata removal for a file whose row has vanished, thumbnails, and the order of the single projections removed there: removing metadata is one action that works or fails.
- Parsing of completion payloads: an unreadable one is terminated before the modelled part.
- PurgeHandlers.Coordinator.Request: takes the job id, the block list and whether the file is in the trash as parameters, because the file lookup and the id derivation are not part of this model.
- PurgeTables.PurgeRepo.UpdateState: does not model the write to a row that is gone, which the database would answer with a partial row; no modelled step removes a job row, only its time to live does.
- PurgeTables.PurgeRepo.SetBatchCount: does not model the write to a row that is gone, as above.
- PurgeTables.PurgeRepo.RecordBatch: does not model a row that is gone, as above; its re-read would then answer that batches are missing.
- PurgeFolderSubtree, the loop that requests a purge per file and then removes the folders.
- Clamping of ranges past the end of the file and multiple ranges, which section 14.1.2 of RFC 9110 describes and the server refuses.
- ContentServer.HandleContent: assumes a manifest whose block sizes are positive and add up to its total, as the upload writes it (services/upload/internal/service/upload_service.go:250-275).
- ContentServer.ServeLive: assumes such a manifest too.
- BlockStream.ManifestOffsets: assumes such a manifest too.
- StitchSweep.StitchWorker.SweepOnce: the blocks of a file do not change while a sweep works on it; an edit committed between loading the manifest and the final mark is not modelled. The branch of stitcher_worker.go:148-157 for a layout that became ineligible in between cannot be taken in the code either: both checks see the same list.
- StitchSweep.StitchWorker.StitchOne: the blocks of the file are fixed, as above.
- The manifest cache, tickets, HEAD requests, conditional requests and thumbnails of the content server.
- SessionRotation.OnePairPerGeneration: leaves out global versions; that check is a point where a call may stop.
- AuthService.Service.LogoutAllDevices: leaves out the cache entry it writes, because nothing reads it.
- AuthService.Service.RotateSession: stands for the rotation of both the cached and the uncached path; where they differ is its parameter.
- StitchRegistry.StitchRepo.ClaimForStitch: claims are sequential, since they are not compare-and-set.
- StitchRegistry.StitchRepo.ListPending: the order of a partition is left open, and reads that fail are not modelled.
- The committed-edit path, which also moves the order index, and the manifest and preview rows of a create.
- FileListing.MetadataRepo.ListFilesByFolder: takes the order rows of one page as the scan returns them; page tokens and the listing that includes deleted files are left out.
- Heartbeats, logging and prefetch of the message consumer.
- Upload ledger, garbage collection, sharing, search, generated code, migrations, configuration, user interface and clients.
