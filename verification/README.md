# A verified model of r2kit's multipart uploads

r2kit plans, runs, resumes and completes multipart uploads against a remote store that can fail, lose
answers and be changed by other clients. This project models that behaviour in Dafny and proves what
the library promises about it. `dafny verify dfyconfig.toml` checks everything.

## How it is modelled

- **Store** (`Remote`). A session is open, completed or aborted and maps part numbers to bodies and
  ETags. Assumed of the store is only this: an ETag stands for one body for ever; parts, completion and
  abort act on an open session only; a completion needs the ETags stored at that moment; a page of
  ListParts is ascending, starts behind the marker and skips nothing. Other clients may do anything the
  store allows, at any moment.
- **Requests**. A request is a step of the store (applied, or not) and a separate step of the uploader
  (answered, retried, given up). A request that was given up can still be applied later, a part request
  even twice.
- **Runs**. `FileUpload` and `StreamUpload` are step relations; a run is any sequence of possible steps,
  so every interleaving is covered. Both counters and the progress callback move in one step, because
  all part futures are polled in one task. Cancellation is giving up, at any moment. A file run can be
  followed by any number of resumed runs of the same session. `SessionEnd` is the common tail:
  completion request, its answer, abort.
- **Source file**. Whoever changes the file moves its modification time forward, and tasks may read it
  in pieces while it changes. A reader is the bytes it would yield, and may fail earlier.
- **Loops** that update variables in the source are methods with invariants (`Reconcile`, `Manifest`,
  `Retry`, `BatchDelete`, `RunLoops`); the shared counters are a class. Each is proved against the
  function or invariant that the step relations and theorems use. Functions in the source that only
  compute stay functions.

Arithmetic is on unbounded integers; saturation is written out and the lemmas show that no `u64` or
`u16` overflows.

## Promises that hold only under a condition

- *The object equals the file* when parts are reused: exactly when the ETags of the reused parts stand
  for the file's bytes (`FileUploadTheorems.OkMeansTheFile`), because a listing shows sizes and not
  contents; `UndisturbedRuns.OkCanBeAnotherFile` is a run where they do not. `UndisturbedRuns.UndisturbedOkIsTheFile` shows that this holds by itself when the file's
  content stays and others store only its bytes.
- *Buffers stay within `max_buffered_bytes`* (`src/managed.rs:511`): true for files
  (`FileUploadTheorems.MemoryStaysInBudget`). The stream path has one or two buffers more than fit; a
  stream keeps to the budget in all runs if it fits the budget as a whole, and only then unless its
  reader ends early (`StreamMemory.BudgetHoldsExactly`).
- *A session once complete stays complete*: no part is ever missing again
  (`StaysComplete.CompleteNeverMissesAgain`), but `reconcile` fails after a replacement of another size
  (`StaysComplete.CompleteCanStop`). A later listing reports complete again exactly when every page, at
  its moment, shows only parts that fit the plan (`StaysComplete.StaysCompleteExactly`), and always
  when the other clients keep to the plan (`StaysComplete.StaysCompleteIfOthersConform`).
- *A snapshot survives its record*: exactly when the upload id is not empty
  (`Sessions.RecordRoundTrip`).
- `docs/limits.md:17` says 16 attempts; the code allows 10 (`src/managed.rs:38`) and the model follows
  the code.

## Model

| member | source | states |
|---|---|---|
| Plan.NewPlanAccepts | src/multipart.rs:693-718 | a plan exists exactly within R2's limits on object size, part size and part count, keeps both sizes, and its count fits a `u16` |
| Plan.RefusedPlanBreaksALimit | src/multipart.rs:693-718 | a refusal names a limit that the two sizes really break |
| Plan.CountReachesEnd | src/multipart.rs:705 | the planned count is the only one whose last part starts inside the file and reaches its end |
| Plan.ValidPlanIsRebuilt | src/multipart.rs:693-718 | a plan is rebuilt from its two sizes alone |
| Plan.PartLength | src/multipart.rs:720-729 | a length exists exactly for planned numbers, and is the planned one |
| Plan.PartsTouch | src/managed.rs:1487-1501 | consecutive parts touch, all but the last are full, the last ends the file; the multiplied offset is that place and fits a `u64` |
| Plan.PlanTilesTheFile | src/multipart.rs:720-729 | every byte of the file lies in exactly one planned part |
| Plan.SlicesJoin | src/managed.rs:1478-1505 | the parts' byte ranges joined in order are the file |
| Plan.AllPartsSum | src/multipart.rs:720-729 | planned lengths add up to the file size |
| Sizing.RaisedPartSizeIsLeast | src/managed.rs:1402-1403 | the raised part size is the least one not below the configured size that needs at most 10,000 parts |
| Sizing.RaisedPlanAccepted | src/managed.rs:1402-1410 | raising stays within the part limits, and the raised plan exists, exactly up to the maximum object size |
| Sizing.PresignUploadAccepted | src/object.rs:1758-1788 | one PUT below 8 MiB; from there on a session with the least sufficient part size, exactly up to the maximum object size |
| Sizing.ValidateIsExact | src/managed.rs:810-834 | the settings pass exactly when all limits hold and a full pool fits the budget; saturation never hides an overrun |
| Sizing.RefusedSettingsBreakALimit | src/managed.rs:810-834 | a refusal names a limit that the settings really break |
| Manifest.TryFromParts | src/multipart.rs:177-196 | the insertion loop computes the canonical list or the error |
| Manifest.CanonicalSorts | src/multipart.rs:177-196 | succeeds exactly on non-empty duplicate-free input and returns its strictly sorted rearrangement; the two errors tell the two causes apart |
| Manifest.CanonicalIgnoresOrder | src/multipart.rs:177-196 | every permutation gives the same manifest |
| Manifest.CanonicalIsIdempotent | src/multipart.rs:177-196 | canonical output is a fixed point |
| Manifest.AcceptsIsExact | src/multipart.rs:1122-1134 | `complete` accepts a sorted manifest exactly when its numbers are 1 to the part count |
| Remote.AnyRequestsEvolve | src/multipart.rs:1122-1180 | after any sequence of requests by anybody ETags keep their meaning and stored numbers stay; a completion or an abort is the last thing that happens |
| Remote.CompletionIsWhatETagsMean | src/multipart.rs:1138-1160 | a completion that succeeds makes the object its ETags stand for, whatever others did meanwhile |
| Reconcile.Reconcile | src/multipart.rs:1019-1099 | the page loop computes the walk over the answers, and follows their markers |
| Reconcile.FillSlots | src/multipart.rs:1039-1074 | one page fills the slot vector in place as specified, or fails as specified |
| Reconcile.Partition | src/multipart.rs:1085-1099 | the two output vectors are the filled and the empty slots |
| Reconcile.EntryIsExact | src/multipart.rs:1039-1067 | an entry is accepted exactly when it names a planned part with its planned size and an ETag |
| Reconcile.RefusedEntryIsWrong | src/multipart.rs:1039-1067 | a refusal says what is really wrong with the entry |
| Reconcile.AbsorbIsExact | src/multipart.rs:1039-1074 | a page is accepted exactly when all entries are acceptable and no number comes twice |
| Accounting.FullManifestPasses | src/managed.rs:950-967 | distinct parts with all planned numbers always make a manifest that `complete` accepts, whatever their order |
| Reconcile.AbsorbContents | src/multipart.rs:1067-1074 | a slot holds exactly what it held or what the page listed for it |
| Reconcile.SplitPartitions | src/multipart.rs:1085-1099 | uploaded and missing lists are strictly ascending, disjoint, together the plan, and their lengths add up to the file size |
| Listings.WalkIsOneListing | src/multipart.rs:1024-1083 | page boundaries do not matter |
| Listings.ReconcileIsExact | src/multipart.rs:1019-1099 | success exactly for a finished, well-formed, planned, duplicate-free listing; then the lists partition the plan and the uploaded parts are exactly the listed ones |
| Listings.CompleteResultIsAccepted | src/multipart.rs:764-772 | a result makes a manifest exactly when nothing is missing, and `complete` accepts it |
| Listings.PageFills | src/multipart.rs:1039-1074 | an accepted page takes away as many empty slots as it has entries |
| Listings.ReconcileTerminates | src/multipart.rs:1024-1083 | the loop ends after at most part count plus one pages while truncated pages are not empty |
| Listings.RacingNeverDuplicates | src/multipart.rs:1067-1073 | with ascending pages the duplicate branch never fires, however the parts change between pages |
| Listings.RacingKnows | src/multipart.rs:1019-1099 | against a racing store, every number reported is stored at the end and its reported ETag stands for a body of the planned length; no part stored all along is missed |
| Listings.VerifyIsExact | src/multipart.rs:1105-1134 | after its listing, `complete_verified` sends exactly a manifest that is the listed one and misses nothing, and reports the listing's error or the mismatch otherwise |
| Listings.VerifiedCompletion | src/multipart.rs:1105-1165 | if `complete_verified` returns Ok, every planned part is stored with its planned length and the object has the planned size, whatever others did between and during the pages |
| StaysComplete.CompleteNeverMissesAgain | src/multipart.rs:1019-1099 | a session once reported complete is never again reported to miss a part |
| StaysComplete.StaysCompleteExactly | src/multipart.rs:1019-1099 | whatever others do between the pages, a later listing reports it complete again exactly when on every page each number stored at that moment within the page's window is planned, has its planned size and an ETag |
| StaysComplete.CompleteExactly | src/multipart.rs:1019-1099 | the same for any listing of a store that holds every planned number |
| StaysComplete.StaysCompleteIfOthersConform | src/multipart.rs:1019-1099 | it stays complete if the other clients store only planned numbers with planned sizes and an ETag |
| StaysComplete.ConformingRequestsAreGentle | src/multipart.rs:1019-1099 | any number of such requests change the store only in ways that theorem allows |
| StaysComplete.CompleteCanStop | src/multipart.rs:1055-1060 | an open session that stops being complete, by a replacement of another size |
| Sessions.ResumeRebuildsSession | src/multipart.rs:1700-1717 | a snapshot is accepted by its own bucket only, and rebuilds the session and plan |
| Sessions.RecordRoundTrip | src/multipart.rs:597-624 | the persisted record reads back as the snapshot exactly when the upload id is not empty |
| Sessions.AcceptedRecordResumes | src/multipart.rs:570-624 | an accepted record is written back unchanged and resumes with a valid plan |
| Sessions.RefusedRecordIsWrong | src/multipart.rs:570-613 | a refused record is really at fault in the way its error says |
| Opening.OpenFileIsExact | src/managed.rs:730-780 | a file run starts exactly when settings, options, file, cancellation and snapshot or created session allow it, and then with that session |
| Opening.OpenStreamIsExact | src/managed.rs:547-578 | a stream run starts exactly when settings, options, cancellation, announced size and created session allow it and nothing is to be resumed |
| Opening.SendIsExact | src/managed.rs:1238-1430 | the adaptive upload makes one PUT or opens a session, exactly when and as its two looks at file and signal, the options, the raised part size and the budget say |
| Opening.SendAccepted | src/managed.rs:1402-1410 | for a file that keeps its size the raised parts always suffice: a session is opened exactly up to the maximum object size and within the budget, with the least sufficient part size |
| Opening.RefusedFileIsJustified | src/managed.rs:730-780 | whatever fails before a file run starts is really so, and the error says what |
| Opening.RefusedStreamIsJustified | src/managed.rs:547-578 | the same for a stream run |
| Opening.RefusedSendIsJustified | src/managed.rs:1238-1430 | the same for the adaptive upload |
| SessionEnd.EndStepKeeps | src/managed.rs:782-807 | what every step of completing, giving up and aborting keeps: one ending, and success or abort only if the store said so |
| SessionEnd.OthersAreNotKeptOut | src/managed.rs:994-1014 | other clients are served in every phase; once they have ended the session neither a completion nor an abort of the run is |
| SessionEnd.GivingUpEnds | src/managed.rs:994-1014 | a run can be given up at any moment before the cleanup with any error, and the cleanup then always ends it with that error, by the abort or the kept session that `abort_on_error` asks for |
| Retry.RetryWithPolicy | src/managed.rs:1550-1593 | the operation is called exactly up to its first final outcome or the attempt limit, that outcome is returned, there is one sleep fewer than calls, each is exactly what its draw and the server's request make it, and the total is bounded |
| Retry.CeilingDoublesUntilCap | src/managed.rs:1630-1633 | the clamped exponent gives 250 ms doubled per attempt, capped at 30 s, for every attempt |
| Retry.DelayBounds | src/managed.rs:1639-1644 | without a request the delay is at most 250 ms doubled per attempt, capped at 30 s; a request counts up to 30 s, is never undercut, and is exceeded by that jitter only; every delay in the range can be drawn |
| Retry.DelayIsDrawn | src/managed.rs:1639-1644 | the delay is the draw's remainder, or the request if that is longer |
| Retry.SumAdds | src/managed.rs:1550-1593 | the total of the delays is their sum |
| RunLoops.Counters.constructor | src/managed.rs:880-887 | the counters and the first report count exactly the reused parts |
| RunLoops.Counters.PartConfirmed | src/managed.rs:933-942 | each confirmation adds one part and its planned bytes, reports both, and neither counter overflows |
| RunLoops.CollectReused | src/managed.rs:864-877 | goes ahead exactly when every part is planned and the bytes fit a `u64`; the tree and the sum are those of the list; otherwise the failure is that of the first part at fault |
| RunLoops.ListMissing | src/managed.rs:889-899 | exactly the planned numbers not in the tree, ascending |
| RunLoops.ListingPrepares | src/managed.rs:864-901 | for what a listing reports, these steps never fail and count the planned bytes of the reused parts |
| RunLoops.CollectUploaded | src/managed.rs:950-954 | the manifest is that of reused and uploaded parts together, and the count is exact |
| RunLoops.ReadAll | src/managed.rs:620-650 | the reader sends planned part after planned part, all exactly if the input is long enough, and otherwise those wholly inside it |
| FileUploadInv.StepKeeps | src/managed.rs:858-975 | every step of every kind keeps the invariant of the run |
| FileUploadInv.ChangesAreSeen | src/managed.rs:955-964 | the final check fails exactly if length, modification time, device or inode of the file differ from those at the start |
| FileUploadInv.FinishSends | src/managed.rs:950-967 | a run whose parts are all in either finds the source changed or sends exactly its parts; its local manifest checks never fail |
| FileUploadTheorems.OkMeansTheFile | src/managed.rs:858-975 | when a run returns Ok the object has the planned size, and is the unchanged file exactly when the reused ETags stood for the file's bytes |
| FileUploadTheorems.ProgressIsExact | src/managed.rs:864-974 | reused, sent and outstanding parts partition the plan; every report is exact; reports strictly increase; on Ok the last one shows the whole file |
| FileUploadTheorems.ConfirmedPartsStay | src/managed.rs:864-901 | over any number of failed and resumed runs a confirmed part is never sent again, so at most part-count uploads are ever confirmed |
| FileUploadTheorems.MemoryStaysInBudget | src/managed.rs:828-946 | in every reachable state at most `concurrency` buffers exist and they fit the budget |
| FileUploadTheorems.OneOfThreeEndings | src/managed.rs:782-1014 | a started run ends Ok with an object, or aborted with nothing to resume, or failed with a snapshot that its bucket accepts and that rebuilds the session |
| FileUploadTheorems.AbortedNeverMadeAnObject | src/managed.rs:994-1014 | `aborted` implies that the session never made an object and never will, even with a completion in flight |
| FileUploadTheorems.AbortsMatch | src/managed.rs:994-1014 | a run aborts its session only as `abort_on_error` asks, over all its steps |
| FileUploadTheorems.ReportsItsFailure | src/managed.rs:782-1014 | a failed run reports the error that first made it fail |
| FileUploadListing.ListingFollowsWalk | src/managed.rs:864-868 | in any run the listing does what the reconcile loop says of the pages so far: waits at the last marker, fails with its error, or transfers with exactly its uploaded parts |
| FileUploadListing.ResumedRunReconciles | src/managed.rs:864-868 | the same from the start of a resumed run |
| FileUploadListing.ListingCanComplete | src/managed.rs:858-975 | while the file is unchanged, the session open and what it stores fits the plan, a run that is still listing can finish the listing and send the completion |
| FileUploadListing.ResumedRunCanComplete | src/managed.rs:858-975 | the same from every reachable listing state |
| FileUploadPool.PartsAreTakenInOrder | src/managed.rs:890-912 | the pool takes up the missing parts in ascending order |
| FileUploadPool.PoolFillsUp | src/managed.rs:946 | from every state of the transfers the pool can fill up to its limit |
| FileUploadPool.AttemptsCanBeUsedUp | src/managed.rs:1575-1592 | a part request can be retried until all of its attempts are used, and not once more |
| FileUploadPool.SentPartsCanArriveLate | src/managed.rs:1507-1548 | a part request that was ever sent can still be applied at any later moment of an open session |
| FileUploadPool.OthersLeaveTheRun | src/managed.rs:858-975 | what others do changes only the file, the store and which answers are on their way |
| FileUploadPool.ChangedFileIsNotCompleted | src/managed.rs:956-964 | a file changed at any moment before the final check: this run never sends a completion and does not succeed |
| Outcomes.OpenedFileStarts | src/managed.rs:749-782 | whatever opening returns meets the hypothesis of every theorem about file runs |
| Outcomes.FileCallEnds | src/managed.rs:730-1024 | every file upload ends in exactly one of four ways and its result says which: Ok with an object of the planned size, failed before the start with neither snapshot nor abort, aborted (only with `abort_on_error`), or resumable |
| Outcomes.FileCallFailsAsAsked | src/managed.rs:994-1014 | without `abort_on_error` a failed upload aborts nothing and returns its snapshot; with it there is an abort attempt and a snapshot exactly if it was not confirmed; the error is the first failure's |
| Outcomes.FileCallKeepsItsLimits | src/managed.rs:810-834 | the call's concurrency, budget and attempts bound every moment of its run |
| Outcomes.FileCallFillsItsPool | src/managed.rs:946 | and the pool can reach the call's concurrency |
| Outcomes.FileAttemptsAreUsed | src/managed.rs:1575-1592 | and every part request can be tried as often as the call says |
| Outcomes.ResumeIsAFreshRun | src/managed.rs:749-782 | the next run of a session begins as a new call with its snapshot would |
| Outcomes.SnapshotReopens | src/managed.rs:749-766 | and it can begin exactly when opening accepts the returned snapshot, which reopens the very same session |
| Outcomes.OpenedStreamStarts | src/managed.rs:547-580 | the same for streams |
| Outcomes.StreamCallEnds | src/managed.rs:547-606 | every stream upload ends in exactly one of the same four ways |
| Outcomes.StreamCallFailsAsAsked | src/managed.rs:994-1014 | abort and error of a failed stream upload, as for files |
| Outcomes.StreamCallKeepsItsLimits | src/managed.rs:613-702 | the call's concurrency, budget and attempts bound every moment of its run |
| Outcomes.StreamCallUsesItsLimits | src/managed.rs:613-702 | and all these buffers can be in use at once |
| Outcomes.StreamAttemptsAreUsed | src/managed.rs:1575-1592 | and every part request can be tried as often as the call says |
| FileUploadProgress.MeasureDecreases | src/managed.rs:858-975 | each of a run's own steps, except an empty listing page, lowers a measure that no step of others raises |
| FileUploadProgress.OwnStepsAreBounded | src/managed.rs:858-975 | besides empty listing pages a run takes at most one own step per byte, `max_attempts + 3` per part, and four more |
| FileUploadProgress.CanAlwaysComplete | src/managed.rs:903-967 | while the file is unchanged and the session open, the pool never blocks itself: some continuation without failures sends the completion |
| FileUploadProgress.ReachableRunCanComplete | src/managed.rs:858-975 | the same from every reachable state |
| UndisturbedRuns.UndisturbedOkIsTheFile | src/managed.rs:858-975 | over any number of resumed runs, if the content stays and others store only its bytes, Ok means that the object is the file |
| UndisturbedRuns.OkCanBeAnotherFile | src/managed.rs:864-878 | a concrete resumed run that returns Ok with an object other than its unchanged file |
| Objects.JoinIsFile | src/multipart.rs:1138-1160 | bodies of the planned lengths joined make the file exactly when each is its slice |
| Objects.SealedObject | src/multipart.rs:1138-1160 | the object a full manifest stands for has the file's size, and is the file exactly when the reused parts hold it |
| StreamUploadInv.MoveKeeps | src/managed.rs:608-727 | every step of reader, channel, pool, store and end keeps the invariant of the pipeline |
| StreamUploadInv.FullStreamPasses | src/managed.rs:712-718 | with everything uploaded the local manifest checks never fail |
| StreamUploadTheorems.ChunksArePlannedParts | src/managed.rs:620-650 | the k-th chunk sent is planned part k, the channel keeps the order, the branch for too many parts is unreachable |
| StreamUploadTheorems.CompletionNeedsAllBytes | src/managed.rs:703-719 | a completion is sent only when the reader delivered all bytes and every part is uploaded, so never for a short reader |
| StreamUploadTheorems.OkMeansTheStream | src/managed.rs:608-727 | on Ok the object is exactly the first `file_size` bytes of the reader |
| StreamUploadTheorems.StreamProgressIsExact | src/managed.rs:685-697 | every report is exact, reports strictly increase, and the last one shows the whole stream when a completion is sent |
| StreamUploadTheorems.StreamEndings | src/managed.rs:582-606 | the three endings of a started stream upload |
| StreamUploadTheorems.AbortedStreamNeverMadeAnObject | src/managed.rs:994-1014 | an aborted stream upload's session had no object at any earlier moment and will never have one |
| StreamUploadTheorems.AbortsMatch | src/managed.rs:994-1014 | a run aborts its session only as `abort_on_error` asks, over all its steps |
| StreamUploadTheorems.ReportsItsFailure | src/managed.rs:582-606 | a failed run reports the error it was given up with, or that of a reader that did not yield the whole stream |
| StreamMemory.HeldAndConfirmed | src/managed.rs:623-697 | bytes in buffers and bytes confirmed are together exactly the planned bytes of the parts begun |
| StreamMemory.BuffersAreBounded | src/managed.rs:613-702 | at most one buffer more than fits the budget, or two more than the pool when the pool uses it up |
| StreamMemory.BuffersAreReached | src/managed.rs:613-702 | some run does hold that many at once, unless there are fewer parts or the reader ends before |
| StreamMemory.MostIsExact | src/managed.rs:613-702 | for every reader, the largest amount ever buffered is exactly the bytes of that many first parts |
| StreamMemory.BudgetHoldsExactly | src/managed.rs:613-702 | for every reader, all reachable states keep to the budget if and only if that amount does; a stream that fits the budget never overruns it; with a reader that yields the whole stream, exactly such streams do not |
| StreamProgress.MeasureDecreases | src/managed.rs:608-727 | each of the uploader's own steps lowers a measure that no step of others raises |
| StreamProgress.OthersLeaveTheFlow | src/managed.rs:608-727 | what others do changes only the store and which answers are on their way |
| StreamProgress.AttemptsCanBeUsedUp | src/managed.rs:1575-1592 | a part request can be retried until all of its attempts are used, and not once more |
| StreamProgress.SentChunksCanArriveLate | src/managed.rs:1507-1548 | a part request that was ever sent can still be applied at any later moment of an open session |
| StreamProgress.FailedReadIsNotCompleted | src/managed.rs:631-635 | a reader that fails at any of its reads: the run never sends a completion and does not succeed |
| StreamProgress.OwnMovesAreBounded | src/managed.rs:608-727 | a run takes at most `max_attempts + 4` own steps per part and three more |
| StreamProgress.PipelineNeverDeadlocks | src/managed.rs:620-702 | while a run works, a step brings it forward unless it waits for bytes the input does not have or for the answer to a request; with no read and no request outstanding a chunk can be sent or pulled or the run can finish |
| StreamProgress.AlwaysCanComplete | src/managed.rs:608-727 | from every healthy state some continuation without failures sends the completion |
| StreamProgress.ReachableCanComplete | src/managed.rs:608-727 | the same from every reachable state |
| Cancellation.FlagIsCancelled | src/managed.rs:60-68 | the flag shows exactly whether anybody cancelled, so it is never unset |
| Cancellation.NoLostCancellation | src/managed.rs:70-81 | in no interleaving is the flag set while a waiter is parked with nothing pending; a waiter returns only after a cancellation |
| Cancellation.CancelledWaiterReturns | src/managed.rs:70-81 | once cancelled, a waiter returns with its next few steps, whatever others do between them |
| ListingStreams.TokensStayUsable | src/object.rs:995-1003 | a stream that starts with a usable token never sends one that `send` refuses |
| ListingStreams.MarkersStayUsable | src/multipart.rs:1553-1564 | the same for the pair of markers, and only the first request can go without one |
| ListingStreams.NoCursorTwiceInARow | src/object.rs:1075-1092 | for any server, no two consecutive requests carry the same cursor or pair of markers |
| ListingStreams.NothingAfterAnError | src/multipart.rs:1642-1674 | an error is the last item and nothing is requested after it |
| ListingStreams.NothingAfterAnErrorInObjects | src/object.rs:1096-1103 | the flattened stream keeps that |
| ListingStreams.CursorsAreUsable | src/object.rs:1051-1062 | a response is accepted exactly when it is not truncated or has a usable cursor, and the next request carries the response's own, each marker as itself |
| ListingStreams.PagesFollowReplies | src/object.rs:1075-1092 | each item is its answered page or the error of its request or of a cursor sent twice; each request carries the last page's cursor; the stream stops only at an error or a page without cursor |
| ListingStreams.ObjectsAndError | src/object.rs:1096-1103 | for every server the object stream yields exactly the objects of the answered pages, in order, and then the error if there was one |
| ListingStreams.NoErrorMeansComplete | src/object.rs:1096-1103 | a finished object stream without an error has seen a last page without a next cursor |
| ListingStreams.YieldedAndLeft | src/object.rs:1075-1103 | at every moment the objects yielded and those left are the listing, in order |
| ListingStreams.StreamYieldsTheListing | src/object.rs:1075-1103 | against cursors that advance over a finite listing, the stream ends and has yielded every object exactly once, in order |
| BatchDelete.BatchesSplitTheKeys | src/object.rs:2147-2149 | batches are non-empty, at most 1,000 long, as few as possible, and together the keys in order |
| BatchDelete.DeleteObjects | src/object.rs:2064-2132 | nothing is sent if any key is invalid; otherwise the batches are sent in order and the outcome is the specified one |
| BatchDelete.NothingIsLost | src/object.rs:2083-2131 | success takes exactly one request per batch; the result, or if request k + 1 fails the partial one, reports exactly the keys of the responses' entries, each in its turn, and their failures with key, code and message, up to an entry without a key |
| CopySource.SourceReadsBack | src/object.rs:1518-1522 | splitting at the first slash and decoding gives back bucket and key |
| CopySource.SourcesNeverCollide | src/object.rs:1518-1522 | distinct sources have distinct headers |
| CopySource.EachByteIsEscaped | src/object.rs:54-67 | letters, digits and the listed characters stay; every other byte becomes a percent sign and its two upper-case digits |
| CopySource.SourceIsSafe | src/object.rs:54-67 | the header holds only percent signs and those characters |

## Left out

- The AWS SDK, signing, HTTP, XML and the tokio runtime: requests are steps; channel, watch and unordered buffer follow their documentation.
- `src/client.rs`, `src/config.rs`, `src/observability.rs`, the tables and texts of `src/error.rs`: single checks, logging, one match arm each; errors are kinds without texts.
- Debug redaction, accessors, builder setters, conversions, serde derives: no state.
- Checksums, MD5, MIME types, language tags and dates: decided in other crates. What the upload options' own validation reports is an input of `Opening`.
- How many empty pages a listing has: only the store bounds that, so `FileUploadProgress.OwnStepsAreBounded` does not count them.
- Single PUT, get, head and download: one request each.
- Expiry and contents of presigned URLs: made by the SDK.
- `fraction` and `percentage` of progress: floating point over the integers modelled here.
- Platforms whose `usize` is smaller than 64 bits, and the errors for buffers they cannot address.
- A panic of the reader task, and the time between its cancellation and its end.
- A modification time that the file system does not report, or that stays when the content changes: the model assumes a change shows in the fingerprint.
- Deadlines and sleeping during retries inside the upload runs: there a retry is one step; delays are proved in `Retry`.
- The configuration of a file upload stays the same over the resumed runs of one session.
- The two upload runs as running code: their shared state is modelled on values, as step relations, because their stages interleave; `RunLoops` has the sequential pieces in the source's own form.
- Which of several broken limits is reported first: the functions follow the source, no lemma speaks of it.
- Prefixes and delimiters of listings, page limits, and the parsing of entries: `ListingStreams` starts at the page or error a request yields.
