# Verification of the agent snapshot, guest, dashboard and artifact examples

This project models the four harder parts of the repository's examples and proves what they are for. One
`dafny verify dfyconfig.toml` checks everything.

**The snapshot experiment** (`Effects`, `Journals`, `Transactions`, `Linearization`, `Experiment*`). A write-once journal holds
one row per effect. Candidates are materialized, run and scored one after the other, every durable operation is
one step, and a process may be killed between any two steps and started again, alone or beside others. The plan
may have any candidates. `Transactions` looks inside one materialization: concurrent callers, the lock that
`BEGIN IMMEDIATE` takes, commits, timeouts and crashes; `Linearization` shows that this is the same as whole
operations one after the other, which is how the steps of the experiment use them. `ExperimentProgram` is the same experiment as loops over
the shared objects, proved to do exactly what one undisturbed process of the step model does.

**The quiescing counter** (`Guest`, `GuestProgram`). A writer thread and a serial server share a counter, a
pause flag and a lock; the file is replaced through a temporary file. Steps interleave in any order, any piece
of the text may reach the file at a time, and the machine may be killed before any step. The class of
`GuestProgram` runs the same blocks, and its fields are proved to be those of a run of the step model.

**The dashboard contract.** The response-stream faults and the replay gate (`Disconnect`), the selector codec
(`Json`, `JsonRoundTrip`, `Base64Url`, `Selector`), the event stream (`EventStream`), the pager (`Pager`), the
request log (`RequestLog`), the polling batches (`ReadBatches`), the fault ledger and the failure classifier
(`FaultLedger`, `FaultMatches`, `FaultBuckets`, `BrowserFailures`). Readers that the repository does not contain are written from their
standards: RFC 8259, RFC 4648, and sections 9.2.5 and 9.2.6 of the HTML Standard.

**Two binary writers** (`Pdf`, `Png`, `Decimal`). Any object list, and any width, height and colour function; the
readers follow sections 7.5.4 and 7.5.5 of ISO 32000-1 and sections 2.3 and 3.2 of RFC 2083.

## Where the code does not keep what it promises

Each of these is proved as an exact condition, and shown on an input for which it fails.

- A run completes if and only if there is a candidate, the ids are valid and distinct, every agent run succeeds,
  and neither the phase row nor an effect of a candidate is recorded (`ExperimentCompletion.RunCompletesIff`). So
  a database on which a run was killed after its first candidate effect can never complete that plan again, and
  every run that would complete has such a point (`ExperimentBlocking.BlockedForever`,
  `ExperimentBlocking.KillBlocks`, `ExperimentBlocking.OneCandidateIsBlocked`). The program's message says that the
  database must start empty; the code also accepts leftovers of materialization, trials and results.
- A string with a high surrogate directly before a low one comes back from the selector as one code point
  (`Selector.SelectorRoundTrip`, `JsonRoundTrip.SplitPairIsJoined`).
- A page limit below one, which comes from the request, never delivers the matching records: a limit of zero
  delivers nothing, and a negative one always announces more (`Pager.WalkVisitsAllIff`,
  `Pager.LimitZeroShowsNothing`, `Pager.LimitBelowZeroShowsNothing`).
- Registering a request again forgets its first fault, so the final check passes although that fault was never
  seen (`FaultMatches.FinalCheckIff`, `FaultMatches.ReplacedFaultIsForgotten`).
- When no read was seen before the clock moves, the look-back slice holds only the last read: a log in cadence is
  accepted if and only if there was such a read or no gap is due (`ReadBatches.WindowIff`,
  `ReadBatches.CadenceIff`, `ReadBatches.NoFocusIff`, `ReadBatches.CadenceRefused`).

## Limits of the writers and of the log

The code has fixed objects, pictures and event ids, which keep to these limits; they are limits of the writers when
those become parameters.

- An event id with a carriage return, a line feed or a NUL is not read back from the event stream
  (`EventStream.StreamRoundTrip`, `EventStream.UncleanIdIsLost`).
- A PDF whose last object starts at or after byte 10^10 gets an entry of more than 20 bytes and cannot be read
  (`Pdf.ReadPdfRecovers`, `Pdf.HugeObjectIsLost`).
- A PNG with a side of zero, or with a side or a chunk of 2^31 or more, is written but is not valid
  (`Png.PngReadsBack`, `Png.EmptyPictureIsRefused`).
- The request log needs every request of the interface to come from the page's own `fetch`: any other one can
  stand in for a counted read (`RequestLog.SettledMeansDrained`, `RequestLog.StrayHidesRead`).

## Model

| member | source | states |
|---|---|---|
| Journals.DemoJournal.RecordOnce | examples/agent_snapshot_stateful_evaluation.py:125-133 | it inserts exactly when the key was free, and an existing row stays |
| Journals.DemoJournal.Require | examples/agent_snapshot_stateful_evaluation.py:135-147 | a missing row and a payload that is no object are told apart |
| Journals.DemoJournal.MaterializeOperationOnce | examples/agent_snapshot_stateful_evaluation.py:158-199 | the transaction as a whole: both rows, the stored component, or on a clash no change at all |
| Transactions.StepIsAtomic | examples/agent_snapshot_stateful_evaluation.py:168-199 | under concurrent callers the committed table changes only by a whole operation at its commit; a raise, a timeout or a crash changes nothing |
| Linearization.Linearizable | examples/agent_snapshot_stateful_evaluation.py:158-199 | for every order of steps, timeouts and crashes: whole operations done one after the other give every call the answer it got and end in the committed table, each answered call exactly once |
| Linearization.EarlierFirst | examples/agent_snapshot_stateful_evaluation.py:168-199 | a call that answered before another one arrived is done before it |
| Transactions.FirstWriterWins | examples/agent_snapshot_stateful_evaluation.py:168-176 | all callers of one operation that returned got the same component, the stored one |
| Transactions.ReachableBijection | examples/agent_snapshot_stateful_evaluation.py:177-199 | in every reachable table overlay rows and operation rows with an overlay correspond one to one |
| Transactions.MaterializeKeepsBijection | examples/agent_snapshot_stateful_evaluation.py:158-199 | one operation keeps that correspondence, whatever it is called with |
| Transactions.RunExtends | examples/agent_snapshot_stateful_evaluation.py:129-133 | no committed row ever changes or disappears |
| ExperimentSafety.RunKeepsInv | examples/agent_snapshot_stateful_evaluation.py:704-781 | over any launches, steps and kills: what every process relies on at its place, what the database holds, and which runs were started |
| ExperimentSafety.RunsStartAtMostOnce | examples/agent_snapshot_stateful_evaluation.py:557-607 | over any number of processes, kills and restarts the agent is started at most once per candidate |
| ExperimentRecovery.RecoverySucceeds | examples/agent_snapshot_stateful_evaluation.py:655-701 | in every reachable state with a phase row recovery succeeds, with one materialization and one result per candidate, the plan's own |
| ExperimentRecovery.RecoveryIsStable | examples/agent_snapshot_stateful_evaluation.py:655-701 | the report never changes afterwards, whatever other processes do |
| ExperimentRecovery.WinnerBeatsAll | examples/agent_snapshot_stateful_evaluation.py:758 | the winner is the one row that beats every other by score and then id |
| ExperimentRecovery.OneCandidateIsRetained | examples/agent_snapshot_stateful_evaluation.py:758-775 | in every reachable state with a phase row exactly one candidate, the best, is retained for review and the others are quarantined, in both their overlays |
| ExperimentIsolation.StepLeavesOthers | examples/agent_snapshot_stateful_evaluation.py:536-652 | a step for one candidate changes nothing that another one sees |
| ExperimentIsolation.CandidatesAreIsolated | examples/agent_snapshot_stateful_evaluation.py:729-749 | in any interleaving each candidate ends with the rows and at the place that its own steps alone lead to |
| ExperimentCompletion.DriveCompletes | examples/agent_snapshot_stateful_evaluation.py:557-616 | a process left alone, from any place, completes exactly when every id is valid and nothing it still has to write is there |
| ExperimentCompletion.RunCompletesIff | examples/agent_snapshot_stateful_evaluation.py:704-781 | the exact condition for a run to complete on a database that others have used |
| ExperimentCompletion.ValidIdIff | src/cayu/snapshots/base.py:263-275 | which ids the request and the overlay reference take, in a caller's words |
| ExperimentBlocking.BlockedForever | examples/agent_snapshot_stateful_evaluation.py:557-568 | once the phase row or any effect of a candidate is recorded, no run of the plan completes any more, whatever happens in between |
| ExperimentBlocking.KillBlocks | examples/agent_snapshot_stateful_evaluation.py:557-568 | every run that would complete can be killed at a point after which the plan never completes on this database |
| ExperimentBlocking.OneCandidateIsBlocked | examples/agent_snapshot_stateful_evaluation.py:557-568 | such a kill on an empty database, for a plan of one candidate |
| ExperimentCompletion.DriveIsRun | examples/agent_snapshot_stateful_evaluation.py:704-781 | a run left alone is one of the ways the whole system can go on |
| ExperimentCompletion.CompletedRunRecovers | examples/agent_snapshot_stateful_evaluation.py:776-781 | a run that can complete leaves a phase row from which recovery succeeds |
| ExperimentProgram.MaterializeCandidate | src/cayu/snapshots/base.py:6341-6547 | every component once, the record, and the check that it can be recovered, as the step model does them |
| ExperimentProgram.CanRecover | src/cayu/snapshots/base.py:6549-6657 | recoverable exactly when the record, its snapshot and every overlay row are there |
| ExperimentProgram.PrepareCandidate | examples/agent_snapshot_stateful_evaluation.py:547-568 | the trial and the two mutations that may happen only once |
| ExperimentProgram.EvaluateCandidate | examples/agent_snapshot_stateful_evaluation.py:587-652 | runtime row, score and result, or the failure at the first that is refused |
| ExperimentProgram.RunCandidates | examples/agent_snapshot_stateful_evaluation.py:729-749 | the loop over the candidates ends where one process alone gets to |
| ExperimentProgram.SizesMeanIsolated | examples/agent_snapshot_stateful_evaluation.py:754-757 | comparing set sizes with the number of candidates tests that no overlay is shared |
| ExperimentProgram.ChooseWinner | examples/agent_snapshot_stateful_evaluation.py:758 | `max` by score and id |
| ExperimentProgram.DisposeOverlays | examples/agent_snapshot_stateful_evaluation.py:759-775 | every row's two overlays get its disposition, or the first refused one ends the run |
| ExperimentProgram.RecoverReferenceExperiment | examples/agent_snapshot_stateful_evaluation.py:655-701 | the loop reports the first problem found, or everything |
| ExperimentProgram.CheckRow | examples/agent_snapshot_stateful_evaluation.py:670-693 | materialization, result and the six counts of one row, and the first that is wrong |
| ExperimentProgram.RunReferenceExperiment | examples/agent_snapshot_stateful_evaluation.py:704-808 | it ends in the database and at the place where one undisturbed process ends, with winner, dispositions and recovery report; a recovery that failed would be an error, and never fails on a database that earlier processes used |
| Guest.DocumentReadsBack | examples/_execution_snapshot_guest.py:30-31 | the written text reads back as the counter |
| Guest.TornIsUnreadable | examples/_execution_snapshot_guest.py:29-34 | a text that was cut off anywhere is not read as a document |
| Guest.RunKeepsInv | examples/_execution_snapshot_guest.py:28-62 | in every order of steps: lock, files, pause and responses agree |
| Guest.FileIsDurable | examples/_execution_snapshot_guest.py:28-55 | from the first persist on, at any kill: the file is a whole document of the counter, or while the writer holds the lock possibly of the value before, and never below a value that was sent |
| Guest.PublishedWithoutGap | examples/_execution_snapshot_guest.py:34-43 | the values renamed into place are 0, 1, 2, ... without a gap |
| Guest.ResponsesAreTrue | examples/_execution_snapshot_guest.py:48-62 | every response tells the pause as decided, counters never go back, and stand still while responses report the pause |
| Guest.QuiesceFreezes | examples/_execution_snapshot_guest.py:57-62 | after the lock block of `/quiesce` neither counter nor files change until another POST is accepted, and every response meanwhile reports the pause and the file's counter |
| GuestProgram.GuestServer.Persist | examples/_execution_snapshot_guest.py:28-34 | the file becomes the counter's document, in steps of the writer only |
| GuestProgram.GuestServer.WritePass | examples/_execution_snapshot_guest.py:38-45 | one more and in the file, or during a pause nothing |
| GuestProgram.GuestServer.DoGet | examples/_execution_snapshot_guest.py:48-55 | the response holds the counter and the flag of its lock block |
| GuestProgram.GuestServer.DoPost | examples/_execution_snapshot_guest.py:57-62 | the flag is set by the path, and the response reports it |
| Disconnect.FaultKeepsStart | examples/dashboard_behavior_live.py:466-507 | of a well-formed response an injected fault keeps the start and sends one last body: the comment, or the first chunk with content |
| Disconnect.FirstFaultShowsNothing | examples/dashboard_behavior_live.py:480-495 | the observer of the first fault reads no event |
| Disconnect.OneBodyAtMost | examples/dashboard_behavior_live.py:466-507 | for any messages at all: at most one body goes out, it is the end, and nothing follows |
| Disconnect.CutShort | examples/dashboard_behavior_live.py:466-507 | a response that stops early is a prefix of what the whole one becomes |
| Disconnect.OnlyTheFirstTwo | examples/dashboard_behavior_live.py:453-467 | how every request of any list is routed: only the first two runs without a marker are altered, by fault 0 and fault 1 |
| Disconnect.AlteredAreFew | examples/dashboard_behavior_live.py:460-466 | over all requests at most two are altered |
| Disconnect.TwoRunsAreCounted | examples/dashboard_behavior_live.py:460-467 | the counter and the identities are those of the first two runs |
| Disconnect.TallyIsExact | examples/dashboard_behavior_live.py:445-452 | the tally holds each path's number of first mutations |
| Disconnect.RecoveryWaitsForReplay | examples/dashboard_behavior_live.py:316-318 | in every order, markers taken and then the queue are the markers logged, and each completed recovery has a logged marker of its own |
| Disconnect.MarkersAgreeIffTaken | examples/dashboard_behavior_live.py:737-741 | the final comparison passes exactly when the queue is empty |
| Disconnect.DashboardContractProvider.TakeNext | examples/dashboard_behavior_live.py:316-318 | the first marker is taken and noted in one step, or nothing happens |
| Disconnect.FaultSender.Send | examples/dashboard_behavior_live.py:468-505 | one message, with the response over or not |
| Disconnect.MutationDisconnectFaults.Call | examples/dashboard_behavior_live.py:421-507 | what is remembered, and what is sent instead of the application's messages |
| JsonRoundTrip.DecodeEncode | examples/dashboard_behavior_live.py:1622-1634 | decoding what was encoded, for every value |
| JsonRoundTrip.RoundTrip | examples/dashboard_behavior_live.py:1622-1634 | a value survives if and only if no text in it holds a split surrogate pair |
| JsonRoundTrip.SplitPairIsJoined | examples/dashboard_behavior_live.py:1624 | two code points that come back as one |
| Base64Url.StripEncoded | examples/dashboard_behavior_live.py:1624-1626 | `rstrip` removes the padding and nothing else |
| Base64Url.RepadEncoded | examples/dashboard_behavior_live.py:1632 | the length alone gives back the padding that was removed |
| Base64Url.StrippedRoundTrip | examples/dashboard_behavior_live.py:1622-1632 | every byte list comes back, and the text has no `/` and no padding |
| Selector.SelectorReads | examples/dashboard_behavior_live.py:1622-1634 | a selector is one plain path segment and reads back, for every kind and value |
| Selector.SelectorRoundTrip | examples/dashboard_behavior_live.py:1622-1634 | it gives back exactly the kind and value if and only if no text in them holds a split surrogate pair |
| Selector.SelectedRunReads | examples/dashboard_behavior_live.py:1630-1634 | below any path a selected run gives its identity back, and another kind is refused |
| EventStream.WriteFrames | examples/dashboard_behavior_live.py:5744-5755 | the loop writes one frame per event, in order |
| EventStream.InterpretFrame | examples/dashboard_behavior_live.py:5747-5750 | one clean frame dispatches exactly its event and leaves only its id |
| EventStream.StreamRoundTrip | examples/dashboard_behavior_live.py:5744-5755 | the body is read as exactly the events if and only if every id is clean |
| EventStream.UncleanIdIsLost | examples/dashboard_behavior_live.py:5747-5750 | an id with a line feed gives the reader another list of events |
| EventStream.DispatchedIdsAreClean | examples/dashboard_behavior_live.py:5747-5750 | no stream whatever gives an event an unclean id |
| EventStream.CommentDispatchesNothing | examples/dashboard_behavior_live.py:485-494 | a comment dispatches nothing wherever frames may start |
| EventStream.ObserverCloseIsEmpty | examples/dashboard_behavior_live.py:489-493 | the injected chunk alone is read as no event |
| Pager.ServePage | examples/dashboard_behavior_live.py:5789-5802 | filters, reversal and slice give the page |
| Pager.WalkVisitsAllIff | examples/dashboard_behavior_live.py:5789-5802 | following the pages visits every matching record once, in order, and ends, if and only if the limit allows it |
| Pager.LimitZeroShowsNothing | examples/dashboard_behavior_live.py:5789-5802 | with a record to show, a limit of zero shows none and says that there is more |
| Pager.LimitBelowZeroShowsNothing | examples/dashboard_behavior_live.py:5789-5802 | and so does a limit below zero |
| Pager.WalkIsExact | examples/dashboard_behavior_live.py:5789-5802 | the records visited are exactly the matching ones, all different |
| Pager.DescendingIsReversed | examples/dashboard_behavior_live.py:5789-5802 | the descending walk is the ascending one backwards |
| RequestLog.SettledMeansDrained | examples/dashboard_behavior_live.py:5908-5928 | in every order of fetches, starts, ends and calls in which only counted reads are reported: when `settle` returns, every counted read has started, and has ended unless it is the long poll |
| RequestLog.StrayHidesRead | examples/dashboard_behavior_live.py:5916-5923 | a run in which another request stands in for a counted read that has not started |
| RequestLog.ReturnsIffDrained | examples/dashboard_behavior_live.py:5908-5928 | left alone it returns if and only if every counted read is drained |
| RequestLog.ApiRequestLog.RecordStart | examples/dashboard_behavior_live.py:5885-5890 | any reported start: outside the interface nothing, otherwise it is listed and open |
| RequestLog.ApiRequestLog.RecordSettled | examples/dashboard_behavior_live.py:5892-5895 | any reported end: outside the interface nothing, otherwise it is counted and not open |
| RequestLog.ApiRequestLog.Drain | examples/dashboard_behavior_live.py:5916-5926 | the inner loop ends with nothing but long polls open, or at the deadline with a read not drained |
| RequestLog.ApiRequestLog.Settle | examples/dashboard_behavior_live.py:5908-5928 | for any events during its waits: the counted reads are drained, or one is not at the deadline |
| ReadBatches.BatchReads | examples/dashboard_behavior_live.py:6207-6212 | the reads in order, in batches within a second whose heads are more than a second apart |
| ReadBatches.BatchingIsUnique | examples/dashboard_behavior_live.py:6207-6212 | the reads determine the batches |
| ReadBatches.BatchesAreFewest | examples/dashboard_behavior_live.py:6207-6212 | no cover of the reads by groups within a second has fewer groups |
| ReadBatches.BatchesCover | examples/dashboard_behavior_live.py:6207-6212 | for reads in order of time the batches are such a cover |
| ReadBatches.RequireReadGaps | examples/dashboard_behavior_live.py:5974-5983 | accepted exactly when the number and every gap fit; otherwise the first misfit is named |
| ReadBatches.CheckIdleReads | examples/dashboard_behavior_live.py:6206-6226 | accepted exactly when no batch is too long and the heads follow the cadence |
| ReadBatches.AcceptedLogIsBounded | examples/dashboard_behavior_live.py:6206-6226 | an accepted log has at most the maximum times one more than the gaps, and every batch within a second per gap of its due time |
| ReadBatches.WindowIff | examples/dashboard_behavior_live.py:6208 | the slice is the focused read and all that follow if and only if there was one before, or at most one read at all |
| ReadBatches.CadenceIff | examples/dashboard_behavior_live.py:6206-6226 | a log in cadence is accepted if and only if a read was seen before the clock moved, or no gap is due |
| ReadBatches.NoFocusIff | examples/dashboard_behavior_live.py:6206-6226 | exactly which logs are accepted when none was seen before |
| ReadBatches.CadenceRefused | examples/dashboard_behavior_live.py:6208 | three reads in cadence that are refused |
| FaultLedger.EverythingIsPlaced | examples/dashboard_behavior_live.py:6311-6442 | of every kind of event, those injected, ignored and in buckets add up to all |
| FaultBuckets.FailuresAddUp | examples/dashboard_behavior_live.py:6311-6386 | for every run, each failed request was injected or is in one of its four buckets |
| FaultBuckets.CleanRunIsExplained | examples/dashboard_behavior_live.py:6450-6452 | with the failure buckets empty the page had no error, every failed request was injected or expected, and every error message was silenced or expected |
| FaultMatches.FaultsAreUsedOnce | examples/dashboard_behavior_live.py:6236-6273 | suppressed events map one to one into the injected faults, by request and outcome |
| FaultMatches.FinalCheckIff | examples/dashboard_behavior_live.py:6276-6294 | the check passes if and only if the last fault of every request was observed |
| FaultMatches.FinalCheckOfDistinct | examples/dashboard_behavior_live.py:6276-6294 | with distinct requests: if and only if every injected fault was observed |
| FaultMatches.ReplacedFaultIsForgotten | examples/dashboard_behavior_live.py:6236-6242 | a run in which a fault that was registered over is never missed |
| FaultBuckets.SpecialCasesOnlySort | examples/dashboard_behavior_live.py:6326-6386 | for a request without a mutation id, the exact condition to be excused |
| FaultBuckets.IgnoredIsHarmless | examples/dashboard_behavior_live.py:6388-6414 | no failed request, error message or error response of the interface is ignored |
| BrowserFailures.FailureRecorder.ExpectFault | examples/dashboard_behavior_live.py:6236-6242 | the ledger holds the new fault, in the request's old place if it had one |
| BrowserFailures.FailureRecorder.ConsumeFault | examples/dashboard_behavior_live.py:6245-6254 | taken exactly when the request's fault is unseen and its outcome fits |
| BrowserFailures.FailureRecorder.ConsumeConsole | examples/dashboard_behavior_live.py:6257-6273 | the first fault with this address and text silences the message, once |
| BrowserFailures.FailureRecorder.RecordRequestFailure | examples/dashboard_behavior_live.py:6311-6386 | a failed request is consumed or goes to exactly one bucket |
| BrowserFailures.FailureRecorder.RecordResponse | examples/dashboard_behavior_live.py:6388-6414 | a response is consumed, put into exactly one bucket, or no error |
| BrowserFailures.FailureRecorder.RecordConsole | examples/dashboard_behavior_live.py:6416-6442 | an error message silenced or put into exactly one bucket |
| BrowserFailures.FailureRecorder.RecordPageError | examples/dashboard_behavior_live.py:6445 | a page error is filed as one |
| BrowserFailures.FailureRecorder.RequireExpectedFaults | examples/dashboard_behavior_live.py:6276-6294 | passes exactly when all are observed, and empties the ledger |
| Pdf.WritePdf | examples/dashboard_pending_actions.py:127-141 | the growing buffer becomes header, objects, table and trailer |
| Pdf.ReadPdfRecovers | examples/dashboard_pending_actions.py:127-141 | following `startxref`, the table and the offsets recovers exactly the objects if and only if the last one starts below 10^10 |
| Pdf.HugeObjectIsLost | examples/dashboard_pending_actions.py:135-136 | after an object of 10^10 bytes the next one cannot be found |
| Png.RawRows | examples/dashboard_pending_actions.py:88-92 | the nested loops give the rows |
| Png.RawLayout | examples/dashboard_pending_actions.py:88-92 | length, filter bytes and the place of every pixel |
| Png.WriteChunk | examples/dashboard_pending_actions.py:94-100 | length, kind, data and checksum, or an error for data of 2^32 bytes and more |
| Png.ChunksReadBack | examples/dashboard_pending_actions.py:94-100 | a reader that goes by the lengths and checks the checksums recovers any chunk list if and only if no chunk exceeds 2^31 - 1 |
| Png.PngBytes | examples/dashboard_pending_actions.py:68-108 | the whole file, or an error for a number without a four-byte form |
| Png.PngReadsBack | examples/dashboard_pending_actions.py:88-108 | a reader gets exactly the picture back if and only if the sizes are ones the format allows |
| Png.EmptyPictureIsRefused | examples/dashboard_pending_actions.py:102-108 | a picture without columns is written and refused |
| Decimal.ValueOfNumeral | examples/dashboard_pending_actions.py:133-140 | a printed number reads back |
| Decimal.PaddedFits | examples/dashboard_pending_actions.py:136 | ten digits are enough exactly below 10^10 |

## Left out

- Fingerprints: they are values that hold what they were computed from, so equal fingerprints mean equal content; SHA-256 itself is not modelled.
- SQLite: a table is a map, a transaction holds the one write lock from its begin to its commit, and a statement is one step.
- ExperimentProgram.MaterializeCandidate: the coordinator's progress records, their compare-and-set claims and retries, and its protections are not modelled; a materialization is one journal transaction per component, one write-once record and the check that follows it.
- ExperimentProgram.CanRecover: access, authority scopes, the verification of the snapshot by its providers and the identity checks of stored records are not modelled; every record is what it was stored as.
- ExperimentProgram.RunReferenceExperiment: what an agent run returns is a parameter, and a run that cannot be set up is one that failed; the child interpreter that recovers is a call of the recovery.
- Candidate texts and answers with a lone surrogate, which `_fingerprint` cannot encode.
- Real time, timeouts of waits, logging, printing, environment variables and HTTP serving.
- Guest.FileIsDurable: a kill stops the process, and what was written stays; power loss, directory sync and a restart of the guest, which sets the counter back, are not modelled, as the code promises nothing there.
- The guest's token, payload and action file.
- JsonRoundTrip.RoundTrip: floats, NaN and the limit of 4300 digits for integers are not modelled; objects have text keys that are all different.
- Selector.SelectorReads: a reader given Base64 of bytes above 127 reports an error where Python would try UTF-8; what the writer encodes is ASCII.
- Url splitting, query parsing and header decoding: requests carry their path, query values and headers as fields.
- RequestLog.SettledMeansDrained: no navigation, which would reset the page's count.
- Disconnect.RecoveryWaitsForReplay: taking a marker and noting it is one step.
- Disconnect.FaultSender.Send: the fields a body message may leave out have their default values.
- Png.PngReadsBack: compression and checksum are parameters, and the reader inverts the compression of the rows at hand; the demo's own colours are one colour function.
- Png.ChunksReadBack: that kinds are letters is not checked by the reader.
- FaultLedger.EverythingIsPlaced: the text of a filed detail is not modelled, the event stands for it.
- Browser automation, page layout and the eval journeys: their client and server code is not part of this model.
- Tier thresholds, calibration texts and small helpers, which would only add easy members.
