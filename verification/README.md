# Verified model of the update engine

The update engine installs operating system updates on devices with two slots. This project models five
parts of it in Dafny and proves what they guarantee over whole runs.

- **COW conversion.** `Extents`, `CowConvert`, `MergeSequence`, `MergeOrder` and `DeltaInstall` model how the
  merge sequence of a delta is generated, how SOURCE_COPY operations and a merge sequence become per-block
  copies and replaces, and what running those in place on one device does. The main result is end to end:
  the generated and converted operations, run in place, install the image in which every operation read
  the untouched source.
- **Action processor and update attempter.** `Processor` and `ProcessorRuns` model the queue of actions with
  suspend, resume, stop, failure and actions that complete while being started. `Attempter` and
  `AttempterRuns` put the attempter on top of it: status, cleanup code, persisted counters, service calls,
  posted tasks and restarts of the process.
- **Fetchers and download.** `HttpFetcher` and `HttpFetcherRuns` model the retry machine of the network
  fetcher, `FileFetcher` and `FileFetcherRuns` the file fetcher, `Download` the choice of byte ranges when a
  download starts or resumes, and `MultiRange` and `MultiRangeRuns` the fetcher that goes through those
  ranges on top of the network fetcher, up to what the payload performer gets.
- **Dynamic partitions.** `Partitions`, `PartitionLayout` and `SlotSpace` model the rebuilding of the target
  slot's groups and partitions and the space left for both slots; `DeviceMapping` models which devices are
  mapped, and `PreparePartitions` puts the two together.
- **Cleanup of the previous update.** `Cleanup` and `CleanupRuns` model the polling action that decides when a
  snapshot merge may start.

Objects that change their fields are classes; each method is proved equal to a function on values, and
the theorems about runs are lemmas over those functions. A run is a sequence of events, in any order and
number, that do not abort the program. What other code answers (libcurl, the message loop, the snapshot
manager, the device mapper, boot control) is a parameter of the event.

Conventions that hold throughout:

- A call in tail position that may run for long (performing or resuming an action, the next stage of the
  cleanup, another turn of libcurl) is the next event instead. For the processor, `StartIsSequenced`,
  `CompletionIsSequenced`, `SuspensionIsSequenced` and `ResumptionIsSequenced` prove that this loses nothing.
- A `CHECK` or `DCHECK` of the program is a condition on the event, so a run is one in which none fires. In
  particular a payload that is not refused finds the status idle, and a success is reported only for a
  payload of known size.
- Numbers are unbounded except where a 64-bit word is spelled out.

Findings where the code does not do what one might expect:

- The block iterator visits an empty extent once and counts on inside a sparse hole (`IteratedIsExpanded`).
- A reboot that is restored by a restart can be taken back by a cleanup request (`DueRebootTakenBack`,
  `RestoredRebootCanBeLost`); one that became due in this process cannot (`DueRebootStays`).
- A network transfer that is not paused, and in which a failed lookup is followed by a response or another failed
  lookup, ends (`EveryTransferEnds`); without either condition its attempts have no bound (`PausesUnbounded`,
  `SilenceUnbounded`).
- A resumed request for a range with a length reaches past its end (`RangeWithLength`); the bytes handed over
  are right all the same (`SuccessHandsOverRanges`).
- A range without a length that fails is passed over if it is not the last, and the whole can still succeed
  (`ExactlyWhenOpenIsLast`).
- Unsetting the length of a file transfer makes it ask for nothing (`UnsetAsksForRest`).
- The space check adds group sizes in 64-bit words and can be passed by an overflow (`CheckBoundsSum`,
  `CheckMissesOverflow`); a group of size 0 is not limited at all, and a slot
  is sure to keep to its half exactly when it has no such group (`HalfExactlyWhenLimited`,
  `UnlimitedGroupTakesAll`).

Verify the project with `dafny verify dfyconfig.toml`.

## Model

| member | source | states |
|---|---|---|
| Extents.BlockIterator.constructor | payload_generator/extent_utils.h:100-123 | the cursor starts before all blocks of the extent list |
| Extents.BlockIterator.IsEnd | payload_generator/extent_utils.h:100-123 | at the end exactly when no block is left |
| Extents.BlockIterator.Current | payload_generator/extent_utils.h:100-123 | the first of the blocks still to come |
| Extents.BlockIterator.Advance | payload_generator/extent_utils.h:100-123 | drops exactly the first of the blocks still to come, across extent boundaries |
| Extents.IteratedIsExpanded | payload_generator/extent_utils.h:40-55 | the iterator walks exactly the blocks an extent list stands for if and only if no extent is empty and no sparse hole spans several blocks |
| CowConvert.EmitCopies | common/cow_operation_convert.cc:48-58 | the loop emits the copies of one merge operation, last block first |
| CowConvert.NextTransfer | common/cow_operation_convert.cc:70-77 | both iterators advance in lock step |
| CowConvert.EmitReplaces | common/cow_operation_convert.cc:66-78 | the loop emits a replace for exactly the paired blocks whose destination is not covered by a merge, in order |
| CowConvert.ConvertToCowOperations | common/cow_operation_convert.cc:27-81 | both loops together compute the converted list that the lemmas below are about |
| CowConvert.ReverseEmission | common/cow_operation_convert.cc:48-58 | emitting the blocks of one merge operation in reverse is free of read-after-write conflicts if and only if not dst < src < dst + n |
| CowConvert.SafeOrderIsConflictFree | common/cow_operation_convert.cc:43-59 | the copies of a whole merge sequence are conflict free if and only if no operation reaches into its own source and none reads what an earlier one moved |
| CowConvert.CopiesComeFirst | common/cow_operation_convert.cc:36-79 | every copy comes before every replace |
| CowConvert.ConvertedTransfers | common/cow_operation_convert.cc:43-79 | the converted list performs exactly the block transfers that the SOURCE_COPY operations ask for |
| CowConvert.InPlaceEquivalence | common/cow_operation_convert.cc:27-81 | with a safe merge order, running the converted list in place yields, for any block content, the image in which every SOURCE_COPY read the untouched source |
| CowConvert.InPlaceExactlyWhenSafe | common/cow_operation_convert.cc:27-81 | when every block is merged at most once, that equivalence holds for all images if and only if the merge order is safe |
| CowConvert.EveryBlockWrittenOnce | common/cow_operation_convert.cc:43-79 | every transfer is performed exactly once and nothing else is written |
| CowConvert.DestinationsWrittenOnce | common/cow_operation_convert.cc:62-79 | with equal source and destination lengths, each destination block is written exactly once and no other, however the extents are cut |
| MergeSequence.OverlapIsSharing | payload_generator/extent_ranges.cc:46-56 | extents that are neither empty nor holes overlap if and only if they share a block; on others the test differs only for an empty extent or a hole |
| MergeSequence.SplitSelfOverlapping | payload_generator/merge_sequence_generator.cc:59-76 | the pieces together copy the same blocks in the same order, and of real extents none overlaps itself |
| MergeSequence.CreateOne | payload_generator/merge_sequence_generator.cc:78-125 | an operation is accepted if and only if it has one destination extent as long as its sources; its pieces make up the copies of its extents in order |
| MergeSequence.CreatePieces | payload_generator/merge_sequence_generator.cc:78-125 | all SOURCE_COPY operations are accepted or the whole is refused, others are skipped; with real extents the pieces make up all transfers and none overlaps itself |
| MergeSequence.CreatePiece | payload_generator/merge_sequence_generator.cc:96-111 | the pieces of one source extent copy its blocks in order |
| MergeSequence.SortByDestination | payload_generator/merge_sequence_generator.cc:121-124 | sorted by first destination block, a rearrangement of the same operations |
| MergeSequence.SortedWhenApart | payload_generator/merge_sequence_generator.cc:121-124 | when destinations are apart, each then ends before the next begins |
| MergeOrder.FindSuccessors | payload_generator/merge_sequence_generator.cc:127-176 | the operations between the two bounds are exactly those that overwrite what this one reads |
| MergeOrder.FindDependency | payload_generator/merge_sequence_generator.cc:127-176 | an operation has to merge after another if and only if it overwrites what the other reads |
| MergeOrder.CountPredecessors | payload_generator/merge_sequence_generator.cc:192-198 | the initial counts are the numbers of operations each one waits for |
| MergeOrder.ReleaseOne | payload_generator/merge_sequence_generator.cc:227-245 | one blocked operation is counted down and freed when nothing blocks it any more |
| MergeOrder.Release | payload_generator/merge_sequence_generator.cc:221-246 | releasing an operation keeps all counts exact and frees exactly the operations that waited for it alone |
| MergeOrder.ReleaseBatch | payload_generator/merge_sequence_generator.cc:220-246 | the same for a batch of free operations |
| MergeOrder.AllBlockedIsCyclic | payload_generator/merge_sequence_generator.cc:213-218 | when operations remain and none is free, the dependencies are cyclic |
| MergeOrder.SortOperations | payload_generator/merge_sequence_generator.cc:190-257 | the order is topologically safe, order and left-out operations partition all operations, and nothing is left out if and only if the dependencies are acyclic |
| MergeOrder.NothingIsLost | payload_generator/merge_sequence_generator.cc:259-259 | ordered and left-out operations add up to all operations, so the check at this line never fires |
| DeltaInstall.ValidateSequence | payload_generator/merge_sequence_generator.cc:281-299 | accepts a sequence if and only if no operation reads what an earlier one wrote |
| DeltaInstall.SafeOrderIsValid | payload_generator/merge_sequence_generator.cc:178-279 | a topologically safe order always passes the validation |
| DeltaInstall.ValidIsSafe | payload_generator/merge_sequence_generator.cc:281-299 | a sequence that passes the validation is safe for the conversion |
| DeltaInstall.Generate | payload_generator/merge_sequence_generator.cc:178-279 | never fails; its sequence is safe, and holds all operations if and only if they can be ordered at all |
| DeltaInstall.GenerateMergeSequence | payload_generator/merge_sequence_generator.cc:78-279 | accepts exactly the deltas described above and then meets every premise of the conversion |
| DeltaInstall.InstallOperations | common/cow_operation_convert.cc:27-81 | end to end: for every accepted delta and every source image, generating, converting and running in place installs the target image, performing every transfer exactly once |
| Processor.ActionProcessor.EnqueueAction | common/action_processor.cc:37-40 | the action is last in the queue |
| Processor.ActionProcessor.IsRunning | common/action_processor.cc:42-44 | running while there is a current action or a suspension |
| Processor.ActionProcessor.StartProcessing | common/action_processor.cc:46-54 | nothing happens on an empty queue; otherwise the first action is taken and performed |
| Processor.ActionProcessor.StopProcessing | common/action_processor.cc:56-70 | current action and queue are dropped, suspension ends, and the delegate is told |
| Processor.ActionProcessor.SuspendProcessing | common/action_processor.cc:72-85 | suspends once, also when the action completes while being suspended |
| Processor.ActionProcessor.ResumeProcessing | common/action_processor.cc:87-106 | resumes the current action, or goes on with the held code |
| Processor.ActionProcessor.ActionComplete | common/action_processor.cc:108-132 | the next action starts, or the run ends, or the code is held; terminates by the queue length although actions may complete while being started |
| Processor.ActionProcessor.StartNextActionOrFinish | common/action_processor.cc:134-145 | performs the next action or reports the end of the run |
| ProcessorRuns.EveryRunIsLawful | common/action_processor.cc:37-145 | after any series of calls the log is lawful and the state is the one the log tells of |
| ProcessorRuns.RunsAreOrderly | common/action_processor.cc:37-145 | performed, current, queued and dropped actions are exactly the enqueued ones, in order; as many runs have ended as have begun, less the one running |
| ProcessorRuns.PerformedInOrder | common/action_processor.cc:46-54 | the action performed is the first that had not left the queue, inside a run, and never during a suspension |
| ProcessorRuns.PerformedIsNth | common/action_processor.cc:37-54 | the n-th action to leave the queue is the n-th that was enqueued |
| ProcessorRuns.NothingSurvivesFailure | common/action_processor.cc:108-132 | no action still queued when an earlier one failed, or when processing stopped, is ever performed |
| ProcessorRuns.BeginsAndEndsAlternate | common/action_processor.cc:46-145 | every run that begins ends once, done or stopped, before the next begins |
| ProcessorRuns.DoneCarriesLastCode | common/action_processor.cc:87-145 | Done carries the code of the last completed action, also one held over a suspension, and comes only when the queue is empty |
| ProcessorRuns.CompletionShrinks | common/action_processor.cc:108-145 | outside a suspension every completion ends the run or leaves fewer actions |
| ProcessorRuns.EveryRunEnds | common/action_processor.cc:108-145 | whatever codes come, a run is done after at most one completion for each action it holds |
| ProcessorRuns.StartIsSequenced | common/action_processor.cc:134-145 | starting actions that complete at once has the same outcome as starting one and completing one after the other |
| ProcessorRuns.CompletionIsSequenced | common/action_processor.cc:108-145 | the same for a completion |
| ProcessorRuns.SuspensionIsSequenced | common/action_processor.cc:72-85 | completing while being suspended is being suspended and then completing |
| ProcessorRuns.ResumptionIsSequenced | common/action_processor.cc:87-106 | completing while being resumed is being resumed and then completing |
| Attempter.UpdateAttempter.constructor | aosp/update_attempter_android.cc:157-172 | a process that starts restores a due reboot or else schedules a cleanup |
| Attempter.UpdateAttempter.ScheduleCleanupPreviousUpdate | aosp/update_attempter_android.cc:1081-1097 | starts a cleanup unless something runs |
| Attempter.UpdateAttempter.ApplyPayload | aosp/update_attempter_android.cc:174-316 | accepted if and only if no reboot is due, nothing runs and the later checks pass; then the pipeline is queued and its start posted |
| Attempter.UpdateAttempter.BuildUpdateActions | aosp/update_attempter_android.cc:764-803 | the six stages are queued in order |
| Attempter.UpdateAttempter.RunPostedStart | aosp/update_attempter_android.cc:698-704 | the posted task starts the processor |
| Attempter.UpdateAttempter.SuspendUpdate | aosp/update_attempter_android.cc:344-349 | refused unless something runs |
| Attempter.UpdateAttempter.ResumeUpdate | aosp/update_attempter_android.cc:351-356 | refused unless something runs; ends the run when nothing is left to do |
| Attempter.UpdateAttempter.CancelUpdate | aosp/update_attempter_android.cc:358-363 | refused unless something runs |
| Attempter.UpdateAttempter.ResetStatus | aosp/update_attempter_android.cc:365-430 | succeeds when idle, or when a reboot is due and all four steps succeed; a partial reset keeps the reboot due |
| Attempter.UpdateAttempter.ClearMetricsPrefs | aosp/update_attempter_android.cc:984-991 | the current counter is 0 |
| Attempter.UpdateAttempter.CleanupSuccessfulUpdate | aosp/update_attempter_android.cc:1058-1079 | answers with the recorded code or schedules a cleanup |
| Attempter.UpdateAttempter.CompleteCurrentAction | aosp/update_attempter_android.cc:563-645 | a completion updates status and cleanup code, moves the processor on and, at the end of a run, reports it |
| Attempter.UpdateAttempter.ActionCompleted | aosp/update_attempter_android.cc:610-645 | status and cleanup code by the kind of action |
| Attempter.UpdateAttempter.BytesReceived | aosp/update_attempter_android.cc:647-669 | both counters grow by the bytes reported |
| Attempter.UpdateAttempter.ProcessingDone | aosp/update_attempter_android.cc:563-603 | a success outside a cleanup writes the marker before the update is terminated |
| Attempter.UpdateAttempter.ProcessingStopped | aosp/update_attempter_android.cc:605-608 | terminates as cancelled by the user |
| Attempter.UpdateAttempter.TerminateUpdateAndNotify | aosp/update_attempter_android.cc:706-748 | the new status, the report and what is cleared |
| AttempterRuns.EveryRunIsPhased | aosp/update_attempter_android.cc:157-803 | after any run of calls, tasks, completions and restarts the attempter rests, is at one stage of one plan with the status of that stage, or has failed while suspended |
| AttempterRuns.RebootDueAfterFullUpdate | aosp/update_attempter_android.cc:563-645 | an event makes a reboot due if and only if it ends a run whose completed stages, all with success, start with the six stages of an update; every other end of a run leads to Idle |
| AttempterRuns.DueRebootTakenBack | aosp/update_attempter_android.cc:365-422 | exactly these take a due reboot back: a reset all of whose steps succeed, a restart that finds no marker of this boot, a cleanup request while no cleanup code is known |
| AttempterRuns.DueRebootStays | aosp/update_attempter_android.cc:174-187 | after an update finished in this process, no sequence of events short of a restart or a fully successful reset takes the reboot back |
| AttempterRuns.UpdateCanFinish | aosp/update_attempter_android.cc:764-803 | a payload that is accepted, started and successful in six stages makes a reboot due |
| AttempterRuns.RestoredRebootCanBeLost | aosp/update_attempter_android.cc:1058-1069 | a concrete run in which a reboot restored by a restart is taken back by a cleanup request |
| AttempterRuns.CountersCount | aosp/update_attempter_android.cc:647-669 | across restarts, the counters are the bytes reported since the metrics were cleared and since the last success, the first never exceeds the second, and every success reports the floor of its overhead |
| AttempterRuns.OverheadIsFloor | aosp/update_attempter_android.cc:881-889 | the overhead is the floor of 100 * (total - size) / size |
| HttpFetcher.LibcurlHttpFetcher.SetOffset | libcurl_http_fetcher.h:91-91 | where the next attempt starts |
| HttpFetcher.LibcurlHttpFetcher.SetLength | libcurl_http_fetcher.h:93-93 | the length |
| HttpFetcher.LibcurlHttpFetcher.UnsetLength | libcurl_http_fetcher.h:94-94 | no length |
| HttpFetcher.LibcurlHttpFetcher.BeginTransfer | libcurl_http_fetcher.cc:338-344 | a proxy resolution is pending |
| HttpFetcher.LibcurlHttpFetcher.ProxiesResolved | libcurl_http_fetcher.cc:346-362 | counters reset; the first attempt starts, or waits for the end of a pause |
| HttpFetcher.LibcurlHttpFetcher.ChooseRange | libcurl_http_fetcher.cc:212-232 | the range from where the transfer stands to the end of the length, if there is one |
| HttpFetcher.LibcurlHttpFetcher.ResumeTransfer | libcurl_http_fetcher.cc:142-286 | the attempt asks for the bytes from where the transfer stands |
| HttpFetcher.LibcurlHttpFetcher.TerminateTransfer | libcurl_http_fetcher.cc:373-379 | terminates now, or after the write callback |
| HttpFetcher.LibcurlHttpFetcher.ForceTransferTermination | libcurl_http_fetcher.cc:364-371 | nothing is pending and the delegate is told |
| HttpFetcher.LibcurlHttpFetcher.CleanUpTransfer | libcurl_http_fetcher.cc:785-815 | no retry, no connection, no pause |
| HttpFetcher.LibcurlHttpFetcher.CurlPerformOnce | libcurl_http_fetcher.cc:423-591 | what an attempt that goes on, ends, or ends during a pause leads to |
| HttpFetcher.LibcurlHttpFetcher.HearNetwork | libcurl_http_fetcher.cc:480-508 | network counters and the unresolved-host machine |
| HttpFetcher.LibcurlHttpFetcher.UpdateHostState | libcurl_http_fetcher.cc:865-887 | the unresolved-host machine |
| HttpFetcher.LibcurlHttpFetcher.ChargeBudget | libcurl_http_fetcher.cc:517-586 | a retry is charged to tries without a network, to proxies or to interruptions, or the transfer is over |
| HttpFetcher.LibcurlHttpFetcher.RetryOrComplete | libcurl_http_fetcher.cc:517-591 | a retry is posted or the delegate is told |
| HttpFetcher.LibcurlHttpFetcher.LibcurlWrite | libcurl_http_fetcher.cc:593-631 | a chunk with a success code is counted and handed over; any other is not taken |
| HttpFetcher.LibcurlHttpFetcher.PauseTransfer | libcurl_http_fetcher.cc:633-646 | paused |
| HttpFetcher.LibcurlHttpFetcher.UnpauseTransfer | libcurl_http_fetcher.cc:648-671 | goes on, or starts the attempt that was waiting |
| HttpFetcher.LibcurlHttpFetcher.RetryTimeoutCallback | libcurl_http_fetcher.cc:760-768 | starts the next attempt, or waits for the end of a pause |
| HttpFetcherRuns.OneEnding | libcurl_http_fetcher.cc:338-671 | in every run one thing is pending while a transfer is under way and nothing otherwise, each transfer has one ending, and nothing is handed over outside a transfer |
| HttpFetcherRuns.RetryLowersMeasure | libcurl_http_fetcher.cc:423-591 | every retry lowers the measure made of proxies and interruptions left, then tries without a network left |
| HttpFetcherRuns.AttemptsAreBounded | libcurl_http_fetcher.cc:423-591 | a transfer that is never paused makes no more attempts than its budget allows and raises the no-network limit at most once, if an attempt after a failed lookup gets a response or fails the lookup again |
| HttpFetcherRuns.AttemptsLeadOn | libcurl_http_fetcher.cc:423-591 | such a transfer is over, or its next task starts an attempt, or the end of its attempt leads to the end or to another attempt with a smaller measure |
| HttpFetcherRuns.EveryTransferEnds | libcurl_http_fetcher.cc:423-591 | whatever arrives and however attempts end, a transfer that is never paused is over, with the delegate told, after more attempts than its budget allows |
| HttpFetcherRuns.PausesUnbounded | libcurl_http_fetcher.cc:450-455 | with pauses there is no bound: a connection that closes during a pause is not charged |
| HttpFetcherRuns.SilenceUnbounded | libcurl_http_fetcher.cc:499-505 | without the hypothesis on lookups there is no bound: every silent attempt raises the limit |
| HttpFetcherRuns.BytesAreContiguous | libcurl_http_fetcher.cc:212-232 | over any number of retries and pauses, against a server that honours ranges (section 2.1 of RFC 7233), the bytes handed over are the resource from the start offset on, without gap or repeat; with no length set, a success with a known size means all of it |
| HttpFetcherRuns.RangeWithLength | libcurl_http_fetcher.cc:212-232 | with a length set, an attempt asks for exactly what is still wanted if and only if nothing was handed over yet and it is not the single byte at 0 |
| FileFetcher.FileReader.SetLength | common/file_fetcher.h:48-48 | the length |
| FileFetcher.FileReader.UnsetLength | common/file_fetcher.h:49-49 | sets the length to 0 |
| FileFetcher.FileReader.BeginTransfer | common/file_fetcher.cc:58-101 | fails at once or schedules the first read |
| FileFetcher.FileReader.TerminateTransfer | common/file_fetcher.cc:103-109 | nothing is pending and the delegate is told |
| FileFetcher.FileReader.ScheduleRead | common/file_fetcher.cc:111-140 | at most one read, of no more than is left |
| FileFetcher.FileReader.OnReadDoneCallback | common/file_fetcher.cc:142-155 | hands the chunk over and goes on unless refused |
| FileFetcher.FileReader.OnReadErrorCallback | common/file_fetcher.cc:157-162 | the transfer fails |
| FileFetcher.FileReader.Pause | common/file_fetcher.cc:164-170 | paused |
| FileFetcher.FileReader.Unpause | common/file_fetcher.cc:172-179 | schedules the next read |
| FileFetcher.FileReader.CleanUp | common/file_fetcher.cc:181-194 | no read, no transfer, no pause |
| FileFetcherRuns.OneReadAtATime | common/file_fetcher.cc:111-179 | for every pattern of short reads and pauses at most one read is outstanding and at most one chunk is handed over during a pause |
| FileFetcherRuns.FileIsHandedOver | common/file_fetcher.cc:96-155 | what is handed over is the file from the offset on, never past the length; a success has handed over exactly the file from the offset to the smaller of offset plus length and the end |
| FileFetcherRuns.UnsetAsksForRest | common/file_fetcher.h:49-49 | an unset length asks for the rest of the file if and only if there is no rest |
| Download.DownloadAction.LoadCachedManifest | download_action.cc:94-120 | the performer is given cached bytes that are there, have the recorded size and parse |
| Download.DownloadAction.StartDownloading | download_action.cc:122-186 | the ranges asked for and what a fresh performer has been given |
| Download.FreshDownload | download_action.cc:175-183 | a new download of known size hands over exactly the payload and asks for nothing else |
| Download.ResumedDownload | download_action.cc:138-175 | a resumed download hands the performer exactly the metadata and then the payload from the recorded offset on, with or without the cache |
| Download.ResumeStaysInWindow | download_action.cc:150-175 | no requested byte is outside the payload if and only if the metadata comes from the cache or its recorded size, taken without its sign, is within the payload |
| Download.RangeFromFile | common/file_fetcher.cc:96-155 | from a file a successful range is that range |
| MultiRange.MultiRangeHttpFetcher.AddRange | common/multi_range_http_fetcher.h:60-65 | one more range |
| MultiRange.MultiRangeHttpFetcher.BeginTransfer | common/multi_range_http_fetcher.cc:31-48 | no ranges are a success at once; otherwise the first range starts |
| MultiRange.MultiRangeHttpFetcher.StartTransfer | common/multi_range_http_fetcher.cc:68-86 | the base fetcher is aimed at the range and begins |
| MultiRange.MultiRangeHttpFetcher.ReceivedBytes | common/multi_range_http_fetcher.cc:89-120 | a chunk is cut at the end of the range, and the base fetcher told to terminate once the range is complete |
| MultiRange.MultiRangeHttpFetcher.TransferEnded | common/multi_range_http_fetcher.cc:123-168 | too few bytes are a failure; otherwise the next range starts, or the whole is complete |
| MultiRange.MultiRangeHttpFetcher.ResetState | common/multi_range_http_fetcher.cc:181-185 | nothing is under way |
| MultiRange.MultiRangeHttpFetcher.TerminateTransfer | common/multi_range_http_fetcher.cc:51-65 | terminates the base fetcher and, through it, the whole |
| MultiRangeRuns.SuccessHandsOverRanges | common/multi_range_http_fetcher.cc:31-168 | over any number of dropped and resumed connections a success has handed over exactly the ranges, one after the other, although resumed requests reach past the end of their range |
| MultiRangeRuns.ExactlyWhenOpenIsLast | common/multi_range_http_fetcher.cc:123-168 | for ranges the resource can serve, every success hands over exactly the ranges if and only if no range but the last goes to the end without a length |
| MultiRangeRuns.OpenRangeIsPassedOver | common/multi_range_http_fetcher.cc:123-168 | for any other list there is an honest run that succeeds with bytes missing |
| MultiRangeRuns.DownloadOverNetwork | download_action.cc:122-186 | end to end: a new or resumed download of known size that succeeds over the network has given the performer exactly what it wants of the payload |
| Partitions.DeleteGroupsWithSuffix | aosp/dynamic_partition_utils.cc:28-37 | removes group by group over a snapshot of the names |
| Partitions.CheckSuperPartitionAllocatableSpace | aosp/dynamic_partition_control_android.cc:880-922 | the sum, in 64-bit words, is within the limit that applies |
| Partitions.CollectSizes | aosp/dynamic_partition_control_android.cc:994-999 | the size of each partition, the first entry of a name counting |
| Partitions.AddOnePartition | aosp/dynamic_partition_control_android.cc:1012-1043 | adds and sizes one partition, or fails |
| Partitions.AddGroupPartitions | aosp/dynamic_partition_control_android.cc:1011-1044 | adds all partitions of a group, or fails |
| Partitions.AddOneGroup | aosp/dynamic_partition_control_android.cc:1002-1044 | adds a group with its partitions, or fails |
| Partitions.AddManifestGroups | aosp/dynamic_partition_control_android.cc:1001-1045 | adds all groups, or fails |
| Partitions.UpdatePartitionMetadata | aosp/dynamic_partition_control_android.cc:967-1048 | succeeds exactly when the target slot can be rebuilt, and then the builder holds the rebuilt metadata |
| Partitions.DeleteSourcePartitions | aosp/dynamic_partition_control_android.cc:1242-1265 | only in recovery and not for an incremental update; then the source groups are removed |
| PartitionLayout.ClearedIsOutside | aosp/dynamic_partition_utils.cc:28-37 | the removal loops remove exactly the groups of the slot and the COW group, with their partitions |
| PartitionLayout.MetadataIsRebuilt | aosp/dynamic_partition_control_android.cc:967-1048 | on success groups and partitions are those outside the target slot and the COW group, in order, followed by exactly the manifest's with the sizes rounded up |
| PartitionLayout.TargetIsManifest | aosp/dynamic_partition_control_android.cc:967-1048 | what ends with the target suffix is the manifest's and nothing else; what is outside is there after if and only if it was before |
| PartitionLayout.AlignedIsEnough | aosp/dynamic_partition_control_android.cc:1036-1041 | a partition never gets less than it asks for, nor a whole block more |
| PartitionLayout.DeletionIsWithin | aosp/dynamic_partition_control_android.cc:1242-1265 | deleting the groups of a slot keeps every limit |
| PartitionLayout.UpdateIsWithin | aosp/dynamic_partition_control_android.cc:967-1048 | no group exceeds its maximum and the whole does not exceed the device, before and after |
| SlotSpace.CheckBoundsSum | aosp/dynamic_partition_control_android.cc:880-922 | a manifest that passes the half limit keeps its groups within half of the space if and only if their sizes add up within a 64-bit word |
| SlotSpace.CheckMissesOverflow | aosp/dynamic_partition_control_android.cc:884-887 | two groups of half a word each pass the check on any device |
| SlotSpace.UpdateMaxima | aosp/dynamic_partition_control_android.cc:986-1045 | an accepted update gives the target slot the manifest's maxima and leaves the other slot's |
| SlotSpace.BothSlotsFit | aosp/dynamic_partition_control_android.cc:835-922 | after any number of alternating updates, accepted or not, the maxima of both slots fit the space together, and a slot whose groups all have a maximum takes no more than half |
| SlotSpace.HalfExactlyWhenLimited | aosp/dynamic_partition_control_android.cc:880-922 | for groups whose maxima are within half of the space, every layout within the limits keeps the slot within its half if and only if every group of the slot has a maximum |
| SlotSpace.UnlimitedGroupTakesAll | aosp/dynamic_partition_control_android.cc:1001-1045 | an accepted manifest with a group of size 0, whatever the names, whose slot takes all of the space |
| DeviceMapping.PartitionMapper.MapPartitionInternal | aosp/dynamic_partition_control_android.cc:173-210 | mapped with its snapshot or as it is, by the kind of update; the name is recorded if it was mapped |
| DeviceMapping.PartitionMapper.MapPartitionOnDeviceMapper | aosp/dynamic_partition_control_android.cc:212-255 | maps, reuses or first unmaps, by the state of the device; after a success the name is recorded |
| DeviceMapping.PartitionMapper.UnmapPartitionOnDeviceMapper | aosp/dynamic_partition_control_android.cc:257-286 | forgets the name if and only if unmapping succeeds or was not needed |
| DeviceMapping.PartitionMapper.UnmapAllPartitions | aosp/dynamic_partition_control_android.cc:288-301 | each mapped name is tried once, over a copy of the set |
| DeviceMapping.MappedDevicesTrack | aosp/dynamic_partition_control_android.cc:173-301 | in every run the recorded names are exactly those that, by the answers of the device mapper, some call left mapped and no later call unmapped |
| DeviceMapping.UnmapAllLeavesFailures | aosp/dynamic_partition_control_android.cc:288-301 | unmapping all leaves exactly the names whose unmapping failed, in whatever order |
| SlotSpace.HalfLimitApplies | aosp/dynamic_partition_control_android.cc:835-878 | the half limit is enforced exactly on a device launched with dynamic partitions and without Virtual A/B, and warned about exactly on a Virtual A/B retrofit that uses neither snapshots nor recovery |
| PreparePartitions.UnmapNames | aosp/dynamic_partition_control_android.cc:800-808 | unmapping stops at the first failure, forgets only listed names, and on success all of them |
| PreparePartitions.PrepareDynamicPartitionsForUpdate | aosp/dynamic_partition_control_android.cc:792-833 | succeeds if and only if every target partition can be unmapped, metadata loads, the source may be deleted when asked, the update fits and the result is stored; then the stored metadata is the updated one; from metadata within its limits it is the rebuilt metadata, within its limits, with no target partition mapped |
| PreparePartitions.StoredIsRight | aosp/dynamic_partition_control_android.cc:792-833 | metadata within its limits stays so whether or not the source slot is deleted first, is rebuilt, and has no target partition mapped over the old |
| PreparePartitions.NothingMappedOverOld | aosp/dynamic_partition_control_android.cc:792-833 | no target partition of the new metadata is still mapped over the old |
| Cleanup.CleanupPreviousUpdateAction.StopActionInternal | aosp/cleanup_previous_update_action.cc:129-143 | not running, and the scheduled task is cancelled |
| Cleanup.CleanupPreviousUpdateAction.CompleteAction | aosp/cleanup_previous_update_action.cc:91-95 | stopped, the metadata given up, the processor told |
| Cleanup.CleanupPreviousUpdateAction.StartActionInternal | aosp/cleanup_previous_update_action.cc:145-163 | running, with the wait for the boot next |
| Cleanup.CleanupPreviousUpdateAction.SuspendAction | aosp/cleanup_previous_update_action.cc:87-89 | stopped |
| Cleanup.CleanupPreviousUpdateAction.TerminateProcessing | aosp/cleanup_previous_update_action.cc:79-81 | stopped for good |
| Cleanup.CleanupPreviousUpdateAction.ScheduleTask | aosp/cleanup_previous_update_action.cc:117-127 | a task is pending, or the action fails |
| Cleanup.CleanupPreviousUpdateAction.WaitBootCompletedOrSchedule | aosp/cleanup_previous_update_action.cc:175-191 | waits again or goes on to the slot |
| Cleanup.CleanupPreviousUpdateAction.CheckSlotMarkedSuccessfulOrSchedule | aosp/cleanup_previous_update_action.cc:204-264 | waits again, or mounts the metadata and goes on to the merge, or completes |
| Cleanup.CleanupPreviousUpdateAction.MountMetadata | aosp/cleanup_previous_update_action.cc:213-264 | mounts the metadata once; completes if it cannot be mounted |
| Cleanup.CleanupPreviousUpdateAction.WaitForMergeOrSchedule | aosp/cleanup_previous_update_action.cc:276-348 | what each update state leads to |
| Cleanup.CleanupPreviousUpdateAction.ActOnState | aosp/cleanup_previous_update_action.cc:285-347 | what each update state leads to |
| Cleanup.CleanupPreviousUpdateAction.InitiateMergeAndWait | aosp/cleanup_previous_update_action.cc:395-451 | initiates the merge unless a dynamic system update runs |
| CleanupRuns.EveryRunKeeps | aosp/cleanup_previous_update_action.cc:91-451 | in every run state and log agree, and a stage is due only when what it needs has been seen in this episode |
| CleanupRuns.MergeComesLast | aosp/cleanup_previous_update_action.cc:175-274 | outside recovery every merge initiation follows, in the same episode, a completed boot and a slot marked successful, and always with the metadata mounted |
| CleanupRuns.OneTaskPending | aosp/cleanup_previous_update_action.cc:110-143 | between steps an active action has exactly one pending task, the scheduled one; otherwise none is pending |
| CleanupRuns.SuspendedDoesNothing | aosp/cleanup_previous_update_action.cc:129-163 | a suspended action neither initiates a merge nor completes; one that is over does nothing |

## Left out

- libcurl, OpenSSL, liblp, libsnapshot, the device mapper, binder and boot control themselves: foreign code, present as abstract state and answers
- Fragmentation of the super partition: a partition can be sized whenever its group and the device have room for it
- Payload verification, manifest parsing, header parsing, network selection and the delta performer: the checks of ApplyPayload after its guards are one answer
- DownloadAction after the start of a download (received bytes, verification, termination) and several payloads in one plan
- Setting an offset on the multi-range fetcher itself, and the multi-range fetcher over files beyond single ranges
- The fake response code 299 for file URLs in the network fetcher, its headers, proxies' types, timeouts and file descriptor watching
- Preparation of snapshots, and how metadata is read from and written to the device
- A processor without a delegate, and the destructors
- Notifications, progress values and their throttling, callbacks of cleanup requests, merge statistics, reboot and attempt counters, and the markers in preferences other than the completion marker
- Failure to read the boot id: the completion marker is always written after a success
- ExtentRanges is a set of blocks; merging of touching extents inside it is not modelled
- OptimizeOperation, error-code tables, logging, command-line tools and daemons
- Attempter.UpdateAttempter.ApplyPayload: does not model the resume decision of the install plan or the preferences it resets
- HttpFetcher.LibcurlHttpFetcher.ResumeTransfer: does not model the options handed to libcurl other than the byte range
- FileFetcher.FileReader.BeginTransfer: does not tell an unsupported address from a file that cannot be opened
- Attempter.UpdateAttempter.constructor: does not model what the reboot bookkeeping decides, only whether it clears the metrics, nor the sideload build
- Attempter.UpdateAttempter.BuildUpdateActions: does not model the pipes between the actions, which hand on the install plan
- Attempter.UpdateAttempter.ResetStatus: does not model the warm reset property, the digest of the other slot and the space reserved for compressed packages, none of which affects the result
- Attempter.UpdateAttempter.ClearMetricsPrefs: does not model the four preferences other than the byte counter
- Attempter.UpdateAttempter.CleanupSuccessfulUpdate: does not model the callbacks of the requests
- Attempter.UpdateAttempter.ActionCompleted: does not model the preferences on post-install and verity
- Attempter.UpdateAttempter.BytesReceived: does not model progress values
- Attempter.UpdateAttempter.ProcessingDone: does not model the progress resets on particular error codes
- Attempter.UpdateAttempter.TerminateUpdateAndNotify: does not model unmapping, the network binding and the attempt counter
- DeltaInstall.GenerateMergeSequence: requires real extents and disjoint destinations of the SOURCE_COPY operations, which delta generation produces and the in-place guarantee rests on
- DeltaInstall.InstallOperations: requires the same as GenerateMergeSequence
- Download.DownloadAction.StartDownloading: requires that metadata that has to be fetched has a size, since an empty range aborts
