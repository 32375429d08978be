# The download program, modelled in Dafny

A download program fetches one file over several connections and a browser extension finds,
records and downloads media. This project models the parts of it that are hard to get right and
proves what they promise. Run `dafny verify dfyconfig.toml` in this directory.

- **The chunk scheduler** (`Ranges.dfy`, `Chunks.dfy`, `ChunkInvariants.dfy`, `Conservation.dfy`,
  `Effects.dfy`, `Protocol.dfy`, `Safety.dfy`, `Runs.dfy`, `Progress.dfy`, `Resume.dfy`, `Stealing.dfy`,
  `Revocation.dfy`, `Replacing.dfy`, `ChunkManager.dfy`). A file is cut into chunks; workers own
  chunks through shared offset cells; idle workers steal the tail of a chunk or take over a silent
  one; failures keep what was written and are retried under a budget. `Chunks.dfy` says what each
  operation does to the state, `Effects.dfy` what that comes to chunk by chunk, `ChunkManager.dfy` is
  the class that does it in place, with the shared cells as heap objects, and `Protocol.dfy`
  interleaves it freely with workers that read their end, write, and publish their offset in separate
  steps. The disk is the set of bytes written so far.
- **The batch runner** (`Batch.dfy`): waiting and running jobs, a counter of small ones, and an
  answer about ffmpeg that holds some jobs back.
- **Folder listing** (`BoxList.dfy`): breadth first through an untrusted, possibly cyclic graph.
- **The concatenating server** (`Concat.dfy`): ranged reads over several files as one.
- **Capture and recording in the extension** (`Hook.dfy`, `Serialize.dfy`, `Recording.dfy`,
  `Documents.dfy`, `FailedDownloads.dfy`): messages held under a byte budget, tasks serialized by key,
  and the relay of a recording's chunks to the app.
- **HLS in the page** (`Hls.dfy`, `HlsDownload.dfy`): reading playlists, a sliding window of fetches, and
  delivery in slices.
- **The item store** (`ItemStore.dfy`): a bounded list per tab, its linking pass, and the texts kept.
- **Clip times** (`Clock.dfy`): printing a duration and reading it back.

Where a loop or an object of the program changes things step by step, a method or a class does so
here, proved against a function of the state before; lemmas about that function carry the promises.
State machines come with a relation of steps, an invariant that every step keeps, and theorems about
every run. Seven promises do not hold of the code in full; for each there is the exact condition
under which it does, and an input that shows the exception:

- An operation of the manager never takes back reported bytes: `Runs.ManagerStepConserves`, with
  `Stealing.ALateSplitExists`.
- What a worker does after its chunk was taken over changes nothing: `Revocation.RevokedIsHarmless`,
  with `Revocation.ARevokedWorkerCanEndIt`.
- A recording that lost a chunk stops: `Recording.NoHoles`, with `Recording.AHoleCanOpen`.
- A recording's end is told when it has bytes: `Hook.EndIsToldOnlyAfterWaiting`, with
  `Hook.AnEndCanStayUntold`.
- Every rendition of a master is hidden: `ItemStore.HiddenExactlyWhenListed`, with
  `ItemStore.SelfListedShows`.
- A failed browser download is thrown away: `FailedDownloads.FailedIsKeptOnlyByLoss`, with
  `FailedDownloads.AFailedDownloadCanBeKept`.
- A segment follows the init section its playlist gives it: `HlsDownload.FollowsItsOwnInit` and
  `HlsDownload.MayFollowAnother`, with `HlsDownload.AnotherEndIsNoChange`.

## Model

| member | source | states |
|---|---|---|
| Ranges.MergedIsCanonical | crates/hyperfetch-core/src/range.rs:174-193 | merging any valid ranges gives sorted, disjoint, non-adjacent ranges with exactly the same bytes |
| Ranges.CanonicalIsUnique | crates/hyperfetch-core/src/range.rs:174-193 | two canonical lists with the same bytes are the same list, so a merge is determined by its bytes |
| Ranges.MergeRanges | crates/hyperfetch-core/src/range.rs:175-193 | the merging loop computes the canonical form |
| Ranges.GapsAreTheComplement | crates/hyperfetch-core/src/range.rs:195-224 | the gaps are, in canonical form, exactly the bytes of `[0, total)` that are not in the given ranges |
| Ranges.ComputeGaps | crates/hyperfetch-core/src/range.rs:196-224 | the gap loop, with both its early exits, computes the complement |
| Runs.EveryRunIsSafe | crates/hyperfetch-core/src/chunk.rs:353-622 | after any interleaving of hand-outs, steals, take-overs, failures, completions, aborts and writes on a stale end, the chunks tile the file, every byte reported as done is on disk, and all-completed means the whole file is on disk |
| Safety.StepKeeps | crates/hyperfetch-core/src/chunk.rs:353-630 | every step of manager or worker keeps the whole invariant |
| Runs.OneLiveAttemptEach | crates/hyperfetch-core/src/chunk.rs:396-460 | until the download failed, each in-flight chunk has exactly one worker that is neither settled nor revoked |
| Runs.LiveBytesAreApart | crates/hyperfetch-core/src/chunk.rs:436-521 | at any time, also after the download failed, no two such workers have the same byte left to fetch |
| Revocation.RevokedIsHarmless | crates/hyperfetch-core/src/worker.rs:434-473 | in every run, a step of a worker whose attempt was revoked or has settled leaves the chunks, the queue, the failure, what is known of each attempt in flight and the reported ranges and total as they were exactly when it is not the first fatal failure, which sets that and nothing else; only a question about its connection may move the time of the last replacement |
| Revocation.ARevokedWorkerCanEndIt | crates/hyperfetch-core/src/worker.rs:465-466 | every download with something left to fetch has a run in which a worker whose chunk was taken over ends it by a disk error: its chunk is picked once it has been silent for as long as is asked, and is taken while it writes what it has |
| Revocation.RunKeepsOwn | crates/hyperfetch-core/src/chunk.rs:436-460 | in every run, no worker shares its attempt record with a chunk in flight under other offsets |
| Runs.ManagerStepConserves | crates/hyperfetch-core/src/chunk.rs:353-622 | every manager step leaves the reported ranges and total as they were; a steal does so exactly when its split is not below what the victim has written |
| Stealing.ALateSplitTakesBack | crates/hyperfetch-core/src/chunk.rs:473-521 | whenever a steal would pick a chunk whose worker streams, some run makes that split after the worker has received, written and published all its bytes, and the manager then reports fewer |
| Stealing.ALateSplitExists | crates/hyperfetch-core/src/chunk.rs:473-521 | such a run of a file of eight bytes: once the answer came the split at byte 4 is picked, then eight bytes are received, written and published, and the split is made |
| Runs.PublishOnlyAdds | crates/hyperfetch-core/src/chunk.rs:96-99 | publishing an offset only adds bytes to the record, only a worker that is not revoked can, and only those of its own batch |
| ChunkInvariants.GetNextWorkIsSound | crates/hyperfetch-core/src/chunk.rs:352-373 | handing out the next chunk keeps rows, handles, tiling, completed count and queue right |
| ChunkInvariants.AssignAtIsSound | crates/hyperfetch-core/src/chunk.rs:375-394 | so does handing out a chunk at a given byte, cut to a given end |
| ChunkInvariants.SplitForThiefIsSound | crates/hyperfetch-core/src/chunk.rs:510-521 | so does splitting a chunk for a thief at any byte after its first |
| ChunkInvariants.TakeOverIsSound | crates/hyperfetch-core/src/chunk.rs:436-460 | so does a take-over, with and without written bytes, and of a chunk that turns out to be done |
| ChunkInvariants.MarkCompletedIsSound | crates/hyperfetch-core/src/chunk.rs:558-568 | so does completing a chunk |
| ChunkInvariants.MarkFailedIsSound | crates/hyperfetch-core/src/chunk.rs:571-622 | so does a failure, whether it completes, splits off what was written, or only waits |
| ChunkInvariants.AbortIsSound | crates/hyperfetch-core/src/chunk.rs:625-630 | so does an abort |
| Effects.AssignAtGives | crates/hyperfetch-core/src/chunk.rs:375-394 | work at a byte is given exactly when the download has not failed, the asked range is not empty and an unassigned chunk starts there; it is that chunk up to the asked end or its own; if its own was further, one unassigned chunk is added with the rest, else none; all else is as it was |
| Effects.GetNextWorkGives | crates/hyperfetch-core/src/chunk.rs:353-373 | the next work is the first of the retry queue past its delay, which leaves the queue, else the first chunk never handed out, and is given whole under blank notes; there is none exactly when the download failed or neither is there |
| Effects.TakeOverGives | crates/hyperfetch-core/src/chunk.rs:436-460 | a take-over revokes the old worker, makes what it wrote a completed chunk and gives exactly the rest under new offsets, or completes a chunk that is all written |
| Effects.SplitGives | crates/hyperfetch-core/src/chunk.rs:510-521 | a split lowers the victim's end to just before it and gives exactly the rest to the thief as a new chunk |
| Effects.MarkCompletedDoes | crates/hyperfetch-core/src/chunk.rs:558-568 | a chunk is completed and counted once, and nothing else changes |
| Effects.MarkFailedDoes | crates/hyperfetch-core/src/chunk.rs:571-622 | a failure completes a chunk that is all written; else it keeps what was written as a completed chunk, resets or counts the strikes, queues the rest for exactly the larger of the delays that apply, and is fatal exactly when the strikes are more than allowed |
| Conservation.CompletedRangesAreTheRecord | crates/hyperfetch-core/src/chunk.rs:637-639 | the reported ranges are canonical and cover exactly the written prefixes and completed chunks |
| Conservation.TotalCountsReportedBytes | crates/hyperfetch-core/src/chunk.rs:332-334 | the reported total is the number of distinct bytes in the reported ranges |
| Conservation.SplitRecord | crates/hyperfetch-core/src/chunk.rs:510-521 | a split never adds to the record, and keeps it exactly when it is not below the victim's offset |
| Conservation.TakeOverConserves | crates/hyperfetch-core/src/chunk.rs:436-460 | a take-over keeps the record |
| Conservation.MarkFailedConserves | crates/hyperfetch-core/src/chunk.rs:571-622 | a failure keeps the record |
| Conservation.MarkCompletedConserves | crates/hyperfetch-core/src/chunk.rs:558-568 | completing a chunk whose offset is past its end keeps the record |
| Conservation.AssignAtConserves | crates/hyperfetch-core/src/chunk.rs:380-394 | handing out at a byte keeps the record |
| Conservation.GetNextWorkConserves | crates/hyperfetch-core/src/chunk.rs:353-373 | handing out the next chunk keeps the record |
| Conservation.SameRecordSameReport | crates/hyperfetch-core/src/chunk.rs:637-639 | states with the same record report the same ranges and total |
| Resume.ResumeIsExact | crates/hyperfetch-core/src/chunk.rs:269-316 | for unsorted, overlapping and past-the-end input the completed set is exactly its union cut to the file |
| Resume.ResumeRoundTrip | crates/hyperfetch-core/src/chunk.rs:269-316 | rebuilding any sound manager from its reported ranges, with any base size, reports the same ranges and total |
| Resume.StartIsOrdered | crates/hyperfetch-core/src/chunk.rs:269-316 | new chunks are in file order and apart, and each left to fetch has exactly the base size, 64 KiB at least, but for one that ends at a finished range or at the end of the file |
| Resume.StartIsSound | crates/hyperfetch-core/src/chunk.rs:269-316 | a new manager satisfies everything the operations keep |
| Resume.LayoutIsGood | crates/hyperfetch-core/src/chunk.rs:283-303 | finished ranges and pieces of the gaps together cover the file once, and every piece is the base size but the last of its gap |
| Progress.ProductiveLowers | crates/hyperfetch-core/src/chunk.rs:353-622 | every productive step lowers the lexicographic measure: open bytes, room for chunks, retries left, chunks waiting, work left to the workers |
| Progress.RunsEnd | crates/hyperfetch-core/src/chunk.rs:353-622 | no run without a fatal failure goes on productively for ever |
| Progress.NeverStuck | crates/hyperfetch-core/src/chunk.rs:353-622 | while the download is neither complete nor failed, some productive step can be taken once enough time has passed |
| Progress.RetriesCountStrikes | crates/hyperfetch-core/src/chunk.rs:577-621 | a chunk's retry count is the number of counted failures without progress since its last reset |
| Progress.FatalExactlyAfterStrikes | crates/hyperfetch-core/src/chunk.rs:604-621 | a failure is fatal exactly when it makes more than the allowed strikes for its chunk |
| Progress.FatalEndsHandOuts | crates/hyperfetch-core/src/chunk.rs:353-356 | after a fatal failure no hand-out of any kind gives work again |
| Progress.WorkIsNeverLost | crates/hyperfetch-core/src/chunk.rs:353-373 | nothing is handed out exactly when every unfinished chunk is in flight or still in its backoff |
| Progress.BackoffHolds | crates/hyperfetch-core/src/chunk.rs:353-373 | no failed chunk is handed out before its time by any operation, over every run |
| Progress.BackoffBounds | crates/hyperfetch-core/src/chunk.rs:680-691 | a delay is half of half a second doubled with each strike, capped at 30 seconds, and the random part of the other half |
| Progress.FailureDelays | crates/hyperfetch-core/src/chunk.rs:600-611 | what is left of a failed chunk waits for exactly the larger of the given delay and, when the failure counts, its backoff |
| Stealing.StealIsAStep | crates/hyperfetch-core/src/chunk.rs:473-521 | a steal that gives something is a split strictly after all the victim has received, of the chunk expected to finish last in numbers, with at least the minimum for the thief; one that gives nothing changed nothing |
| Stealing.TakeOverIsAStep | crates/hyperfetch-core/src/chunk.rs:413-460 | a take-over takes the chunk silent longest of those in flight, unwritten and silent for as long as their mirrors ask, is made exactly when there is one and the download has not failed, and is a step of the protocol |
| Stealing.TimedSplitIsNearBest | crates/hyperfetch-core/src/chunk.rs:489-509 | the whole-byte split finishes at most one byte of thief time after the best split that leaves the victim a byte |
| Stealing.TimedStealSplitsThere | crates/hyperfetch-core/src/chunk.rs:489-509 | a timed steal is made exactly when the victim is far enough from its end and the rest is at least the minimum, and splits at that byte |
| Stealing.StealIsNearBest | crates/hyperfetch-core/src/chunk.rs:473-521 | the split a steal makes of a state leaves the victim, when both paces are known, within one byte of thief time of the best split there is, and half its rest otherwise |
| Stealing.EvenShareMeets | crates/hyperfetch-core/src/chunk.rs:489-500 | the even share is where victim and thief are expected to finish together |
| Stealing.UnansweredIsNeverTaken | crates/hyperfetch-core/src/chunk.rs:413-430 | an attempt that is not waiting for the server is never taken over |
| Stealing.StealPicksTheLast | crates/hyperfetch-core/src/chunk.rs:473-509 | a steal is made exactly when the download has not failed and it pays to split the last of the chunks with more left than the minimum, and it splits that: no other is expected later, and of those as late none has more left |
| Stealing.EtaIsTheTime | crates/hyperfetch-core/src/chunk.rs:238-241 | the expected time is the wait plus the bytes not received over the pace, and never without a pace |
| Stealing.PaceIsKnown | crates/hyperfetch-core/src/chunk.rs:216-236 | the pace is the bytes written since the answer over the time since; before there is one, the mirror's rate after the rest of its startup; else none |
| Stealing.LongestIsLongest | crates/hyperfetch-core/src/chunk.rs:413-430 | of the silent chunks the longest silent one is picked |
| Replacing.ReplacesExactlyWhenDue | crates/hyperfetch-core/src/chunk.rs:531-555 | a connection is replaced exactly when none was for a window, at least three peers are measured on its mirror, it ran at under 0.3 of their median, and it lacks a window of work at that; only the time of that is noted |
| Replacing.ReplacedWereLaggards | crates/hyperfetch-core/src/chunk.rs:531-555 | in every run, a worker that asks has its connection replaced exactly when that is due in the state of that moment |
| Replacing.ReplacementsAreApart | crates/hyperfetch-core/src/worker.rs:679-690 | in every run, with any other steps between, two replacements are at least a window apart |
| ChunkManagers.ChunkManager.constructor | crates/hyperfetch-core/src/chunk.rs:269-316 | builds the chunks and fresh cells of the starting state |
| ChunkManagers.ChunkManager.TotalDownloaded | crates/hyperfetch-core/src/chunk.rs:332-334 | sums the done bytes, capped at the size |
| ChunkManagers.ChunkManager.CompletedRanges | crates/hyperfetch-core/src/chunk.rs:637-639 | collects the written prefixes and merges them |
| ChunkManagers.ChunkManager.GetNextWork | crates/hyperfetch-core/src/chunk.rs:353-373 | updates queue, next fresh index and chunk as the specification says; the cells workers hold stay in place, and what is added is fresh |
| ChunkManagers.ChunkManager.AssignAt | crates/hyperfetch-core/src/chunk.rs:380-394 | finds the fresh chunk at the byte, cuts it at the end asked for and assigns it, as `Effects.AssignAtGives` says in full; the cells workers hold stay in place |
| ChunkManagers.ChunkManager.TakeOverSilent | crates/hyperfetch-core/src/chunk.rs:413-435 | picks and takes over the longest silent chunk, under cells that did not exist before |
| ChunkManagers.ChunkManager.TakeOver | crates/hyperfetch-core/src/chunk.rs:436-460 | revokes, splits off what was written, installs cells that did not exist before and assigns; the old worker's cells stay where they were |
| ChunkManagers.ChunkManager.StealWork | crates/hyperfetch-core/src/chunk.rs:473-521 | picks the victim that `Stealing.StealPicksTheLast` says and splits it, lowering its shared end; the thief's cells did not exist before |
| ChunkManagers.ChunkManager.SplitForThief | crates/hyperfetch-core/src/chunk.rs:510-521 | lowers the victim's end in its shared cell and pushes the thief's chunk with cells of its own |
| ChunkManagers.ChunkManager.MarkCompleted | crates/hyperfetch-core/src/chunk.rs:558-568 | completes a chunk once, or says that there is none of that id |
| ChunkManagers.ChunkManager.MarkFailed | crates/hyperfetch-core/src/chunk.rs:571-622 | completes, splits or requeues, resets or counts the retry, and sets the backoff or the fatal failure; the cells workers hold stay in place |
| ChunkManagers.ChunkManager.Abort | crates/hyperfetch-core/src/chunk.rs:625-630 | sets the fatal failure |
| ChunkManagers.ChunkManager.Replaces | crates/hyperfetch-core/src/chunk.rs:531-555 | answers as `Replacing.ReplacesExactlyWhenDue` says, and notes a replacement |
| ChunkManagers.ChunkManager.Publish | crates/hyperfetch-core/src/worker.rs:695-721 | a worker's one write to the shared cells moves its own offset and nothing else |
| ChunkManagers.PublishLate | crates/hyperfetch-core/src/chunk.rs:436-460 | a chunk is handed out, some chunk is stolen from, the first is taken over, and its first worker publishes all the same: the manager is as the specification of the three operations says, but for the offset in that worker's own cell |
| ChunkManagers.ChunkManager.Answered | crates/hyperfetch-core/src/chunk.rs:139-145 | notes the answer with the offset of that moment and starts the wait |
| ChunkManagers.ChunkManager.Waits | crates/hyperfetch-core/src/chunk.rs:147-155 | notes since when the worker waits for the server, or that it does not |
| ChunkManagers.ChunkManager.Received | crates/hyperfetch-core/src/chunk.rs:157-160 | notes the next byte the worker has yet to receive |
| ChunkManagers.ChunkManager.WentAt | crates/hyperfetch-core/src/chunk.rs:162-165 | notes the speed of the last window |
| Clock.ParseOfWhole | extension/lib/detect.js:461-468 | printing any natural number of seconds and reading it gives it back |
| Clock.DurationShape | extension/lib/detect.js:461-468 | hours are printed only from one hour on, what follows a colon has two digits and is below 60, and what comes first has no leading zeros |
| Clock.ReadsExactly | extension/lib/media.js:39-44 | text reads as a time exactly when, trimmed, it is up to three parts between colons, whole but the last, and below 60 but the first; and then as their sum in seconds |
| Clock.ParseOfFormat | extension/lib/media.js:39-44 | reading a printed duration gives the nearest whole second |
| Clock.CurrentTimeReadsBack | extension/popup.js:545 | a video's current time, rounded down, reads back as that second |
| Clock.NothingPrinted | extension/lib/detect.js:461-463 | what prints to nothing is exactly what is no number or below minus half a second, and it reads as no time |
| Concat.Boundaries | crates/hyperfetch-core/src/concat_server.rs:27-37 | the boundaries are the running totals of the lengths |
| Concat.ChooseRange | crates/hyperfetch-core/src/concat_server.rs:113-152 | a request is served exactly when its range can be satisfied, within the file |
| Concat.LastNumberCounts | crates/hyperfetch-core/src/concat_server.rs:120-141 | of several range lines the last start counts, and the last end that lies in the file; by default it is the whole file |
| Concat.OneLine | crates/hyperfetch-core/src/concat_server.rs:120-141 | one line a-b within the file asks for exactly that, a- and an end past the file go up to the last byte, and -b is read as 0-b |
| Concat.SearchLandsRight | crates/hyperfetch-core/src/concat_server.rs:167-171 | whichever equal index the binary search returns, streaming starts in the file that holds the byte or just before it |
| Concat.Stream | crates/hyperfetch-core/src/concat_server.rs:161-220 | for any files, empty ones included, and any short reads the body is that slice of the concatenation, as long as announced, if nothing goes wrong on the way; it falls short only where the server is stopped, a file does not open, or reading or sending fails |
| Concat.HandleClient | crates/hyperfetch-core/src/concat_server.rs:111-220 | the answer to one request: 416 exactly when the range cannot be satisfied, else the announced length and, unless a fault cuts it short or only the head is asked for, the whole slice |
| BoxList.ListFrom | crates/hyperfetch-core/src/cloud.rs:523-569 | for every server, whatever it answers when asked again, the listing ends; it succeeds exactly when nothing is a cause to fail, and then has asked for exactly the pages there are to read of the reachable folders; a failure names its cause; no page is asked for twice, and never more than 1000 |
| BoxList.ListShare | crates/hyperfetch-core/src/cloud.rs:512-570 | a listing starts at the folder the link names, else at the share's own; a file share is not listed |
| BoxList.TasksAreTheReachableFiles | crates/hyperfetch-core/src/cloud.rs:546-560 | a task is in the listing exactly when a folder read holds its file and Box lets one download it |
| BoxList.EveryReachableFileIsListed | crates/hyperfetch-core/src/cloud.rs:546-560 | every such file of every reachable folder is listed, under the names that lead to its folder |
| BoxList.ReadFolder | crates/hyperfetch-core/src/cloud.rs:530-568 | asks for the pages in order, each once, until one says it is the last, within the page budget, or names what stopped it |
| BoxList.ReadItems | crates/hyperfetch-core/src/cloud.rs:545-560 | sorts a page's entries, leaving out what may not be downloaded, until a name cannot be used |
| BoxList.NoCause | crates/hyperfetch-core/src/cloud.rs:523-569 | a search that found everything rules out each cause: unreadable pages, bad names, more than 200 folders, more than 1000 pages |
| Batch.StepKeeps | crates/hyperfetch-cli/src/download.rs:431-464 | every event keeps the jobs conserved, each kind in input order, the small counter and the failures counted, the places kept, no free place unnoticed, and ffmpeg only as answered |
| Batch.NeverStuck | crates/hyperfetch-cli/src/download.rs:431-464 | with jobs waiting and none running, the question is unanswered and all wait for it; the loop ends exactly when nothing can happen any more |
| Batch.OverAccountsForAll | crates/hyperfetch-cli/src/download.rs:417-471 | when it is over each job has ended once or was dropped by a shutdown, the result is the number that failed, and without a shutdown all have ended |
| Batch.PlacesAreKept | crates/hyperfetch-core/src/queue.rs:11-20 | the bounds on running jobs: at most the places and sixteen small ones, or one; and at least the places as long as a job waits that could start, with the small ones beside them unless a wake-up is on its way |
| Batch.StartAllFills | crates/hyperfetch-cli/src/download.rs:432-443 | starting never makes more run than the places and the small jobs beside them, and leaves fewer only when no waiting job could start |
| Batch.StartAllKeeps | crates/hyperfetch-cli/src/download.rs:432-443 | starting keeps all of it and leaves no job that could start |
| Batch.Jobs.StartJobs | crates/hyperfetch-cli/src/download.rs:432-443 | the starting loop |
| Batch.Jobs.Saw | crates/hyperfetch-cli/src/download.rs:388-399 | a snapshot changes the counter only when it says something new, and a new small one wakes the batch |
| Batch.Jobs.Finished | crates/hyperfetch-cli/src/download.rs:402-408 | an ended job is no longer counted as small, and a failed one is counted |
| Batch.RunJobs | crates/hyperfetch-cli/src/download.rs:417-471 | the loop ends at the first moment nothing is left and returns the failures |
| Hook.CaptureHasNoHoles | extension/content/hook.js:84-130 | whenever the port arrives, what reaches the bridge of a stream is a prefix of what was appended to it, all of it while it records, and what is held is counted and within the budget |
| Hook.PartsAreTurns | extension/content/hook.js:351-371 | the part of each chunk told is the number of appends to its track, up to its own, that start with an init after media, up to 255 |
| Hook.PartsNeverGoDown | extension/content/hook.js:351-371 | a track's part numbers never go down nor past 255, and no chunk follows its stream's end |
| Hook.EndIsToldOnlyAfterWaiting | extension/content/hook.js:287-292 | the bridge is told of an end exactly when the stream ended and a chunk of it once waited for the port |
| Hook.AnEndCanStayUntold | extension/content/hook.js:287-292 | four events after which a recorded stream has ended, all its chunks were delivered, and its end was not told |
| Hook.StepKeeps | extension/content/hook.js:84-371 | every event keeps all of it |
| Hook.DroppingReportsIsHarmless | extension/content/hook.js:91-94 | giving up playlist reports takes nothing from any recording |
| Hook.HoldsMedia | extension/content/hook.js:330-349 | the scan finds media exactly when a chain of boxes from the start reaches a media box, or a WebM cluster follows the header |
| Hook.ScanMedia | extension/content/hook.js:334-349 | the scanning loops |
| Hook.PartCountsTurns | extension/content/hook.js:361-366 | the part a track is in is the number of inits after media, where media is any append without an init or media boxes after one, up to 255 |
| Hook.PartsOnlyRise | extension/content/hook.js:361-366 | the part a track is in only rises with more appends |
| Hook.HeldIfItFits | extension/content/hook.js:84-101 | without a port a message waits if it fits; else a chunk makes all playlist reports go, and only those, and waits if it fits then; others are dropped |
| Hook.RecordingGoesOn | extension/content/hook.js:351-371 | a recording ends at a chunk exactly when there is no port and it does not fit beside all but the playlist reports |
| Hook.ThePortIsTheFirst | extension/content/hook.js:110-130 | over every run the port is the one offered first |
| Hook.BufferGetsTrack | extension/content/hook.js:300-320 | a new source buffer gets the next of the sixteen tracks of its media source, or none |
| Hook.StopEndsAll | extension/content/hook.js:294-298 | a stop ends every stream, and a second one changes nothing |
| Hook.Script.Send | extension/content/hook.js:84-101 | sends, holds or drops a message, giving up reports first when a chunk needs room |
| Hook.Script.Offer | extension/content/hook.js:110-130 | the first port is kept and what was held goes over it in order |
| Hook.Script.Record | extension/content/hook.js:351-371 | records an append in the part `Hook.PartsAreTurns` says, or ends the stream when there is no room |
| Hook.Script.Stop | extension/content/hook.js:294-298 | ends every stream once |
| Serialize.OneAtATimeInOrder | extension/background.js:120-132 | tasks of one key run one at a time in the order they came, also after failures |
| Serialize.SomeTaskGoesOn | extension/background.js:124-132 | no task waits for good: the first unsettled one of its key runs or may start |
| Serialize.ForgottenIsIdle | extension/background.js:128-130 | a forgotten key's next task may start at once, as all before it have settled |
| Serialize.StepKeeps | extension/background.js:124-132 | submitting, starting, settling and forgetting keep the chain of each key right |
| Serialize.Queues.Submit | extension/background.js:124-127 | chains a task onto its key's last one |
| Serialize.Queues.Forget | extension/background.js:128-130 | a settled task takes its key away only while it is still the last |
| Recording.StepKeeps | extension/background.js:896-1006 | every stage of every task keeps the queue, the list of recordings and what was sent right |
| Recording.NothingFollowsTheEnd | extension/background.js:896-1006 | each of the app's recordings is begun before all else, gets at most one finish or abort, and nothing after it, nor a chunk after one not taken |
| Recording.SentIsWhatCame | extension/background.js:955-1005 | the chunks sent for a recording are those that came under its key from its start to the last one sent, in order, once each, less those whose task failed before sending |
| Recording.NoHoles | extension/background.js:955-1005 | that run has no hole exactly when no task in it failed before handing over its chunk |
| Recording.AHoleCanOpen | extension/background.js:975-991 | an execution in which the first chunk's task fails after starting the recording and the second chunk is sent |
| Recording.LostChunkEndsIt | extension/background.js:995-1002 | when the app does not take a chunk the very next thing it is sent is the end: finish if it had taken any bytes, else abort |
| FailedDownloads.FailedIsKeptOnlyByLoss | extension/background.js:890-907 | whatever happens after the error of a recording was noted, the app is told to finish it exactly when it did not take one of its chunks after it had taken bytes of it |
| FailedDownloads.AFailedDownloadCanBeKept | extension/background.js:995-1002 | a browser download of which the app takes one chunk and not the next: it is finished, and its error is noted |
| Recording.NextArrival | extension/background.js:955-1005 | the chunk about to be sent is the next that came for its recording |
| Documents.NoTwoDocuments | extension/background.js:955-1005 | in every run, the chunks of pages that one of the app's recordings was sent are all of one document |
| Documents.ClosesAsAsked | extension/background.js:896-909 | a recording closed on request or by another document's chunk is off the list, and ended by that task's next request: aborted if asked or for a noted error, else finished |
| Documents.LeavesItAlone | extension/background.js:955-959 | nothing else closes one: no request meant for another recording, and no chunk of its document or of a browser download |
| Documents.ChunkFindsItsRecording | extension/background.js:959-985 | a chunk goes to the recording named under its key; only a page's chunk that finds none starts one, if it may; any other is dropped |
| Recording.Relay.CloseRecording | extension/background.js:896-909 | takes a recording off the list, keeping a failed browser download listed once, and aborts that one whatever was asked |
| Recording.Relay.TakeChunk | extension/background.js:955-959 | an earlier document's recording under the same key is closed first, as `Documents.ClosesAsAsked` says |
| Recording.Relay.FindRecording | extension/background.js:959-985 | the chunk goes to the recording, starts one if allowed, or is dropped |
| Recording.Relay.NameRecording | extension/background.js:975-983 | the app's name is kept, or the recording stays without one |
| Recording.Relay.HandedOver | extension/background.js:986-1005 | a taken chunk is counted; one not taken ends the recording, kept if anything reached the app |
| Hls.ParsePlaylist | extension/content/bridge.js:514-567 | the reading loop gives the playlist its lines say, or refuses it |
| Hls.RefusedExactly | extension/content/bridge.js:514-567 | a playlist is refused exactly when it lacks its header, has a line that cannot be used, or names no variants and is unfinished or without segments |
| Hls.BadExactly | extension/content/bridge.js:478-509 | a line cannot be used when it is a key of another method or format, without an address or with a bad IV, an init section without an address, or a byte range that is none |
| Hls.SegmentsInOrder | extension/content/bridge.js:530-537 | each segment URI gives one segment, in order, with the number, key, init section and byte range the lines before it say |
| Hls.NumberedFromTheStart | extension/content/bridge.js:534 | when no segment comes before a media sequence tag, each number is the declared one plus the place in the list |
| Hls.RangesContinue | extension/content/bridge.js:478-483 | a byte range has its length and starts at its offset, or without one where the one before it ended, and holds up to the next URI |
| Hls.RangesEnd | extension/content/bridge.js:530-537 | a URI with no byte range since the URI before it has none |
| Hls.AudioIsTheDefault | extension/content/bridge.js:541-544 | a group's audio is its latest default rendition, else its first, and there is none without a rendition |
| Hls.VariantsInOrder | extension/content/bridge.js:530-537 | the variants are the URIs after an EXT-X-STREAM-INF, in order, each with what that tag says |
| Hls.BestIsListedFirst | extension/content/bridge.js:559-563 | the best variant is the first listed of those with the highest bandwidth |
| Hls.BestFirst | extension/content/bridge.js:559-563 | the variants of a master are all there, best first |
| Hls.IvIsTheSequence | extension/content/bridge.js:491-498 | the sixteen bytes made from a media sequence number, read big-endian, are that number |
| HlsDownload.StripDisguise | extension/content/bridge.js:596-613 | cuts at the first run of five packets and after the last whole packet that begins as one, or keeps all |
| HlsDownload.Deliver | extension/content/bridge.js:400-407 | hands over the slices of the bytes, each full but the last, in order: all of them, or up to the first that is refused |
| HlsDownload.SlicesAreThePiece | extension/content/bridge.js:400-407 | put together, the slices of a piece are its bytes |
| HlsDownload.DownloadTrack | extension/content/bridge.js:634-662 | the messages are those of the segments in order, an init section before each that changes it; they end with the last segment, before the first segment or changed init section that does not come, or with the first slice that is refused, and only so |
| HlsDownload.FetchedBeforeSent | extension/content/bridge.js:635-647 | whatever is handed over of a segment follows its one arrival, and that the one start of its fetch; fetches start and arrive in the order of the segments |
| HlsDownload.FewInFlight | extension/content/bridge.js:640-647 | at no time are more than two segment fetches out |
| HlsDownload.HandedIsWhole | extension/content/bridge.js:634-662 | however the download ends, each segment it got through, and its changed init section, can be put together from what was sent |
| HlsDownload.FollowsItsOwnInit | extension/content/bridge.js:648-653 | the init section handed over last before a segment starts where its own does, and is its own if both are fetched alike |
| HlsDownload.MayFollowAnother | extension/content/bridge.js:648-653 | if they are not fetched alike, some network gives the segment another init section than its own |
| HlsDownload.AnotherEndIsNoChange | extension/content/bridge.js:648 | two init sections with one address and start and two ends: the second is not told apart |
| HlsDownload.DownloadPlaylist | extension/content/bridge.js:577-682 | reading a playlist and downloading it: each segment line before the one it ends at has arrived whole, of the address and range the lines say, under the address and IV of the latest key line, or the IV of its number, undisguised only without an init section; and so has its changed init section |
| HlsDownload.SegmentIsItsLine | extension/content/bridge.js:577-628 | what a segment gives is what its line and the key, map and range lines before it say |
| HlsDownload.InitIsItsMap | extension/content/bridge.js:648-653 | what an init section gives is what its map line and the key line before that say |
| HlsDownload.MissingAtItsLine | extension/content/bridge.js:634-662 | a download that ends for want of bytes ends at a segment line that gives none, or whose init section gives none |
| HlsDownload.PiecesAreTheTrack | extension/content/bridge.js:640-661 | the pieces are exactly every segment once, and an init section exactly with a segment of which the latest one before has another address or start; the part is one less than the init sections so far, up to 255 |
| HlsDownload.PiecesAreInOrder | extension/content/bridge.js:640-661 | pieces come in segment order, the init section first |
| HlsDownload.FetchSegment | extension/content/bridge.js:575-628 | decrypts under the key's own IV or the sixteen bytes that read as its number, strips only what has no init section, and fails exactly when fetching or decrypting does |
| ItemStore.TabIsInOrder | extension/background.js:338-366 | right after any item came the tab has at most 200 items with ids of their own, one per address the page did not build, and every item is hidden exactly when another's master lists it, but for two exceptions |
| ItemStore.HiddenExactlyWhenListed | extension/background.js:306-318 | the exceptions: a playlist the page built, and a master that is the last to list its own address |
| ItemStore.SelfListedShows | extension/background.js:314-317 | two items are added, masters of which the last lists itself: it shows although the other lists it |
| ItemStore.LinkingIsIdempotent | extension/background.js:306-324 | linking a second time changes nothing |
| ItemStore.MastersTakeOver | extension/background.js:314-324 | the pass makes a master live, encrypted or protected exactly when it was or a playlist under it is, gives it all their hosts, and the first duration when it has none; it changes no other playlist |
| ItemStore.EvictionIsFair | extension/background.js:354-359 | what is evicted is shown, is a master only when every shown item is, and is the first listed of those least lately seen of its kind |
| ItemStore.AddIsFair | extension/background.js:353-364 | a new item that is stored is in the tab where the browser lists it; all others stay in their order, but for the one to make room, exactly when the tab was full, and one with the same id; then the tab is linked |
| ItemStore.AddRefreshes | extension/background.js:341-352 | an item the tab has stays in its place, seen now, of the larger size and with the new playlist if one came, and all others stay; then the tab is linked |
| ItemStore.StoredUnlessFull | extension/background.js:354-360 | nothing is stored exactly when the item is new and the tab is full of hidden ones |
| ItemStore.AddKeeps | extension/background.js:338-366 | adding keeps ids, addresses and the bound, and leaves the tab linked |
| ItemStore.StepKeeps | extension/background.js:1204-1232 | so do blocking a host and clearing the tab |
| ItemStore.Tab.LinkPlaylists | extension/background.js:306-324 | the two loops of the linking pass |
| ItemStore.Tab.AddItem | extension/background.js:338-366 | finds, refreshes or puts the item, making room first, as `ItemStore.AddIsFair` and `ItemStore.AddRefreshes` say |
| ItemStore.TrimTexts | extension/background.js:262-273 | the texts kept are exactly the longest run of the newest within the budget, none of them older than one dropped |

## Left out

- Sockets, HTTP, TLS, files, subprocesses, the storage and messaging of the browser: they appear as steps that may happen, or as functions that may answer anything.
- Overflow of 64-bit numbers, and rounding of floating-point ones: offsets and sizes are unbounded natural numbers, rates and times are reals, and casts to unsigned integers are floors clamped at zero. Numbers in scripts above 2^53 likewise.
- Jitter of the backoff: any fraction of the upper half of the delay.
- The text of a fatal failure: only the reason it is given.
- One attempt's offset, end and revocation are one shared object, as they are always replaced together; some manager methods of the program are several methods here, one for each loop or branch.
- Protocol: steals and take-overs may act on what they read a moment ago, so their steps allow every in-flight chunk and every split of it; what the program picks is proved to be one of these.
- Cancelling the whole download: workers just take no more steps.
- The mirror race, host slots, speed limits and state saving around the scheduler.
- BoxList.ListFrom: the question for the share itself is not among those counted; URLs are the ids they are made from, and making a name a safe path component is a function that may fail.
- Batch.RunJobs: what a job does is its outcome; a job that starts after a shutdown request and stops at once is one that ends interrupted. Clients, progress bars and result lines are left out.
- Concat.Stream: files do not change while they are served; a file that does not open, a failed seek, read or send, and a stopped server are faults, given as an input. The range `-b` is read as the bytes from 0 to b; section 14.1.2 of RFC 9110 means the last b bytes by it.
- Hook.CaptureHasNoHoles: posting over the port is taken not to throw; which messages repeat an earlier report; the seek to the start.
- Hook.EndIsToldOnlyAfterWaiting: the documentation says that an end is told when the recording has bytes. The code reads the buffer's length after handing the buffer over, when it is 0, so only chunks that waited for the port count.
- Recording.NothingFollowsTheEnd: the app is taken to name each recording anew, and nothing to arrive under a browser download's random key before it opens. Restarts of the service worker are left out.
- Recording.NoHoles: the documentation says that a recording that lost a chunk stops. The code stops it when the app does not take the chunk, but not when the work queued for the chunk fails before that, as saving the list may.
- Hls.ParsePlaylist: splitting lines, attributes and numbers out of text, and resolving URLs; which rendition's media type is named.
- HlsDownload.DownloadTrack: retries, cookies and cancelling are inside the fetch, which fails or gives bytes, the same for the same address and range, and inside the answer to a slice. The choice of a master's variant and of the audio track are two more readings of playlists.
- Questions about slow connections: a worker of the program asks at the end of a window, and not under a speed limit or on a host that caps connections; here it may ask at any time and about any mirror.
- ItemStore.Tab.AddItem: removing low-latency parameters from an address, and merging request headers. A host is blocked without linking again, so hidden flags are claimed right after an item came.
- ItemStore.HiddenExactlyWhenListed: the documentation says that every rendition of a master is hidden; the two exceptions are the code's.
- AES, widevine and checksum tools, the popup, the graphical app, settings, the updater and the doctor.
