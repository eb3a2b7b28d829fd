# Hivra guest provisioner: verified models

Dafny models of the crash-tolerant state machines on the guest side of the Hivra provisioner
(`dashboard/provisioner`), and proofs of what they promise over every run, every input and every
interleaving. Check everything with `dafny verify dfyconfig.toml`.

| file | models |
|---|---|
| `ProviderWorker.dfy`, `ProviderSafety.dfy`, `ProviderTheorems.dfy`, `ProviderSteps.dfy`, `ProviderOutcomes.dfy` | the once-only provider installation: `control` and `run` interleaved over write-once journal markers, two locks, the unit and its cgroup, crashes and reboots; what each marker says of the step that made it; which outcome is recorded and told |
| `LineReader.dfy` | the bounded-memory chunked line reader of the agent-run reporter |
| `OrderedDict.dfy`, `TraceRecord.dfy`, `CodexParser.dfy`, `CodexProofs.dfy`, `CodexFile.dfy`, `CodexRecords.dfy`, `CodexForgets.dfy` | the Codex transcript parser: its specification, what its linked maps keep, and the parser as it updates one file's state in place; what each record says, traced to the lines it comes from; what leaves the tables and when |
| `ClaudeParser.dfy`, `ClaudeTools.dfy`, `ClaudeRuns.dfy`, `ClaudeRecords.dfy` | the Claude transcript parser: held ends, deferred tool ends, settling and flushing; how tool ends match tool starts; how every run ends; what each tool record says, traced to its record |
| `Tombstone.dfy`, `Forgetting.dfy`, `ForgettingUnseen.dfy`, `ForgettingProgress.dfy` | forgetting an idle Codex transcript and resuming it; delivery with prunings and tombstones; that forgetting is not seen in what is delivered; which files are forgotten, and that reading goes on |
| `Chunks.dfy`, `Delivery.dfy`, `Reporter.dfy` | splitting into bodies; collect, deliver, commit over failures and restarts; the reporter's own loop |
| `CrashMarker.dfy` | the persisted marker that keeps a killing line from being parsed twice |
| `StagingFence.dfy` | the staging journal and its inherited lock: runner, stager, observer, clearing |
| `AccessChange.dfy` | the access change of an attached agent with its rollback, over every way each step can go |
| `DeletionWalk.dfy` | the explicit-stack deletion walks, refining recursive deletion |
| `DnsBucket.dfy`, `DnsRelay.dfy`, `DnsTcp.dfy`, `DnsFlow.dfy` | the DNS relay: token bucket, UDP loop, TCP framing, and what goes upstream from all callers |

Protocols between processes (the worker, the staging fence) are state machines: a total function
`Apply` takes one atomic step, `Run` a sequence of them, and a rejection or exception is the process
leaving at that point. Code that updates one object or loops over buffers is a class or a method with
loops, proved against a function on values.

## Where the code differs from what one would expect

* Provider worker: the installer is started after a freshness check less than 20 s from the dispatch
  clock, but time may pass between that check and the start. `InstallerMayBeginLate` issues the unit
  once and begins any given time after the clock; `BeginsInTime` says of every run between check and
  start when it is in time, and `EveryStartWasChecked` that there is no other start.
* Tombstones: resuming is invisible exactly when the session header was the first line or there was
  none (`ForgettingIsInvisible`); `LateHeaderHappens` is a transcript that is not resumed as it was.
* Claude runs alternate exactly when no run begins after a pruning has forgotten a live one
  (`AlternatesIff`); `ForgettingHappens` is a transcript where one does.
* A Claude call id used again by an untimed record while its earlier result is deferred can leave a
  tool end without its own start, and nothing else can (`UnmatchedIffReused`, `ToolEndsMatched`);
  `ReuseHappens` is such a transcript. The exact statement is for records with at most 1024 tool uses,
  as many as are tracked: with more, the call may be evicted by its own record.
* The crash marker keeps every live skip exactly when at most 64 are live (`LiveSkipsExact`);
  `OneCrashTooMany` brings a transcript to 65, and a line that killed a process is not skipped.
* `do_remove_home` compares its count with MAX_ENTRIES only after a visit, so the closing `rmdir`s
  around the last name are not counted; `ClearSucceeds` states the condition with that count,
  `GoingHomeIsBounded` says how far beyond the limit a home that goes can be, and `LargestHomeGoes` is
  one that large.
* `remove_tree` says that no mount is crossed. It compares devices only, so the files below a bind
  mount of the same device are removed before the call fails (`BindMountIsEmptied`). A node below a
  mount point is removed exactly when the first thing in the walk's way is a mounted directory of the
  device and the first node tried below it can go (`MountsCrossedIff`, and `RemoveTree` for the call).
* `stop_agent` ignores the status of its stop command and looks only at processes. If that command
  fails while the chat socket listens, the view changes forward although a chat could start the agent;
  `Access` states that this is the only way, and `ChangesUnderOpenSocket` shows it. The rollback does
  not look at the answer of its stop, so it may change the view under a running agent
  (`RollsBackUnderAgent`); `Access` says exactly when.
* The bucket bounds admissions, not sends: a query admitted earlier may go out later. In any t seconds
  at most 200 + 200 t queries and one for each of the 17 callers go upstream (`SendBound`), and that
  many can (`SendBoundReached`).
* An alias names the tool that took it last, but it is dropped with any tool that has it: when an older
  tool of the same alias goes, outputs under that alias find nothing any more (`PruneForgets`).
* A pass of the reporter that collects nothing saves nothing, so after a failed save the disk may lag
  behind memory through passes that succeed (`OnePass`).

## Model

| member | source | states |
|---|---|---|
| ProviderSafety.StepKeeps | dashboard/provisioner/hivra-provider-worker.py:593-740 | every atomic step of control, worker, unit queue, crash, reboot or desktop journal keeps the protocol invariant (every verdict told stays true), replaces no marker, and leaves a quiet system quiet |
| ProviderSafety.ControlMoveAllowed | dashboard/provisioner/hivra-provider-worker.py:662-740 | at every point of `control` its next move is one the invariant allows: no write replaces a marker, no dispatch after a fence, no stopped verdict without quiet |
| ProviderSafety.WorkerMoveAllowed | dashboard/provisioner/hivra-provider-worker.py:941-974 | at every point of `run` its next move is allowed: started only after dispatch and fresh, the installer only after its own started marker |
| ProviderTheorems.ReachableInvariant | dashboard/provisioner/hivra-provider-worker.py:593-740 | every state reached from an empty journal by any interleaving, crash states included, satisfies the invariant |
| ProviderTheorems.StoppedIsFinal | dashboard/provisioner/hivra-provider-worker.py:574-651 | once an observation answered stopped=True no installer or child is alive, and in every continuation none is and none begins |
| ProviderTheorems.OnceOnly | dashboard/provisioner/hivra-provider-worker.py:699-727 | one dispatch, one installer start, in the dispatch boot after a fresh check; result implies started implies dispatch implies manifest, digest and (versions 2, 3) closure and controller |
| ProviderTheorems.MarkersAreWriteOnce | dashboard/provisioner/hivra-provider-worker.py:151-180 | over any run no published marker is replaced or removed; the launch file is never replaced and goes only after the start or under a cancel, for good |
| ProviderTheorems.OneOutcome | dashboard/provisioner/hivra-provider-worker.py:613-637 | for versions 2 and 3 all stopped observations agree; then and in every later state they say succeeded exactly when exit code 0 was recorded, failed when another was, and cancelled only with a cancel and no result |
| ProviderTheorems.NotStartedIsFinal | dashboard/provisioner/hivra-provider-worker.py:466-502 | after a not_started proof no dispatch, start or desktop ownership ever appears |
| ProviderTheorems.ProofsAreConsistent | dashboard/provisioner/hivra-provider-worker.py:391-416 | in every reachable state every recorded proof passes the consistency check of the observation functions |
| ProviderTheorems.CancelPreventsInstaller | dashboard/provisioner/hivra-provider-worker.py:960-966 | a cancel recorded before the worker's final check means the installer never begins |
| ProviderTheorems.BeginsInTime | dashboard/provisioner/hivra-provider-worker.py:958-970 | for every interleaving between the passing last check and the start, the start is within 20 s of the dispatch clock exactly when less time passes in between than the clock had left |
| ProviderTheorems.TimePasses | dashboard/provisioner/hivra-provider-worker.py:958-970 | while a checked worker lives, the dispatch stays and the clock moves by the ticks alone |
| ProviderTheorems.EveryStartWasChecked | dashboard/provisioner/hivra-provider-worker.py:941-970 | every run standing at the start of the installer splits at the last check of that very worker |
| ProviderTheorems.InstallerMayBeginLate | dashboard/provisioner/hivra-provider-worker.py:958-970 | for every delay a run that issues the unit once and begins its installer that long after the dispatch clock |
| ProviderSteps.CancelWasAsked | dashboard/provisioner/hivra-provider-worker.py:693-695 | a recorded cancel was asked for by a cancel request for the journal's own identity, less than 20 s old when it was published |
| ProviderSteps.UnitWasAsked | dashboard/provisioner/hivra-provider-worker.py:699-727 | an issued unit was issued for the one start request whose identity, clock, manifest and launch the journal holds, less than 20 s old then and with no cancel |
| ProviderSteps.ResultHappened | dashboard/provisioner/hivra-provider-worker.py:967-971 | a recorded result holds the exit code with which the one installer begun had ended |
| ProviderSteps.PreparedBeforeCancel | dashboard/provisioner/hivra-provider-worker.py:797-816 | desktop preparation and ownership were published by an installing desktop worker before any cancel |
| ProviderSteps.AnswerWasServed | dashboard/provisioner/hivra-provider-worker.py:662-740 | every answer went to a request for the journal's own identity: a cancel request with the cancel recorded, a start request with the cancel recorded or its own launch dispatched |
| ProviderSteps.StartIsIssued | dashboard/provisioner/hivra-provider-worker.py:683-727 | from every reachable state a fresh start request that nothing disturbs or contradicts issues its unit |
| ProviderSteps.WorkerBegins | dashboard/provisioner/hivra-provider-worker.py:941-970 | in every reachable state a worker with a fresh dispatch and nothing in its way begins the installer |
| ProviderSteps.CleanupIsProved | dashboard/provisioner/hivra-provider-worker.py:419-463 | in every reachable state a cancel request whose worker stopped publishes its cleanup proof if the stop succeeds and nothing disturbs it |
| ProviderOutcomes.VerdictTold | dashboard/provisioner/hivra-provider-worker.py:593-651 | every verdict was true at the step that told it: for legacy workers cancelled exactly with a cancel, otherwise succeeded exactly with exit code 0; for the others the recorded outcome; no launch file is left to a cancelled worker |
| ProviderOutcomes.OutcomeConcluded | dashboard/provisioner/hivra-provider-worker.py:613-632 | a recorded outcome was concluded at one step, from the journal then: by the exit code if there is a result, and without one cancelled exactly when a cancel was there, else failed |
| ProviderOutcomes.CancelledFromThenOn | dashboard/provisioner/hivra-provider-worker.py:613-632 | once a quiet worker has a cancel, no result and no recorded outcome, every outcome recorded or told from then on is cancelled |
| ProviderOutcomes.FailedFromThenOn | dashboard/provisioner/hivra-provider-worker.py:613-632 | an outcome recorded with neither cancel nor result stays failed, whatever comes later |
| ProviderOutcomes.ObservedAlone | dashboard/provisioner/hivra-provider-worker.py:593-651 | from every reachable state an undisturbed observation ends with an answer: stopped, stopping, running or unknown, each exactly by cancel, start and quiet |
| ProviderOutcomes.ProofHappened | dashboard/provisioner/hivra-provider-worker.py:419-502 | every cleanup proof was published by a step at which it was true: not_started without a dispatch, verified_stopped by the step in which stopping the dispatched worker's services succeeded |
| LineReader.LinesExact | dashboard/provisioner/hivra-agent-trace.py:739-775 | the lines are contiguous from the offset, in order, each exactly the bytes up to its newline, with head and tail for long ones, and what follows the last has no newline |
| LineReader.LinesResume | dashboard/provisioner/hivra-agent-trace.py:739-775 | stopping at the end of any yielded line and resuming there yields the remaining lines |
| LineReader.LinesGrow | dashboard/provisioner/hivra-agent-trace.py:739-775 | appended bytes leave the complete lines as they are |
| LineReader.Edge | dashboard/provisioner/hivra-agent-trace.py:778-786 | the first or last bytes of the joined parts |
| LineReader.Reader.Feed | dashboard/provisioner/hivra-agent-trace.py:752-775 | one read yields exactly the lines its chunk completes and retains at most MAX_LINE bytes of pieces |
| LineReader.IterLines | dashboard/provisioner/hivra-agent-trace.py:739-775 | for every cutting into chunks the lines are those of the whole stream |
| CodexProofs.ApplyKeeps | dashboard/provisioner/hivra-agent-trace.py:285-483 | every line and every pruning keeps the links between run, tools, aliases and joins, and the size caps |
| CodexProofs.ReachableCodex | dashboard/provisioner/hivra-agent-trace.py:285-483 | every reachable parser state satisfies the invariant, its open tools are those begun in the records, and every keyed tool end follows its own start |
| CodexProofs.ToolRecordsNameOpenRun | dashboard/provisioner/hivra-agent-trace.py:418-483 | every tool record names the run and conversation open when it is emitted |
| CodexProofs.CloseOpenRun | dashboard/provisioner/hivra-agent-trace.py:385-394 | closing the open run leaves only what the session header said |
| CodexProofs.FoldConcat | dashboard/provisioner/hivra-agent-trace.py:974-999 | parsing two stretches one after the other is parsing them together |
| CodexFile.FileParser.Close | dashboard/provisioner/hivra-agent-trace.py:385-401 | the loops over tools, aliases and joins leave what the specification says |
| CodexFile.FileParser.EvictTools | dashboard/provisioner/hivra-agent-trace.py:418-435 | the eviction loop removes the oldest tools with their aliases until the cap holds |
| CodexFile.FileParser.Item | dashboard/provisioner/hivra-agent-trace.py:438-464 | outcome and duration are joined in place, and the eviction loop keeps the cache within its cap |
| CodexFile.FileParser.Output | dashboard/provisioner/hivra-agent-trace.py:467-483 | the named call leaves the tables with its join, and the record says what was joined |
| CodexFile.FileParser.End | dashboard/provisioner/hivra-agent-trace.py:359-382 | role, duration and record of the ended run, and the run closed in place |
| CodexFile.FileParser.Feed | dashboard/provisioner/hivra-agent-trace.py:285-333 | one line on the state in place, branch by branch: new state and records as specified, invariant kept |
| CodexRecords.EndTellsItsCall | dashboard/provisioner/hivra-agent-trace.py:438-483 | the end of a tool call over any events: run, name and start of the line that called it; failed exactly when the last telling item under its key, or else under its alias, says failed or a nonzero exit code; success true exactly for completed with exit code 0; the duration of the item, or from call to output |
| CodexRecords.JoinCameFrom | dashboard/provisioner/hivra-agent-trace.py:438-464 | every join says what the last telling item under its key said |
| CodexRecords.ToolCameFrom | dashboard/provisioner/hivra-agent-trace.py:418-435 | every open tool is the one its last call said |
| CodexRecords.StartTells | dashboard/provisioner/hivra-agent-trace.py:336-356 | a task start stops another open run, and begins its own unless it is open already |
| CodexRecords.RunEndTells | dashboard/provisioner/hivra-agent-trace.py:359-382 | a run is told stopped when aborted, else failed on an error, else completed; with its own duration, or measured from the line that started it |
| CodexRecords.OthersTellNothing | dashboard/provisioner/hivra-agent-trace.py:285-333 | every other line and every pruning tells nothing |
| CodexForgets.ToolLeavesIff | dashboard/provisioner/hivra-agent-trace.py:385-483 | an open tool leaves exactly when its output comes, when it is the oldest of 1024 and another is called, when its run ends, or when a pruning finds it old |
| CodexForgets.JoinLeavesIff | dashboard/provisioner/hivra-agent-trace.py:385-483 | what an item said is kept exactly until an output uses it, it is the oldest of 256 and another comes, or its run ends |
| CodexForgets.PruneForgets | dashboard/provisioner/hivra-agent-trace.py:709-723 | a pruning forgets exactly an old run with all of it, or else the old tools and their aliases |
| ClaudeParser.ReachableClaude | dashboard/provisioner/hivra-agent-trace.py:519-706 | in every reachable state a held end implies an open run with no tracked open tool |
| ClaudeParser.CompletedWhenNoToolIsOpen | dashboard/provisioner/hivra-agent-trace.py:636-660 | run.completed names the live run and is emitted only while none of its tracked tools is open |
| ClaudeParser.RunsAlternate | dashboard/provisioner/hivra-agent-trace.py:519-706 | unless a pruning forgets a live run, starts and ends alternate, each end naming the run of the start before it |
| ClaudeParser.AlternatesIff | dashboard/provisioner/hivra-agent-trace.py:519-728 | starts and ends alternate if and only if no run begins after a pruning has forgotten a live one |
| ClaudeParser.InStepIff | dashboard/provisioner/hivra-agent-trace.py:519-728 | parser and records agree on the open run after every event if and only if no pruning forgets a live run |
| ClaudeParser.ForgettingBreaksAlternation | dashboard/provisioner/hivra-agent-trace.py:709-728 | a pruning that forgets a live run breaks the alternation at the next run that begins, whenever that is |
| ClaudeParser.ForgettingHappens | dashboard/provisioner/hivra-agent-trace.py:709-728 | a prompt, a pruning and another prompt: a live run is forgotten, another begins, and the alternation is broken |
| ClaudeRuns.HeldIff | dashboard/provisioner/hivra-agent-trace.py:636-660 | a live run has its end held exactly when a terminal answer, given with no tracked tool of the run open, came after its last newly tracked tool use |
| ClaudeRuns.RunEnds | dashboard/provisioner/hivra-agent-trace.py:559-706 | how every run ends, over any events: failed exactly at an API error, completed at the time of the standing terminal answer exactly when one stands, otherwise stopped by the prompt of another run; with its times and durations |
| ClaudeRecords.ToolEndsAreTold | dashboard/provisioner/hivra-agent-trace.py:559-696 | an end is told for every result of a tracked tool and for every deferred one once a time is known |
| ClaudeRecords.ToolStartsTell | dashboard/provisioner/hivra-agent-trace.py:594-633 | a tool start is told of a use in an assistant record, and the open tool is as its start says |
| ClaudeRecords.EndTellsItsUse | dashboard/provisioner/hivra-agent-trace.py:559-696 | every tool end traced to its use: failed exactly when its result was an error, a success exactly when it was none, lasting from use to result; or a deferred end that says neither and claims no duration |
| ClaudeRecords.PruneForgets | dashboard/provisioner/hivra-agent-trace.py:709-728 | a pruning forgets exactly the old tools, the old deferred ends and an old live run |
| ClaudeTools.ToolEndsMatched | dashboard/provisioner/hivra-agent-trace.py:559-696 | every tool end follows its own start and no start has two ends, unless a deferred call id is used again |
| ClaudeTools.UnmatchedIffReused | dashboard/provisioner/hivra-agent-trace.py:559-696 | after any transcript without such a use, an event with at most 1024 tool uses can be followed, without another such use, by an unmatched end if and only if it uses a call id whose result is deferred |
| ClaudeTools.UsedIsNewest | dashboard/provisioner/hivra-agent-trace.py:594-633 | a call just used is among the newest of the tracked ones, so at most 1024 uses never evict it |
| ClaudeTools.ReuseHappens | dashboard/provisioner/hivra-agent-trace.py:594-696 | a prompt, a use and its untimed result, then the same call id untimed: reachable, and an end can be left unmatched |
| Tombstone.IdleIsBare | dashboard/provisioner/hivra-agent-trace.py:731-734 | an idle reachable parser has no run, tool, alias or join |
| Tombstone.HeaderIsFirstMeta | dashboard/provisioner/hivra-agent-trace.py:285-300 | conversation and bound are those of the first session header read, and stay |
| Tombstone.ThreadIsRead | dashboard/provisioner/hivra-agent-trace.py:285-310 | exactly the lines of the thread whose header came first are read, not those with an ordinal of its parent; any other changes and tells nothing |
| Tombstone.SeedRestores | dashboard/provisioner/hivra-agent-trace.py:954-972 | seeding from the first line rebuilds the forgotten parser |
| Tombstone.LateHeaderShows | dashboard/provisioner/hivra-agent-trace.py:954-972 | with a later header some continuation is reported differently |
| Tombstone.ForgettingIsInvisible | dashboard/provisioner/hivra-agent-trace.py:1405-1425 | every continuation emits the same records as without forgetting if and only if the header was first or absent |
| Tombstone.LateHeaderHappens | dashboard/provisioner/hivra-agent-trace.py:954-972 | a transcript whose header is its second line is idle, not transparent, and resumed differently |
| Forgetting.AdvanceExtends | dashboard/provisioner/hivra-agent-trace.py:974-999 | reading on from a covered entry or a resumed tombstone lengthens its history by exactly the lines read |
| Forgetting.ForgetCovered | dashboard/provisioner/hivra-agent-trace.py:1405-1425 | the tombstone of an idle, transparent file resumes with the very entry that was forgotten |
| Forgetting.NothingLostThroughForgetting | dashboard/provisioner/hivra-agent-trace.py:1356-1425 | over any growth, passes, failures, saves, prunings, forgettings of transparent files and restarts: every entry and tombstone is where its own history leads, whose lines are exactly those before its offset and whose records are all settled, and every record ever sent comes from a history a pass went through |
| Forgetting.PruningsHappened | dashboard/provisioner/hivra-agent-trace.py:1405-1425 | every pruning in any history, committed or posted from, is one the run made |
| Forgetting.UnprunedIsDelivery | dashboard/provisioner/hivra-agent-trace.py:1356-1386 | on a run without prunings the entries are the folds over exactly the lines before their offset, and all that was sent is in the fold of the whole file |
| ForgettingUnseen.ForgettingIsInvisibleToDelivery | dashboard/provisioner/hivra-agent-trace.py:1356-1425 | a reporter that forgets transparent files posts and settles exactly the records of one that makes the same prunings and never forgets, with the same entries in memory and on disk |
| ForgettingProgress.PruningForgetsExactly | dashboard/provisioner/hivra-agent-trace.py:1405-1425 | a pruning forgets exactly the files read to their end, not written for a day and with no run open that began since the cutoff; a forgotten file keeps its offset |
| ForgettingProgress.FullPassReadsOn | dashboard/provisioner/hivra-agent-trace.py:954-999 | a tracked or forgotten file with news that is read to its end is committed there once everything is settled, and tracked again |
| ForgettingProgress.RestartFindsSaved | dashboard/provisioner/hivra-agent-trace.py:1405-1425 | a restart finds what was last saved, whatever was committed, pruned or forgotten since |
| Chunks.BatchesWhole | dashboard/provisioner/hivra-agent-trace.py:1225-1235 | batches concatenate to the records in order, hold at most 400, and fit MAX_BODY or are single records |
| Chunks.BatchesLargest | dashboard/provisioner/hivra-agent-trace.py:1225-1235 | nothing is split that need not be: every batch is a whole group of 400, or the rest, or a half of a stretch whose body is too large |
| Chunks.SplitGroup | dashboard/provisioner/hivra-agent-trace.py:1227-1235 | the worklist loop ends and yields the recursive halving of its group |
| Chunks.ChunkBodies | dashboard/provisioner/hivra-agent-trace.py:1225-1235 | the whole splitter yields the specified batches |
| Delivery.AdvanceFollowsFold | dashboard/provisioner/hivra-agent-trace.py:974-999 | reading n lines on from line k lands on the fold of k+n lines and adds exactly the records between |
| Delivery.KeptAreTimed | dashboard/provisioner/hivra-agent-trace.py:215-240 | exactly the records of a fold that have a time are sent, in order |
| Delivery.NothingLostNothingInvented | dashboard/provisioner/hivra-agent-trace.py:1356-1386 | over any growth, budgets, delivery failures, failed saves and restarts: committed entries are folds over exactly the lines before their offset, all their records settled, and all records ever sent are in the fold of the whole file |
| Delivery.FullPassCommits | dashboard/provisioner/hivra-agent-trace.py:1356-1386 | a pass that reads a file to its end and settles everything commits the fold of the whole file |
| Reporter.ReadFile | dashboard/provisioner/hivra-agent-trace.py:974-999 | reading advances the entry by n whole lines: all there are at the end, and fewer only when a budget is used up or a read fails; the bytes used are those between the two offsets |
| Reporter.PostAll | dashboard/provisioner/hivra-agent-trace.py:1476-1513 | the posting loop: the batches in order up to the first answer that is not final, and the outcome that answer gives |
| Reporter.Service.CollectAll | dashboard/provisioner/hivra-agent-trace.py:867-914 | the pass over the files collects on copies exactly what the abstract pass collects, and a complete one has read every readable file to its end |
| Reporter.Service.Deliver | dashboard/provisioner/hivra-agent-trace.py:1476-1513 | batches are posted in order and none after the first answer that is not final; exactly those answered 2xx, 400 or 413 are settled; ok means all were, blocked a last answer 401, 403 or 404; an expired credential saves the entries as committed before |
| Reporter.Service.OnePass | dashboard/provisioner/hivra-agent-trace.py:1356-1386 | one pass is one action of the delivery model, followed by a save alone if the credential expired; it commits only when every batch it posted had a final answer, saves what it commits, and a complete one commits every readable file to its end |
| Reporter.Service.Step | dashboard/provisioner/hivra-agent-trace.py:1356-1386 | up to 16 passes, ended before only by one that failed or was complete: a run of the delivery model whose posts settled exactly what was finally answered; after a complete pass no complete line of a readable file is left to read |
| CrashMarker.LiveSkipsExact | dashboard/provisioner/hivra-agent-trace.py:1317-1324 | only live skips are kept, and every live one if and only if at most 64 are live |
| CrashMarker.OldestSkipForgotten | dashboard/provisioner/hivra-agent-trace.py:1317-1324 | with more than 64 live skips the oldest is forgotten |
| CrashMarker.Transcript.Load | dashboard/provisioner/hivra-agent-trace.py:1298-1315 | at start only uncommitted lines a process died on are skipped, and all of them if and only if at most 64 are live |
| CrashMarker.Transcript.TakeLine | dashboard/provisioner/hivra-agent-trace.py:1001-1027 | a large line is parsed under its marker unless it is to be skipped; a fatal parse leaves the marker |
| CrashMarker.Transcript.Life | dashboard/provisioner/hivra-agent-trace.py:1298-1340 | one process: a line is skipped exactly when an earlier process died parsing it; each death is on a new line |
| CrashMarker.Transcript.Supervise | dashboard/provisioner/hivra-agent-trace.py:1298-1340 | restarts until the transcript is consumed or more than 64 crashes are live; one restart per deadly line, each lethal line parsed at most once |
| CrashMarker.OneCrashTooMany | dashboard/provisioner/hivra-agent-trace.py:1298-1340 | 65 live crashes: a lethal line parsed already is not skipped at the next start |
| StagingFence.StepKeeps | dashboard/provisioner/run-attached-codex-stage.py:115-163 | every step of runner, stager, observer, clearing, death or reboot keeps the fence invariant |
| StagingFence.SpawnedOncePerJournal | dashboard/provisioner/run-attached-codex-stage.py:115-163 | until its journal is cleared the stager is spawned at most once |
| StagingFence.FailedIsFinal | dashboard/provisioner/run-attached-codex-bundle.py:97-162 | after staging_failed no stager is alive, the journal stays started, and no receipt is returned or told under it |
| StagingFence.OneReceiptPerJournal | dashboard/provisioner/run-attached-codex-stage.py:95-163 | all receipts returned or told under one journal are the same, and whoever is given one asked for its identity in its boot, wherever a run dies |
| StagingFence.ToldAsItStood | dashboard/provisioner/run-attached-codex-bundle.py:97-162 | every answer was true at the step that told it: absent exactly without a journal, failed exactly when this identity's in this boot only started, a receipt exactly when it was staged, in progress exactly under the lock |
| StagingFence.RunChecksItsOwn | dashboard/provisioner/run-attached-codex-stage.py:130-141 | a run goes on to stage exactly without a journal, returns a receipt exactly when one is staged for its identity and boot, and otherwise changes nothing |
| StagingFence.ReceiptIsTheStagers | dashboard/provisioner/run-attached-codex-stage.py:142-163 | every receipt ever staged is the output of a stager that lived under its journal |
| StagingFence.StagerHoldsLock | dashboard/provisioner/run-attached-codex-stage.py:142-163 | until the stager exits, whoever dies, no run, clearing or observer gets the lock and the journal stays |
| StagingFence.RunStages | dashboard/provisioner/run-attached-codex-stage.py:115-163 | undisturbed, a run without a journal stages and returns the fitting receipt its stager puts out |
| StagingFence.ClearingRemoves | dashboard/provisioner/attached-agent.py:1017-1046 | undisturbed, a clearing removes the journal exactly when it names its installation |
| StagingFence.ClearsOnlyItsOwn | dashboard/provisioner/attached-agent.py:1017-1046 | only a clearing that names the journal's installation removes it, and only while no stager lives and nobody observes |
| AccessChange.WrittenInstalls | dashboard/provisioner/attached-agent.py:849-867 | writing the units installs every one and touches no other file |
| AccessChange.RewriteRestores | dashboard/provisioner/attached-agent.py:922-929 | whatever part of the new units was written, writing the previous ones restores the files exactly |
| AccessChange.Attachment.Rewrite | dashboard/provisioner/attached-agent.py:849-867 | succeeds exactly when each of its steps does; units change only after registry and contract; a failure leaves a prefix of the units written |
| AccessChange.Attachment.ApplyView | dashboard/provisioner/attached-agent.py:875-880 | succeeds exactly when the restart works and the observed view equals the grant |
| AccessChange.Attachment.Stop | dashboard/provisioner/attached-agent.py:458-467 | yes, no or raised as the steps go; after yes no process runs, and the socket listens only if the stop command failed |
| AccessChange.Attachment.Rollback | dashboard/provisioner/attached-agent.py:922-932 | restored exactly when the rollback's steps go well, with everything matching the previous plan and the files as they were |
| AccessChange.Attachment.Access | dashboard/provisioner/attached-agent.py:883-932 | the receipt, or its absence, for every way the steps go, with the one step at which the change breaks and the rollback begins; ready matches the new grant after exactly one forward view change, restored the previous one, refused changes nothing; exactly when the view changes forward or back under an agent that may be up |
| AccessChange.ReceiptsExactly | dashboard/provisioner/attached-agent.py:883-932 | each receipt if and only if: ready, restored, refused, agent_did_not_stop and restore_failed |
| AccessChange.BreaksOnce | dashboard/provisioner/attached-agent.py:906-921 | a change breaks at one step only, so where the rollback begins is determined |
| AccessChange.ChangesUnderOpenSocket | dashboard/provisioner/attached-agent.py:458-467 | a failed stop command with the socket listening gives a ready change made while a chat could start the agent |
| AccessChange.RollsBackUnderAgent | dashboard/provisioner/attached-agent.py:922-932 | the chat does not come up and processes remain after the rollback's stop: restored, with the view changed back under a running agent |
| DeletionWalk.ClearRemovesAll | dashboard/provisioner/attached-workspace.py:456-492 | success leaves nothing and counts every node; a failure removes exactly as many nodes as it counts |
| DeletionWalk.UntouchableStays | dashboard/provisioner/attached-workspace.py:467-484 | a node on another device or a refused mount, anywhere, forces failure and is still there with its contents |
| DeletionWalk.ClearSucceeds | dashboard/provisioner/attached-workspace.py:456-492 | success if and only if every node is on the device, nothing is mounted, depth and last count are within bounds |
| DeletionWalk.FailureIsExplained | dashboard/provisioner/attached-workspace.py:456-492 | every failure is explained by what is left: a mount or a busy name that is there to see, a depth or a count beyond the limit |
| DeletionWalk.GoingHomeIsBounded | dashboard/provisioner/attached-workspace.py:469-492 | a home that goes has at most MAX_ENTRIES + MAX_DEPTH + 1 nodes |
| DeletionWalk.LargestHomeGoes | dashboard/provisioner/attached-workspace.py:469-492 | a home of MAX_ENTRIES + MAX_DEPTH + 1 nodes that goes: the bound is attained |
| DeletionWalk.Visit | dashboard/provisioner/attached-workspace.py:469-492 | visiting a name keeps the pairing of stack, lists and pending names and what recursive deletion would still do |
| DeletionWalk.CloseTop | dashboard/provisioner/attached-workspace.py:460-468 | leaving a directory removes the pending name from its parent and keeps the pairing |
| DeletionWalk.Walk | dashboard/provisioner/attached-workspace.py:454-495 | the loop terminates with the remains, count and failure of the recursive deletion |
| DeletionWalk.RemoveHome | dashboard/provisioner/attached-workspace.py:438-498 | gone if and only if the whole home can go, removing exactly it and reporting its node count; otherwise nothing outside it changed, inside is what the recursive deletion leaves, and every untouchable node is still there; nothing below a mount point is ever removed |
| DeletionWalk.RemoveTree | dashboard/provisioner/attached-agent.py:978-1011 | the same for the unbounded walk, and exactly when a node below a mount point is removed |
| DeletionWalk.RemovableMeans | dashboard/provisioner/attached-agent.py:978-1011 | the success condition is: every node at any depth is on the device and not mounted on |
| DeletionWalk.BindMountIsEmptied | dashboard/provisioner/attached-agent.py:996-1008 | a same-device mount is emptied by remove_tree and left alone by do_remove_home |
| DeletionWalk.MountsCrossedIff | dashboard/provisioner/attached-agent.py:978-1011 | on every tree, a node below a mount point is removed if and only if a mounted directory of the device is first in the way and the first node below it can go |
| DeletionWalk.RemovesIffYields | dashboard/provisioner/attached-agent.py:996-1008 | the walk removes something if and only if the first node it tries can go |
| DeletionWalk.RefusingSparesMounts | dashboard/provisioner/attached-workspace.py:467-484 | a walk that refuses mounts removes nothing below a mount point on any tree |
| DnsBucket.AdmissionBound | dashboard/provisioner/attached-dns-relay.py:30-43 | at most 200 + 200 t queries are admitted in any window of t seconds, for every sequence of clock readings that never goes back |
| DnsBucket.TightWindow | dashboard/provisioner/attached-dns-relay.py:30-43 | some window is always used up to the tokens in hand |
| DnsBucket.AdmitsIffRoom | dashboard/provisioner/attached-dns-relay.py:35-43 | a query is admitted if and only if every window ending now has room for it |
| DnsBucket.Bucket.Take | dashboard/provisioner/attached-dns-relay.py:35-43 | the bucket in place answers so, and the bound holds after every call |
| DnsFlow.SendBound | dashboard/provisioner/attached-dns-relay.py:74-157 | whatever the UDP loop and the TCP threads do, at most 200 + 200 t queries and one for each caller go upstream in any t seconds |
| DnsFlow.SendBoundReached | dashboard/provisioner/attached-dns-relay.py:74-157 | a run in which exactly that many go upstream at one moment |
| DnsRelay.Relay.Expire | dashboard/provisioner/attached-dns-relay.py:116-121 | exactly the queries past their deadline leave table and selector |
| DnsRelay.Relay.Receive | dashboard/provisioner/attached-dns-relay.py:123-140 | a datagram is forwarded on a socket of its own exactly when it fits, there is room, it is admitted and sending works |
| DnsRelay.Relay.Respond | dashboard/provisioner/attached-dns-relay.py:141-150 | a readable upstream socket is forgotten and its answer goes to the client that asked |
| DnsRelay.Relay.Dispatch | dashboard/provisioner/attached-dns-relay.py:122-150 | every ready key is dealt with, and its socket is still in flight when its turn comes although descriptors are reused |
| DnsRelay.Relay.OneTurn | dashboard/provisioner/attached-dns-relay.py:115-150 | nothing past its deadline stays, every good answer in time reaches its client, at most the listener's own datagram goes upstream, every reply is the answer of a ready socket, and sockets not ready stay in flight |
| DnsRelay.Relay.Serve | dashboard/provisioner/attached-dns-relay.py:110-150 | after any turns the selector is the listener plus the in-flight sockets, at most 256; each query has at most one reply, to its own client |
| DnsTcp.Connection.RecvExact | dashboard/provisioner/attached-dns-relay.py:64-71 | exactly the next bytes however they are cut; fails exactly when the stream is too short |
| DnsTcp.EveryQueryIsAnswered | dashboard/provisioner/attached-dns-relay.py:74-93 | well-framed, admitted and answered queries come back as their answers in order |
| DnsTcp.QueriesAreAPrefix | dashboard/provisioner/attached-dns-relay.py:74-93 | what goes upstream, a send cut short included, is a prefix of the client's own bytes |
| DnsTcp.QueriesAreAdmitted | dashboard/provisioner/attached-dns-relay.py:83-85 | only admitted queries go upstream; only the last may lack a reply |
| DnsTcp.RepliesAreUpstreams | dashboard/provisioner/attached-dns-relay.py:86-92 | every reply is the message of its own upstream connection |
| DnsTcp.CutReplyIsUpstreams | dashboard/provisioner/attached-dns-relay.py:86-92 | a reply whose send fails is a first part of the message of its own upstream connection |
| DnsTcp.RelayTcp | dashboard/provisioner/attached-dns-relay.py:74-99 | for every cutting of the streams and every failing send, bytes sent on, bytes sent back and tokens asked are those of the specification |

## Left out

- Hashes, JSON, regular expressions, ISO dates and the envelope patterns: decoded records, ids and times are opaque inputs. Ids can be encoded: for a call id with a lone surrogate the digest raises after the tool was entered, so its start is not recorded.
- The substring prefilter for Codex lines (`_skip_codex`), statistics counters, heartbeats and the choice of where a new file starts (`_start` backfill).
- Reporter.PostAll: credential renewal is left out: a batch posted again after a renewal counts as one post with its last answer.
- Provider worker and staging fence are state machines on values: files as marker fields, `publish` atomic and durable. Temporary files, fsync loss, file modes and owners, INSTALL_LOCK, the desktop journal's own time fence and the internals of the owner stop are not modelled; a unit sample may answer anything its state allows.
- The Claude parser is on values: update of its dict in place is not captured, nor tombstones of Claude files.
- Delivery covers Codex files that only grow, with a fixed set of skipped lines: `Delivery` and `Reporter` between prunings, `Forgetting` across them. That the read of `_seed` succeeds is assumed; deletion, truncation and the quiet flush of Claude files are not part of it.
- The crash marker covers one transcript, with its writes succeeding.
- `remove_tree` and `do_remove_home`: system calls fail only by absence, wrong type, another device, a mount point or the bounds; nobody else writes meanwhile.
- `access`: exceptions other than ValueError, OSError and timeouts, the reason strings, and the contract read back into the receipt.
- DnsBucket: tokens are real numbers, not floats; the rate is the relay's 200.
- DNS relay: a failing `socket()` or an error of the listener other than "nothing to read" stops the process and is not modelled; the sixteen-connection limit and timeouts of the TCP side are a stream that ends.
- `activate` with its phase journal, unit and nftables rendering, network set-up and the watchdog, image building, `dashboard/auth.ts`, the web application and the scripts: input validation, templates and plumbing around the protocols above.
