# memnos: models and proofs

memnos keeps a number of promises across interleavings, crashes and faults with nothing but plain
state: variables shared by threads, a directory, one database row, a few dictionaries. This project
models those parts in Dafny and proves the promises for every input, every run and every schedule.
`dafny verify dfyconfig.toml` checks all of it.

**Blue-green gateway** (`Gateway*.dfy`, `Watchdogs.dfy`). One step relation over the current backend,
the live processes, the program counters and locals of the upgrade and the watchdog threads, and the
requests with their in-flight counters. Any actor may move next, and any backend may die at any
instant. A log records every capture, poll, signal and assignment, is proved to be true, and the
theorems speak about whole runs. `GatewayThreads` has
the two threads as the programs they are, with everybody else moving between any two of their shared
accesses, and shows that all they do are steps of the machine. The counter table, the drain loop and the
watchdog's loop are also proved against specifications of their own.

**Write-behind queue** (`Queue*.dfy`). A directory as a map from names to files, and any number of
drainer processes, each file operation a step of its own: claim rename and stamp are two, the sweep's
age test and its rename are two, and a process may die between any two. `QueueNames` shows that the
three name shapes, read as strings, cannot be confused, and when name order is time order.
`QueueDrain` is the drain as a program with the directory to itself, and `QueueRuns` shows that both
models do the same to it. `QueueResend` has the exact condition for an item to be sent twice.

**Reconcile walk** (`Reconcile*.dfy`). A keyset walk over the facts of a namespace that commits data
and watermark together. Which facts reconciling one fact ends is an arbitrary function of the facts that
are live; it never revives one and counts something exactly when it ends one. The runner with its faults,
retries, budgets, slices, lost connections and crashes is proved to refine one fold over the facts, newest
first, as far as live facts and totals go. What else the rows say does depend on where pages are cut;
`ReconcileProvenance` says when.

**Async ingest** (`Ingest*.dfy`). Requests, workers and retry timers around one bounded queue.

**Event segmentation** (`Segments.dfy`, `EventContents.dfy`, `Encoder.dfy`). The encoder's buffer and
running centroid against a declarative notion of greedy partition, of which there is only one.

**Caches** (`Recency.dfy`, `Lru.dfy`, `EmbedCache.dfy`, `QueryCache.dfy`), the **streaming relay**
(`Relay.dfy`, with a decoder of the chunked coding of section 7.1 of RFC 9112) and the **capped
reranker** (`Rerank.dfy`).

## Where the code does not do what it says

Each of these is proved, as a concrete run or as the exact condition under which the promise holds.

- The queue's sweep tests a claim's age and renames it in two steps. A drainer that stamps its claim in
  between loses it all the same, and the item is accepted twice without any crash or slow owner
  (`QueueTheorems.SplitSweepSendsTwice`). "Exactly one drainer ever sends an item" holds in a run, lost
  answers aside, as long as no sweep renames a claim whose POST is under way or committed, and from such
  a rename on a second send is always possible (`QueueResend.SentTwiceIffOverlap`). A POST that was
  committed although its sender saw a transient failure adds one more (`LostAnswerSendsTwice`);
  `DuplicatesAreAccountedFor` counts both.
- A request that has read the old port but is not counted yet when the drain takes its last look can be
  interrupted by the kill (`GatewayTheorems.GapRequestIsInterrupted`). A kill after a completed drain can
  interrupt anybody if and only if such a request is still unfinished (`GatewayGap.InterruptsIffGapOpen`).
- The watchdog's failure counter is also reset by a healthy probe long enough after a heal, so the
  allowed number of heals can fail with no success between them and the gateway carry on
  (`Watchdogs.StabilityForgivesFailures`). A probe that comes sooner forgives nothing
  (`EarlyProbeForgivesNothing`); `GivesUpExactly` has the exact rule.
- The retry callback of async ingest closes over the worker's variables rather than their values. When
  it finds the queue full after its worker has moved on, the drop is logged and audited as another
  turn's (`IngestTheorems.WrongTurnReported`; `ReportsAreNamedIff` has the exact rule).
- A reconcile with a chunk size of 0 reports a completed walk without walking anything; nothing validates
  the setting. A completed walk has left no live fact behind if and only if the chunk size is not 0 or
  there was none left to begin with (`Reconcile.Runner.Loop`, `Run`).
- Restatements are to leave the older fact with the source turns of all (the end state of the write path).
  A page reads the turns of its facts at once, so a fact that was given turns by an earlier fact of its page
  passes on only the ones it had before (`ReconcileProvenance.ThreeRestatements`). Pages leave the rows that
  a walk fact by fact leaves, whatever is written, if and only if no page has more than one fact that writes
  (`PageKeepsRowsIff`).
- Every pair of an event's entities is to be linked once. Entities are stored under the first hundred
  characters of their names, so two longer names that agree there are one, and their pair is not bumped
  (`EventContents.LongNamesCoincide`). Each pair is bumped exactly once if and only if the stored names are
  distinct (`EveryPairOnceIff`).
- The identity tests of the flip and of the heal stand before their assignments with no lock around the
  two. The model takes each pair as one step. If a heal came in between, the flip would overwrite and orphan
  it (`GatewaySplit.SplitFlipLosesHeal`); `UntestedFlipOrphansIff` and `UntestedHealOrphansIff` say exactly
  when such an assignment orphans a backend.
- The derived rerank cap is meant to keep a batch within the budget. It does so for batches of every size
  if and only if the smallest cap is within the budget and the derived one is at least 1, that is, the
  smallest cap is at least 1, or the largest is and one pair is within the budget
  (`Rerank.BatchesFitIff`). A cap of 0 is taken for "no cap", whether it comes from the smallest or the
  largest allowed one, and a negative one leaves off only that many candidates (`LargestCapZero`,
  `NegativeCaps`, `ZeroCapIsNoCap`).
- An embedding cache bounded below one evicts what it has just put and then fails to read it
  (`EmbedCache.CachedEmbedder.Embed`).
- When an upstream breaks off in the middle of a stream, the proxy writes a second response head into
  the chunked body. A client's decoder reports a malformed body rather than a complete one
  (`Relay.ErrorIsNotAnEnd`).

## Model

| member | source | states |
|---|---|---|
| GatewayTheorems.RunsAreSound | memnos_gateway.py:340-493 | every run (any interleaving of upgrade, watchdog, requests and deaths) keeps all gateway invariants together |
| GatewayTheorems.NeverSignalsCurrent | memnos_gateway.py:711-830 | in every run, no signal is ever sent to the backend that is current at that moment |
| GatewayTheorems.FlipToFinishOwnsCurrent | memnos_gateway.py:749-763 | in every run, from its flip until it reports, an upgrade's own backend is the current one, stale readings of "upgrade running" included; at most one upgrade runs |
| GatewayTheorems.NoBackendIsOrphaned | memnos_gateway.py:421-475 | in every run a live backend is current, or was already signalled, or is held by a running upgrade or heal that will kill or publish it; with both threads idle the last case is gone |
| GatewayTheorems.FailedUpgradesAreNonDestructive | memnos_gateway.py:714-759 | in every run: an upgrade that failed to spawn, to prewarm, or was superseded never wrote the current backend; one that failed, after the flip included, never signalled the very backend it had captured at its start; one that completed never rolled back |
| GatewayTheorems.AssignmentsClobberNothing | memnos_gateway.py:792-807 | in every run the unguarded rollback overwrites only the upgrade's own backend (so never a heal) and restores the backend it had captured exactly when the poll on record says alive; a heal and a flip overwrite exactly the backend they set out to replace |
| GatewayTheorems.PreviousKilledOnlyWhenReplaced | memnos_gateway.py:770-824 | in every run an upgrade signals the backend it had captured only after flipping away from it, then ending the drain, and then finding the backend it flipped to alive |
| GatewayTheorems.CountersAreExact | memnos_gateway.py:296-303 | in every run a port's counter is the number of requests between increment and decrement, so the clamp at zero never acts |
| GatewayTheorems.DrainedKillInterruptsOnlyGap | memnos_gateway.py:239-293 | in every run the signal to the captured backend goes with the recorded end of its drain, and if that was drained it interrupts only requests of the gap recorded there |
| GatewayTheorems.GapRequestIsInterrupted | memnos_gateway.py:885-894 | that gap is real: a run in which such a request is interrupted |
| GatewayGap.InterruptsIffGapOpen | memnos_gateway.py:885-929 | in every run, once a drain has ended as drained with both backends alive: the run can go on to a kill that interrupts a request if and only if some request that had read the old port before the last look, uncounted then, is still unfinished |
| GatewayGap.KillsNow | memnos_gateway.py:781-824 | from any such state a kill that interrupts any chosen request of the old port is three steps away |
| GatewayGap.AfterFlipPortEmpties | memnos_gateway.py:749-763 | in every run, from the flip until the upgrade reports, no request newly reads or counts on any port other than the new backend's |
| GatewayGap.OldPortOnlyEmpties | memnos_gateway.py:711-763 | in every run, if the old backend was alive at some moment after the new one was spawned, then from the flip until the upgrade reports the requests on the old port only get fewer; had it died before, the new backend may have been given its port |
| GatewaySignals.SignalledNeverCurrentAgain | memnos_gateway.py:306-323 | in every run a backend that has been sent a signal is never the current one again, so neither is it when the second signal of a kill follows |
| GatewaySplit.UntestedFlipOrphansIff | memnos_gateway.py:749-763 | in every run: were the flip assigned some time after its test, a running backend would be left that nobody holds and nobody signalled if and only if the one overwritten is alive and not the one captured |
| GatewaySplit.UntestedHealOrphansIff | memnos_gateway.py:442-451 | in every run: the same of a heal assigned some time after its test |
| GatewaySplit.SplitFlipLosesHeal | memnos_gateway.py:740-763 | a run that leads to a heal between the test and the assignment: split, the healed backend is overwritten and orphaned; as one step, the flip is given up |
| GatewaySplit.TestedAssignments | memnos_gateway.py:442-451 | while its test still passes, the assignment is the step of the machine |
| GatewayLog.LogExplainsCurrent | memnos_gateway.py:749-807 | in every run the log of assignments replays to the current backend |
| GatewayLog.LogIsTrue | memnos_gateway.py:711-830 | in every run each entry of the log was written by one step, in order, and all it says was so in the state that step found: who was captured, current and alive, what the counter read, which requests were in the gap and which the signal interrupted, and what the target was to the thread |
| GatewayTargets.UpgradeKeepsTargets | memnos_gateway.py:711-830 | every upgrade step keeps: an upgrade's signal is one for the old backend if and only if it hits the backend it captured, and a kill, a rollback and a report have the capture, flip, poll and drain they rely on in the log |
| GatewayTargets.WatchdogKeepsTargets | memnos_gateway.py:421-475 | so does every watchdog step |
| GatewayLog.NoSilentKills | memnos_gateway.py:306-323 | a live backend is gone after a step only by its own death or a signal on record, and a new one was spawned in that step |
| GatewayThreads.Shared.StartRollingUpgrade | memnos_gateway.py:692-703 | refused exactly while an upgrade is running; one step of the machine |
| GatewayThreads.Shared.RunRollingUpgrade | memnos_gateway.py:711-830 | the upgrade as a program, with the other actors free to move between any two of its accesses, takes machine steps only and ends by reporting its phase, no longer running; left alone and with nothing failing it completes, with a fresh backend current and the old one gone or signalled |
| GatewayThreads.Shared.UpToFlip | memnos_gateway.py:713-765 | spawn, prewarm, test and flip, or the failure that prevents it, with the unused backend gone or signalled whatever the others did meanwhile |
| GatewayThreads.Shared.AfterFlip | memnos_gateway.py:770-828 | drain, last poll, and either the end with the old backend gone or signalled, or, the new backend being gone, the rollback on record |
| GatewayThreads.Shared.TestAndFlip | memnos_gateway.py:749-763 | flips exactly if the backend to replace is still current, in one step |
| GatewayThreads.Shared.DrainOld | memnos_gateway.py:275-293 | the drain loop, with any traffic and any deaths between its looks, is a chain of machine steps; a new backend that is gone is noticed, at the first look if it was gone by then; a reading of the old port's counter ends the drain if and only if it is zero and so was the one before; past the deadline it is drained if and only if the last reading is zero |
| GatewayThreads.Shared.WatchNew | memnos_gateway.py:281-282 | ends the drain if and only if the new backend is gone; one step |
| GatewayThreads.Shared.ReadOldCount | memnos_gateway.py:283-290 | ends the drain if and only if the counter is zero and the last reading was; any request in flight starts the count of zeros anew; one step |
| GatewayThreads.Shared.DrainRound | memnos_gateway.py:280-291 | one round of the drain: the look at the new backend, then the reading |
| GatewayReadings.SecondZeroEndsDrain | memnos_gateway.py:279-290 | in every run a reading ends the drain if and only if it is zero and the last reading before it in that drain was zero |
| GatewayReadings.ZerosCounted | memnos_gateway.py:279-290 | in every run the drain's count of zeros is 1 if and only if its last reading was zero, and 0 otherwise |
| GatewayThreads.Shared.PollNew | memnos_gateway.py:781-782 | goes on to replace the old backend only if the drain saw no death and the new backend is alive now |
| GatewayThreads.Shared.RestoreOld | memnos_gateway.py:796-807 | puts the old backend back if it was alive, none otherwise; one step |
| GatewayThreads.Shared.KillOne | memnos_gateway.py:306-323 | a process that has exited is not signalled; any other is, on record with what it interrupts, and may survive; nothing else is touched; one step |
| GatewayThreads.Shared.WatchdogTick | memnos_gateway.py:389-475 | a tick as a program, with the other actors free to move in between, takes machine steps only; it is skipped if and only if an upgrade is running at its start, heals only on failing probes, and a heal ends with no replacement, with the replacement gone or signalled, or with it published on record and the watched backend gone or signalled; left alone it replaces a failing backend |
| GatewayThreads.Shared.CheckUpgrade | memnos_gateway.py:390-393 | lets the tick go on if and only if no upgrade is running; one step |
| GatewayThreads.Shared.Settle | memnos_gateway.py:432-470 | the replacement takes the place of the watched backend, which is then gone or signalled, or is itself; left alone, a ready one takes its place |
| GatewayThreads.Shared.KillLoser | memnos_gateway.py:446-470 | a process that has exited is not signalled; any other is, on record with what it interrupts, and may survive; nothing else is touched; one step |
| GatewayThreads.Shared.DecideHeal | memnos_gateway.py:442-452 | heals exactly if the replacement was ready, no upgrade was seen running and the watched backend is still current; one step |
| Gateway.StartStep | memnos_gateway.py:692-703 | starting an upgrade keeps the ownership invariant: from flip to finish the current backend is the upgrade's own, no thread is about to signal the current one, and no live backend is without a holder |
| Gateway.CaptureStep | memnos_gateway.py:713 | reading the backend to replace keeps the ownership invariant: from flip to finish the current backend is the upgrade's own, no thread is about to signal the current one, and no live backend is without a holder |
| Gateway.SpawnStep | memnos_gateway.py:714-716 | spawning the new backend, with a fresh pid and a port no live backend holds, keeps the ownership invariant: from flip to finish the current backend is the upgrade's own, no thread is about to signal the current one, and no live backend is without a holder |
| Gateway.SpawnErrorStep | memnos_gateway.py:717-723 | a failed spawn keeps the ownership invariant: from flip to finish the current backend is the upgrade's own, no thread is about to signal the current one, and no live backend is without a holder |
| Gateway.ReadyStep | memnos_gateway.py:728 | a successful prewarm keeps the ownership invariant: from flip to finish the current backend is the upgrade's own, no thread is about to signal the current one, and no live backend is without a holder |
| Gateway.NotReadyStep | memnos_gateway.py:728-730 | a failed prewarm keeps the ownership invariant: from flip to finish the current backend is the upgrade's own, no thread is about to signal the current one, and no live backend is without a holder |
| Gateway.FlipStep | memnos_gateway.py:749-763 | the identity test and the flip it guards, as one step, keeps the ownership invariant: from flip to finish the current backend is the upgrade's own, no thread is about to signal the current one, and no live backend is without a holder |
| Gateway.WatchNextStep | memnos_gateway.py:275-282 | a drain cut short by the new backend's death keeps the ownership invariant: from flip to finish the current backend is the upgrade's own, no thread is about to signal the current one, and no live backend is without a holder |
| Gateway.ReadCountStep | memnos_gateway.py:283-290 | a reading of the drain loop keeps the ownership invariant: from flip to finish the current backend is the upgrade's own, no thread is about to signal the current one, and no live backend is without a holder |
| Gateway.DeadlineStep | memnos_gateway.py:292-293 | the last reading after the drain deadline keeps the ownership invariant: from flip to finish the current backend is the upgrade's own, no thread is about to signal the current one, and no live backend is without a holder |
| Gateway.PollNextStep | memnos_gateway.py:781-782 | the final poll of the new backend keeps the ownership invariant: from flip to finish the current backend is the upgrade's own, no thread is about to signal the current one, and no live backend is without a holder |
| Gateway.PollPrevStep | memnos_gateway.py:796-797 | the poll of the old backend before a rollback keeps the ownership invariant: from flip to finish the current backend is the upgrade's own, no thread is about to signal the current one, and no live backend is without a holder |
| Gateway.RestoreStep | memnos_gateway.py:798-807 | the rollback assignment, which tests nothing, keeps the ownership invariant: from flip to finish the current backend is the upgrade's own, no thread is about to signal the current one, and no live backend is without a holder |
| Gateway.UKillStep | memnos_gateway.py:823-824 | an upgrade's kill, whether or not the process survives it, keeps the ownership invariant: from flip to finish the current backend is the upgrade's own, no thread is about to signal the current one, and no live backend is without a holder |
| Gateway.FinishStep | memnos_gateway.py:826-828 | an upgrade's final report keeps the ownership invariant: from flip to finish the current backend is the upgrade's own, no thread is about to signal the current one, and no live backend is without a holder |
| Gateway.WCheckStep | memnos_gateway.py:390-393 | the watchdog's first reading of "upgrade running", which may go stale, keeps the ownership invariant: from flip to finish the current backend is the upgrade's own, no thread is about to signal the current one, and no live backend is without a holder |
| Gateway.WCaptureStep | memnos_gateway.py:395-397 | reading the backend to watch keeps the ownership invariant: from flip to finish the current backend is the upgrade's own, no thread is about to signal the current one, and no live backend is without a holder |
| Gateway.WSpawnStep | memnos_gateway.py:423-424 | spawning a replacement keeps the ownership invariant: from flip to finish the current backend is the upgrade's own, no thread is about to signal the current one, and no live backend is without a holder |
| Gateway.WReadStep | memnos_gateway.py:432-433 | the second reading of "upgrade running" keeps the ownership invariant: from flip to finish the current backend is the upgrade's own, no thread is about to signal the current one, and no live backend is without a holder |
| Gateway.WDecideStep | memnos_gateway.py:442-452 | the heal's decision, its identity test and assignment in one step, keeps the ownership invariant: from flip to finish the current backend is the upgrade's own, no thread is about to signal the current one, and no live backend is without a holder |
| Gateway.WKillStep | memnos_gateway.py:446-470 | a watchdog's kill keeps the ownership invariant: from flip to finish the current backend is the upgrade's own, no thread is about to signal the current one, and no live backend is without a holder |
| Gateway.UpgradeStep | memnos_gateway.py:711-830 | every upgrade step keeps the ownership invariant: from flip to finish the current backend is the upgrade's own, no thread is about to signal the current one, and no live backend is without a holder, and touches neither traffic nor the watchdog |
| Gateway.WatchdogStep | memnos_gateway.py:389-475 | every watchdog step keeps the ownership invariant: from flip to finish the current backend is the upgrade's own, no thread is about to signal the current one, and no live backend is without a holder |
| Gateway.RequestStep | memnos_gateway.py:885-929 | every request step keeps the ownership invariant: from flip to finish the current backend is the upgrade's own, no thread is about to signal the current one, and no live backend is without a holder |
| Gateway.DieStep | memnos_gateway.py:781-797 | a backend dying at any instant keeps the ownership invariant: from flip to finish the current backend is the upgrade's own, no thread is about to signal the current one, and no live backend is without a holder |
| Gateway.Next | memnos_gateway.py:340-493 | every step of any actor keeps the ownership invariant: from flip to finish the current backend is the upgrade's own, no thread is about to signal the current one, and no live backend is without a holder |
| GatewaySafety.NextKeepsCounts | memnos_gateway.py:296-303 | every step keeps each port's counter equal to the number of counted requests on it |
| GatewaySafety.RequestsKeepDrainSound | memnos_gateway.py:887-894 | after the drain's last look no request but those of the gap is on the old port, whatever requests do |
| GatewaySafety.NextKeepsDrainSound | memnos_gateway.py:761-824 | every step keeps: once drained, only requests of the recorded gap are on the old port |
| GatewayHistory.UpgradeKeepsHistory | memnos_gateway.py:714-828 | every upgrade step keeps what the log says of each upgrade: untouched before its flip, drained and proven alive before the old backend is signalled, reported with the phase that fits |
| GatewayHistory.WatchdogKeepsHistory | memnos_gateway.py:421-475 | no watchdog step changes any upgrade's history |
| GatewayHistory.UpgradeKeepsEventsSafe | memnos_gateway.py:749-824 | every signal and assignment of an upgrade is safe at the moment it happens |
| GatewayHistory.WatchdogKeepsEventsSafe | memnos_gateway.py:442-470 | every signal and assignment of the watchdog is safe at the moment it happens |
| GatewayHistory.DrainRecorded | memnos_gateway.py:770-782 | the end of the drain and the poll after it are on record before anything relies on them |
| GatewayDrain.Inflight.Incr | memnos_gateway.py:296-298 | the count of its port goes up by one, every other stays |
| GatewayDrain.Inflight.Decr | memnos_gateway.py:301-303 | the count of its port goes down by one unless it is zero, every other stays; after an increment of the port all counts are what they were before it |
| GatewayDrain.DecrUndoesIncr | memnos_gateway.py:296-303 | a decrement undoes an increment of its port; neither touches another port |
| GatewayDrain.WaitDrain | memnos_gateway.py:275-293 | the drain ends at the first death of the new backend or the first two zero readings in a row, whichever comes first; past the deadline one last reading decides between drained and timed out |
| Watchdogs.WatchdogLoop | memnos_gateway.py:386-493 | the loop with its three variables does exactly what the trace specification says, tick by tick, and gives up exactly when that does |
| Watchdogs.AfterOneMore | memnos_gateway.py:400-483 | the loop's counters after one more tick, as functions of everything done before |
| Watchdogs.HealsAreJustified | memnos_gateway.py:399-414 | a tick heals if and only if it sees a failing backend and either the process has exited or the failed probes in a row, skipped ticks not counting, have reached the threshold |
| Watchdogs.MissesAreTheLastProbes | memnos_gateway.py:400-414 | the miss counter is exactly the run of failed probes that ends the trace |
| Watchdogs.FailuresSinceReset | memnos_gateway.py:404-407 | the failure counter is the number of failed heals since it was last reset, with no successful heal in between |
| Watchdogs.GivesUpExactly | memnos_gateway.py:477-491 | the gateway gives up if and only if the allowed number of heals has failed since the counter last went back, deferred heals counting neither way: since the last successful heal, or since the first healthy probe that came at least the stable time after the last successful heal, whichever is later, the probe and the heal found on the positions and times of the trace |
| Watchdogs.LastResetIsClear | memnos_gateway.py:402-407 | the counter goes back exactly at a successful heal and at the first healthy probe that is late enough after the last one, in terms of positions and times |
| Watchdogs.EarlyProbeForgivesNothing | memnos_gateway.py:404-407 | a healthy probe five seconds after a heal forgives nothing: with failed heals on both sides of it the gateway gives up |
| Watchdogs.ActionsMean | memnos_gateway.py:390-412 | a tick is skipped exactly with an upgrade running or no backend, a healthy probe is one of a process that has not exited, and a heal ends as the tick says |
| Watchdogs.FailedHealsCount | memnos_gateway.py:425-475 | a failed heal is one with no replacement or one whose replacement never became ready |
| Watchdogs.StabilityForgivesFailures | memnos_gateway.py:402-407 | a stable backend also resets the counter: a trace with three failed heals, no success between them, and no giving up |
| Watchdogs.GivingUpIsFinal | memnos_gateway.py:483-491 | nothing happens after giving up |
| QueueTheorems.RunsKeepFiles | offline_queue.py:197-316 | every run of any number of drainers on distinct pids, crashing anywhere, keeps: one file per item, content unchanged, no readable unaccepted item without a file |
| QueueTheorems.ItemsAreConserved | offline_queue.py:146-153 | an enqueued readable item is exactly one file with its content unchanged until a POST of it is accepted, and at most one afterwards |
| QueueTheorems.RenamesReplaceNothing | offline_queue.py:229-233 | no claim, release, rejection or reclaim ever overwrites another file |
| QueueTheorems.DuplicatesAreAccountedFor | offline_queue.py:189-235 | accepted POSTs of an item are at most 1 + sweeps that took its claim while its POST was under way or done + committed POSTs whose answer was lost; a claim swept before its owner read it costs nothing |
| QueueTheorems.TimelyRunsSendOnce | offline_queue.py:281-316 | with owners faster than the stale age, nobody crashing, and the sweep's test and rename taken as one, an item is accepted at most once (plus lost answers), although claim rename and stamp are two steps |
| QueueTheorems.SplitSweepSendsTwice | offline_queue.py:226-233 | with the sweep's test and rename as the two steps they are, a run with no crash, no slow owner and no lost answer in which an item is accepted twice |
| QueueTheorems.LostAnswerSendsTwice | offline_queue.py:297-304 | a run with one drainer, no sweep of a claim and no crash in which one lost answer leads to a second commit, so the bound is attained |
| QueueResend.SentTwiceIffOverlap | offline_queue.py:197-316 | over every run with no such rename so far: the next step makes a second commit possible, with no crash, no delay, no lost answer and no further sweep of the item, if and only if it is a sweep's rename of a claim whose POST is under way or committed |
| QueueResend.NoOverlapSendsOnce | offline_queue.py:197-316 | over every run without such a rename of the item's claim, crashes and slow owners included, it is accepted at most once plus lost answers |
| QueueResend.OverlapSendsAgain | offline_queue.py:217-316 | after such a rename in any sound state, however many other items are queued or claimed, the sweeper's own drain and the owner's POST take the item to a second commit |
| QueueResend.OnlyOverlapsDouble | offline_queue.py:229-235 | a step books a doubled send exactly if it is such a rename |
| QueueResend.NextKeepsSenders | offline_queue.py:287-300 | every step keeps: what is being sent, or was, is readable, and commits that were answered are counted apart from lost ones |
| QueueTheorems.SweepRecoversOrphans | offline_queue.py:197-235 | a dead drainer's claim is pending again, put back by this sweep or another, before a sweep that started 60 s or more after the claim's mtime is over |
| QueueTheorems.StepSweepsOrphan | offline_queue.py:217-235 | every step of anyone but the sweeper's crash leaves a listed stale orphan listed or puts it back |
| QueueFiles.NextKeepsFiles | offline_queue.py:275-316 | every single file operation of every drainer keeps the file invariants |
| QueueFiles.ClaimKeepsFiles | offline_queue.py:280-286 | so does the claim rename |
| QueueFiles.StampKeepsFiles | offline_queue.py:284 | so does the stamp, even when the claim was stolen since |
| QueueFiles.StealKeepsFiles | offline_queue.py:229-235 | so does the sweep's rename |
| QueueFiles.PostKeepsFiles | offline_queue.py:297-300 | so does a POST with any answer |
| QueueFiles.DeletionKeepsFiles | offline_queue.py:289-316 | so do the two removals: only corrupt or accepted items lose their file |
| QueueFiles.RenamingKeepsFiles | offline_queue.py:300-312 | so do release and rejection |
| QueueFiles.EnqueueKeepsFiles | offline_queue.py:146-153 | so does an enqueue |
| QueueSafety.NextKeepsBounded | offline_queue.py:275-316 | every step keeps the duplicate bound |
| QueueSafety.StealKeepsBounded | offline_queue.py:229-235 | a sweep's rename pays for the extra POST it makes possible |
| QueueSafety.PostKeepsBounded | offline_queue.py:297-316 | a POST uses up its claim or one of the detached senders already counted |
| QueueNames.ClaimTextParses | offline_queue.py:189-230 | the sweep's pattern finds the claim suffix exactly where the claim put it, whatever the item's name contains |
| QueueNames.ShapesAreDistinct | offline_queue.py:275-281 | the scan's filter matches exactly pending names and the sweep's pattern exactly claims |
| QueueNames.NamesSpelled | offline_queue.py:229-284 | the three shapes of one item spelled out |
| QueueNames.TextIsInjective | offline_queue.py:279-306 | two names read the same only if they are the same |
| QueueNames.NameOrder | offline_queue.py:146 | exact condition for one queued name to sort before another: its time is below the same number of leading digits of the other's |
| QueueNames.NamesSortByTime | offline_queue.py:146 | with equally many digits, name order is time order |
| QueueNames.ShortTimesSortLate | offline_queue.py:146 | with unequal digit counts it is not: 9 sorts after 10 |
| QueueDrain.SnapshotIsFifo | offline_queue.py:275 | a sorted snapshot takes items of equally long times oldest first |
| QueueDrain.QueueDir.Enqueue | offline_queue.py:126-153 | adds one pending file and changes no other |
| QueueDrain.QueueDir.ReclaimStaleClaims | offline_queue.py:217-235 | moves every stale claim, and nothing else, back to its pending name with its content |
| QueueDrain.QueueDir.Snapshot | offline_queue.py:275 | the pending names, all of them, sorted |
| QueueDrain.QueueDir.ClaimItem | offline_queue.py:280-284 | moves one item to its claim name and stamps it; other items are untouched |
| QueueDrain.QueueDir.Resolve | offline_queue.py:287-316 | removes, releases or rejects the claim, by its content and the answer |
| QueueDrain.QueueDir.Replay | offline_queue.py:278-316 | settles one item: its fate is what its content and the answer say, its file ends where that fate puts it, other items are untouched |
| QueueDrain.QueueDir.Drain | offline_queue.py:266-317 | a drain alone settles exactly a prefix of the sorted snapshot in order and leaves the rest pending from the first transient failure or the quota; an item answered with a status below 500, by a server that does not say it is down, never ends it, and no more than the quota are sent; drained + rejected + dropped + remaining is the snapshot; POSTs go out in that order |
| QueueDrain.FateIs | offline_queue.py:48-101 | which failures keep an item, in terms of the failure: a server that says it is down; else a response status of at least 500, whatever else the exception carries; else, with no response status, its own code of at least 500; else, with neither, a network class among its bases; an unreadable status and all the rest refuse it |
| QueueDrain.TallyCounts | offline_queue.py:276-317 | the reported numbers are how many items met each fate |
| QueueDrain.PostedIs | offline_queue.py:275-296 | the items POSTed are exactly those settled that were not dropped as unreadable, in sorted order |
| QueueDrain.TallyAddsUp | offline_queue.py:276-317 | sent, rejected and dropped add up to the settled items |
| QueueRuns.ItemStepsAreReplay | offline_queue.py:278-316 | the single-step drainer of the concurrent model and the drain program leave the same directory for every item, content and answer |
| QueueRuns.ClaimStepsAreSweep | offline_queue.py:220-235 | the single-step sweep renames a listed claim exactly when it is stale, as the program does |
| ReconcileFold.PageIsNextLiveFacts | core/store.py:1200-1222 | a page is exactly the next live facts after the cursor, newest first, none skipped |
| ReconcileFold.PagesFall | core/store.py:1200-1222 | a page lists its facts by falling time of observation, and equal times by falling id |
| ReconcileFold.VisitIs | core/reconcile.py:369-383 | a fact still live adds what reconciling it merged to the one total and what it closed to the other; a fact already closed adds nothing |
| ReconcileFold.EmptyPageIff | core/reconcile.py:343-346 | a page is empty if and only if nothing was asked for or no live fact is left |
| ReconcileFold.PagesFollowOn | core/reconcile.py:369-375 | walking a page visits the live facts one after the other, with no live fact between |
| ReconcileFold.StepTo | core/reconcile.py:369-383 | going from one fact to the next live one is one step of the fold |
| ReconcileFold.WholeWalk | core/reconcile.py:304-311 | with no live fact below the cursor the walk so far equals the whole fold |
| ReconcileFold.FoldAppend | core/reconcile.py:273-314 | folding in two parts is folding once |
| ReconcileFold.StrictlyLessLeft | core/reconcile.py:364-366 | moving the cursor to a live fact strictly shrinks what is left |
| Reconcile.Runner.Commit | core/reconcile.py:351-367 | data and cursor move together or not at all; in-memory progress follows only a commit that returned; a lost connection may leave either state, both consistent |
| Reconcile.Runner.WalkFact | core/reconcile.py:369-383 | with nothing uncommitted on entry, one fact is walked; on a normal return nothing is uncommitted again, so at most one fact's writes are ever open; a fault leaves the committed state sound; whatever else the write leaves in the rows |
| Reconcile.Runner.WalkFacts | core/reconcile.py:369-383 | the page loop stops only at fact boundaries and has folded exactly up to the last fact walked |
| Reconcile.Runner.WalkPage | core/reconcile.py:334-385 | a page keeps the watermark invariant under any fault, walks at most what was asked for, strictly shrinks what is left if it walked anything, and returns zero only when nothing was asked for or the walk is over |
| Reconcile.Runner.StartOrResume | core/reconcile.py:193-208 | an unfinished walk is resumed unchanged; otherwise or on restart the row is reset and the walk starts from the database as it is |
| Reconcile.Runner.Finish | core/reconcile.py:304-310 | marks the row finished and changes nothing else |
| Reconcile.Runner.Loop | core/reconcile.py:273-315 | terminates under any faults by (live facts below the cursor, retries left); never walks more than the limit; gives up with contention if and only if the last max(1, max_retries + 1) page attempts all failed, a page that went through starting the count anew; completes, or stops at the limit, when nothing fails and nobody stops it; a finished row leaves no live fact behind if and only if the chunk size is not 0 or there was none left, and then it is the whole fold |
| Reconcile.Runner.Turns | core/reconcile.py:273-303 | the retry loop without the end of the walk: it is over exactly when a page walked nothing and nothing is left, and gives up exactly as said |
| Reconcile.InARowIs | core/reconcile.py:277-302 | the failures in a row are the failed page attempts since the last page that went through |
| Reconcile.Runner.TryPage | core/reconcile.py:334-385 | one attempt at a page: with nothing failing it goes through; a fault leaves the committed state sound |
| Reconcile.Runner.Run | core/reconcile.py:211-331 | one invocation, restart or not, cut anywhere: the committed live facts and totals are the fold of the facts at or above the cursor, reported progress is what it committed, and it resumed from the cursor the unfinished walk had; it ends in contention if and only if the last max(1, max_retries + 1) page attempts failed; if it completes, no live fact is left behind if and only if the chunk size is not 0 or there was none, and then it is the whole fold from where the walk began, for a restart from the facts it found live; otherwise the same walk, or the restarted one, is still to finish |
| Reconcile.Runner.RunUntilDone | core/reconcile.py:193-331 | any schedule of invocations, restarts included, on a namespace walked before or not, that reaches the end with a chunk size other than 0 leaves the same facts live and the same totals as one uninterrupted fold from where the last walk began: where the first one did, or as some restart found the facts |
| Reconcile.ReconcileNamespace | core/service.py:2055-2073 | the single-transaction walk behind a dry run computes the same fold of live facts and totals, so its counts are those of a real walk that completes |
| Reconcile.VisitPage | core/service.py:2064-2073 | one page of it is that many steps of the fold of live facts and totals |
| ReconcileProvenance.LiveDoesNotDepend | core/reconcile.py:341-380 | which facts stay live is the same however rows were read for their page and whatever is written to them |
| ReconcileProvenance.PageKeepsRowsIff | core/reconcile.py:341-380 | a page leaves the rows that a walk fact by fact leaves, whatever reconciling writes and whatever the rows said, if and only if at most one of its facts writes |
| ReconcileProvenance.ThreeRestatements | core/service.py:2007-2012 | three restatements of one fact: walked one by one the oldest ends up with the source turns of all, in one page it misses those of the newest |
| IngestTheorems.NothingIsLost | memnos_server.py:2392-2462 | over every run a turn handed over is in exactly one place: queued, with a worker, on a timer, written, dropped, or processed in its request |
| IngestTheorems.TurnsAreFifo | memnos_server.py:2402-2455 | over every run, first in, first out: what was queued, followed by what joined the queue, is in that order what workers were handed, followed by what is still queued |
| IngestTheorems.RetriesAreScheduled | memnos_server.py:2439-2455 | a transient failure with retries left puts the turn, with one more attempt, on a timer due after the base times a power of two or the cap, whichever is less; a timer not yet due changes nothing |
| IngestTheorems.FromStart | memnos_server.py:2366-2462 | from a started server: one place each, one report per drop, the queue within its bound, and no turn, queued, timed, with a worker, written or dropped, taken up more than retries + 1 times |
| IngestTheorems.NextBounds | memnos_server.py:2439-2460 | every step keeps each turn's attempt count, processing count and backoff in step |
| IngestTheorems.TotalBackoffIsBounded | memnos_server.py:2440-2441 | however long the run, a turn, queued, with a worker, on a timer, written or dropped, has been told to wait at most the sum of the capped powers of two, itself at most retries times the cap |
| IngestTheorems.DoublingIsPower | memnos_server.py:2441 | the delay before capping is the base times a power of two |
| IngestTheorems.DefaultBackoff | memnos_server.py:2366-2368 | the shipped settings wait 60 seconds in all |
| IngestTheorems.DropsHaveCauses | memnos_server.py:2439-2462 | over every run the dropped turns are, in order, exactly those whose processing failed for good or with no retries left and those whose retry met a full queue; the written ones are exactly those whose processing succeeded |
| IngestTheorems.ReportsAreNamedIff | memnos_server.py:2449-2455 | every drop report names the dropped turn if and only if no retry met a full queue after its worker had taken up another turn |
| IngestTheorems.WrongTurnReported | memnos_server.py:2449-2455 | for any queue size there is a run that drops one turn and reports another: the callback closes over the worker's variables |
| Ingest.Server.Remember | memnos_server.py:1704-1717 | queues a turn, or processes it in the request when the queue is full: one step of the machine |
| Ingest.Server.Get | memnos_server.py:2402-2403 | a worker takes the oldest turn: one step of the machine |
| Ingest.Server.Finish | memnos_server.py:2438-2462 | success, retry with backoff, or drop with a report: one step of the machine |
| Ingest.Server.Requeue | memnos_server.py:2449-2455 | the timer callback: one step of the machine |
| Ingest.Server.LogDrop | memnos_server.py:2371-2389 | drops and reports stay in step, and a log that named every dropped turn still does if and only if it is given this turn's id |
| Segments.SegmentIsGreedy | core/encode.py:67-84 | the encoder's partition is greedy: every event is unbroken, and it ends where the boundary test or the length cap makes it |
| Segments.SegmentKeepsTurns | core/encode.py:67-84 | flushed events followed by the open buffer are exactly the turns in order |
| Segments.GreedyIsUnique | core/encode.py:67-94 | any greedy partition of the turns is that one |
| Segments.EventsAreTight | core/encode.py:67-94 | every event the encoder makes of any turns, the open one included, is a non-empty stretch of them no longer than the cap in which no turn failed the boundary test |
| EventContents.EventsKeepTogether | core/encode.py:67-94 | every event the encoder makes, the open one included, has one session, no gap above the limit, no surprising turn, and at most max(1, max_turns) turns |
| EventContents.EventsPart | core/encode.py:67-94 | what belongs together stays together: between two neighbouring events the first is full, or the session changes, or the gap is above the limit, or the next turn is far from the mean of the first |
| EventContents.MeanIsExact | core/encode.py:77-81 | the incremental centroid is the exact mean of the buffer |
| EventContents.ExtractEntities | core/encode.py:35-41 | lists the first occurrence of every word that is not ignored |
| EventContents.EntitiesAreDistinct | core/encode.py:35-41 | each lower-case form that occurs is listed exactly once, in a form that occurs |
| EventContents.EntitiesAreFirsts | core/encode.py:35-41 | entities come in the order of their first occurrences, each in the form it first had |
| EventContents.BumpPairs | core/encode.py:115-117 | the two loops add to each edge exactly the number of pairs that hit it |
| EventContents.EveryPairOnce | core/encode.py:115-117 | with distinct stored names every pair of entities is bumped exactly once |
| EventContents.EveryPairOnceIff | core/encode.py:107-117 | every pair of an event's entities is bumped exactly once if and only if their stored names are distinct |
| EventContents.LongNamesCoincide | core/encode.py:107-117 | two entities whose names agree in their first hundred characters: their pair is not bumped |
| EventContents.OthersUntouched | core/encode.py:115-117 | no other edge is bumped |
| Encoder.Encoder.IsBoundary | core/encode.py:86-94 | the test on the running centroid is the test on the exact mean of the buffer |
| Encoder.Encoder.FlushEvent | core/encode.py:96-120 | stores the buffer as one event with its session, times and entities, and bumps its pairs; an empty buffer stores nothing |
| Encoder.Encoder.IngestTurn | core/encode.py:67-84 | one step of the segmentation, with the centroid exact again and the stored events and edges those of everything flushed so far |
| Encoder.Encoder.Close | core/encode.py:122-123 | flushes what is open; the stored events and edges are those of the whole partition |
| Encoder.Encoder.Encode | benchmarks/locomo_eval.py:95-105 | a whole conversation ends up as its greedy partition, every turn stored once, in order, each event of one session, with no gap above the limit and no longer than the cap, no two neighbouring events without a reason to part, each event under its own session, first and last times and entities; each edge weighs what the pairs of all events add up to |
| Encoder.StoredLabelled | core/encode.py:96-105 | every stored event has the session of all its turns, the time of its first turn as its start and that of its last as its end |
| Recency.RememberedIff | memnos_proxy.py:255-268 | a bounded most-recent list holds a key if and only if it was used before with fewer than `cap` distinct other keys since |
| Recency.Touch | memnos_proxy.py:259-268 | moving to the end, or appending and forgetting the oldest, keeps exactly the most recent keys |
| Lru.Cache.Seen | memnos_proxy.py:259-268 | true if and only if the key was asked before and fewer than `cap` distinct other keys since, for every `cap` |
| EmbedCache.CachedEmbedder.CachedIff | core/embed.py:78-83 | a text is cached if and only if fewer than `cache_max` distinct other texts were used since |
| EmbedCache.CachedEmbedder.Put | core/embed.py:78-83 | stores the answer as the most recently used one, within the bound |
| EmbedCache.CachedEmbedder.Evict | core/embed.py:82-83 | keeps the most recent entries; under a negative bound it raises |
| EmbedCache.CachedEmbedder.Lookup | core/embed.py:96-101 | a hit is the stored answer and counts as a use |
| EmbedCache.CachedEmbedder.Embed | core/embed.py:96-107 | whatever other threads put or evict meanwhile, the answer is that of an uncached embedder in single precision; it fails if and only if the bound is below one |
| EmbedCache.CachedEmbedder.Prime | core/embed.py:85-94 | fetches exactly the distinct non-empty texts that were not cached at its start, in order, chunk by chunk, each becoming the most recently used, whatever other threads use between two chunks |
| EmbedCache.MissingIs | core/embed.py:86-87 | what a prime fetches are exactly the texts asked for that are neither empty nor cached, each once, in the order of their first occurrences |
| EmbedCache.WovenAlone | core/embed.py:88-93 | with no other thread about, the chunks of 512 put all the missing texts in order |
| QueryCache.QueryEmbedCache.Get | core/embed.py:42-55 | a hit is the vector last put, at most `ttl` old; such a vector is always found while fewer than `maxsize` distinct other queries were used since |
| QueryCache.QueryEmbedCache.Put | core/embed.py:57-64 | replaces the entry, within the bound; a non-positive ttl or no vector changes nothing |
| Relay.RelayStream | memnos_proxy.py:388-397 | writes the frames of the non-empty chunks, then the terminator unless the upstream broke off; captures the concatenation |
| Relay.RoundTrip | memnos_proxy.py:388-398 | decoding the written bytes gives exactly the captured ones and stops exactly at the terminator, for any chunks and anything sent after |
| Relay.CutIsIncomplete | memnos_proxy.py:388-398 | a stream cut anywhere is never taken for a complete one |
| Relay.ErrorIsNotAnEnd | memnos_proxy.py:431-438 | the error response written into a stream that broke off is never taken for its end |
| Relay.DecodeFrames | memnos_proxy.py:391-396 | decoding the frames yields the chunks' bytes and goes on with what follows |
| Relay.FramesSpelled | memnos_proxy.py:392-397 | a five-byte frame, a size line with letters and the terminator, byte by byte |
| Rerank.RerankIsSound | core/rerank.py:262-302 | each index exactly once, best first, ties in retrieval order, scored rows with the model's score, the rest after them in retrieval order strictly below every scored one; a positive cap leaves exactly that many scored rows, or all if there are no more, a cap of 0 all; retrieval order without the model |
| Rerank.PassthroughIs | core/rerank.py:256-259 | identity order with the strictly decreasing positive scores 1 / (1 + i) |
| Rerank.SortDownIs | core/rerank.py:295 | the stable descending sort is a permutation of the scored rows |
| Rerank.TailIs | core/rerank.py:296-301 | the rows beyond the cap fall strictly in equal steps, stay positive and below the floor |
| Rerank.CapFitsBudgetIff | core/rerank.py:136-144 | the derived cap is within the budget if and only if the smallest allowed cap is, it is the largest allowed cap within it, and it is the smallest one if none is |
| Rerank.BatchesFitIff | core/rerank.py:271-272 | batches of every size stay within the budget if and only if the smallest cap is within it and either is at least 1 or the largest cap is at least 1 and one pair is within the budget |
| Rerank.CapIsPositiveIff | core/rerank.py:136-144 | exactly when the derived cap is at least 1 |
| Rerank.LargestCapZero | core/rerank.py:271-272 | a largest cap of 0 feeds the model all of 100 candidates, over five times the budget |
| Rerank.NegativeCaps | core/rerank.py:271-272 | caps from -5 to -1 feed it all but one |
| Rerank.ZeroCapIsNoCap | core/rerank.py:271-272 | a derived cap of 0 or less feeds all candidates but that many, and the batch is within the budget if and only if that number happens to be |
| Rerank.CalibratedBatchFits | core/rerank.py:381-389 | under limiting settings a cap from the smaller of two samples keeps every batch within the budget at the true cost |
| Rerank.Calibration.Prewarm | core/rerank.py:377-390 | an operator's cap always wins, negative ones counting as 0; after two samples the cap in force without one is the largest allowed within the budget at the smaller of them, or the smallest if none is, so under limiting settings no batch outlasts the budget at a true cost no sample understates; a failure changes nothing; ready in every case |

## Left out

- The two gateway globals are read and assigned as pairs in one step; the code's tuple assignments and
  reads are not atomic as a pair. The identity test and the assignment it guards are one step too, in the
  flip and in the heal; `GatewaySplit` shows what would come of the two apart.
- Gateway boot (an upgrade requested before the initial backend is published can be overwritten by
  it), shutdown, the update check, HTTP, sockets, real clocks and process launch: nondeterministic steps.
- In the gateway, process ids are fresh and a new backend's port differs from every live backend's.
- GatewayThreads.Shared.WatchdogTick: takes any outcome of the probes; what they must have been is in
  `Watchdogs`. Request threads are steps of the machine only.
- In the gateway SIGTERM, the wait and SIGKILL are one step, taken as the first signal; a backend that
  survives both stays in the live set, recorded as signalled. `GatewaySignals.SignalledNeverCurrentAgain`
  covers the time in between.
- `Watchdogs.WatchdogLoop` covers the loop's counters and decisions; its interplay with the other
  threads is in `Gateway`, where a probe may call for a heal at any time.
- Queue: the temporary file an enqueue writes before its atomic rename; enqueued names are distinct;
  one drain at a time per pid; a failed directory listing ends a drain with nothing done.
- Queue: a claim that cannot be read for a passing reason is dropped like a corrupt one; the model takes
  such a read to find the content it has.
- Queue: order across concurrent drainers, which the code does not keep: a second drainer skips claimed
  items and may send later ones first.
- QueueTheorems.SweepRecoversOrphans: says that the claim is pending again by the end of a sweep that
  is late enough, not that one takes place, which is up to the callers of `drain`.
- Queue payload fields, tokens and the recall snapshot: no state to get wrong.
- Reconcile: which facts `reconcile_fact` closes, and all SQL; an approximate index that answers the same
  nearest-neighbour query differently; rows inserted or changed by live traffic
  during a walk (only its locks appear, as faults); the schema of the runs table.
- Reconcile.Runner.RunUntilDone: speaks of live facts and totals. Source turns, restatement counters,
  salience, links and time stamps are left open: they depend on where pages are cut and on the clock.
- Reconcile: the count of facts scanned is tied to the watermark and the limit, but not to the fold: a
  fact closed earlier in the same page is still counted, so it depends on where pages are cut.
- Reconcile: the statement timeouts and the backoff delays, which only shape when faults and stops come.
- Reconcile: a shutdown between the commit that finishes the row and the report looks like a crash; the
  next invocation then starts a new walk.
- Async ingest: a server crash loses the in-memory queue; "facts written exactly once" does not hold,
  as a database failure after the facts were written is retried; the embedding, extraction and audit
  work of one processing is one step with three outcomes.
- IngestTheorems.TotalBackoffIsBounded: for non-negative settings of base and cap.
- Encoder: embeddings, salience and the proper-noun pattern (an event's words are given), a store that
  fails in the middle of a flush, and turns without a time; the surprise test is any predicate of the
  vector and the mean, and vectors all have the embedder's dimension.
- Caches: the calls of the query cache are taken one at a time on a clock that never goes back; the
  service's failures in the middle of a `prime`.
- Relay: chunk extensions and trailers, which the relay never sends, are malformed to this decoder; the
  non-streamed answer, headers, capture policy and parsing.
- Rerank: floating point (the sigmoid underflowing to 0 would break the strictness of the tail), the
  model itself (any positive scores), memory settings, the keep-alive thread.
- The MCP adapters, CLI, setup wizard, admin console, redaction and predicate patterns, text chunking,
  context rendering and cost meter: branch tables, patterns and sums with no state to get wrong.
