# Days AGO executor: a verified model

Days AGO simulates packet networks as logical processes that exchange timestamped events. Its claim is
that every fast way of running a simulation (parallel rounds, lazily applied timers, flat device planes)
gives exactly the result of a simple serial machine. This project models the code behind that claim in
Dafny 4.11 and proves it. `dafny verify dfyconfig.toml` checks everything.

The transition of a process is an arbitrary deterministic function from state and event to state,
children and superseded timers. The only thing assumed of it is the numbering contract of event keys:
a producer numbers its children from its own cursor, in order (`Rounds.Numbers`). Where a theorem needs
the lookahead that validated images promise, it says so (`Completeness.Causal`).

## What is proved

**Parallel equals serial.** One process drains its events below a horizon, with a shortcut for same-time
continuations (`LogicalProcess`), superseded timers removed (`Timers`). A round drains every process, in any
order, and delivers remote events at a barrier (`Executor`). A successful run of rounds ends in exactly the
states and pending events of the machine that always pops the least event of all
(`Executor.RoundsAreSerial`). Conversely, when transitions keep their lookahead, rounds succeed whenever the
serial machine does (`Completeness.SerialIsRounds`). The number of rounds stays within the planned bound
(`RoundBound`).

**The worker pool, over all interleavings.** The static pool is a state machine whose actions are the single
steps of the coordinator and of each worker, with asynchronous round-tagged batches between workers
(`PoolState`). An invariant of every reachable state (`PoolInvariant`) shows that no mismatch branch is ever
taken, that a worker drains only after merging exactly the batches due to it, that the minima the
coordinator folds are the true ones, that the pool never deadlocks, that it computes what the round executor
computes, that two schedules never end differently and that every schedule ends (`PoolRuns`, `PoolAborts`,
`PoolProgress`).

**The classified pool, over all interleavings.** Here processes travel: a worker takes its active processes
out of their slots, all workers exchange straggler flags, processes to run, and drained processes with the
events they sent, and each worker puts its own processes back before it reports (`ClassifiedPool`). The
exchange itself, without contents, is `Exchange`; what the contents must be is `ClassifiedRound`. For every
interleaving all workers set aside the same number of workers, each active process is run by exactly one
worker, comes home to its own slot drained and with its events, and the reported least times are true; the
pool never deadlocks, every schedule ends, it fails only where the executor fails, and it ends where the
executor and the static pool end (`ClassifiedSteps`, `ClassifiedRuns`, `ClassifiedProgress`). The slots and
lists of a worker do what these steps say (`Classified`, `ClassifiedShard`, `ClassifiedSlots`).

**The dynamic dispatcher.** Over all interleavings of its coordinator and workers every chunk is executed
exactly once, kinds stay apart and the round ends (`Dispatch`, `DispatchSteps`, `DispatchRuns`,
`DispatchProgress`). Whatever the active processes are cut into and in whatever order chunks are executed, a
round is that of the executor and a whole run ends or fails as the executor's (`DispatchRound`,
`DispatchPartition`).

**Data structures of a worker.** The indexed frontier heap refines a map (`FrontierIndex`). The
byte-skipping radix sort equals all 34 passes and is a stable sort (`RadixSort`, `RadixOrder`,
`RadixPasses`). A shard drains and merges with both (`Shard`), and what it does is what the steps of its
worker in the pool do (`ShardSteps`). Static placement is a bijection and keeps Graham's bound of 4/3 -
1/(3W) of the optimum (`Placement`, `Ownership`).

**Lazy timers.** The DCQCN reaction point applies its three periodic timers only when someone looks. For
every sequence of transitions it agrees with the machine that fires every instant (`Dcqcn`, `DcqcnEager`),
every reachable state is in range (`DcqcnController`), and the target after any number of increases has a
closed form (`DcqcnRecovery`).

**Exact marking.** The integer comparison of the ECN ramp is the rational one, and since the mixer is a
bijection, exactly ceil(P * 2^64) of all payload ids are marked at each depth (`SplitMix`,
`SplitMixReference`, `EcnRamp`).

**Device planes.** Event records, stream rings, compaction, flow control regions and scheduler planes have
the size foreseen, never overlap, and decode to what was encoded, with exact conditions for every refusal
(`EventRecord`, `DeviceStreams`, `Compaction`, `Bitsets`, `PfcRows`, `PfcRegion`, `PfcRestore`, `Rationals`,
`SchedulerPlane`, `SchedulerPrepare`, `SchedulerWords`, `SchedulerRestore`). Three theorems go the whole
way: streams laid out, filled in any interleaving, gathered in any order and decoded (`StreamRoundTrip`),
flow control state laid out and restored into an image (`PfcRoundTrip`), and schedulers
(`SchedulerRoundTrip`). The check that keeps the plain kernel off plans it cannot run refuses exactly those,
for the first reason there is (`PlainKernel`). Capacity retries make geometric progress, stream by stream
and flow by flow, and a warm start plans at the final capacities at once (`CapacityLaws`, `CapacityFloors`,
`CapacityReplay`).

## Where code and documentation differ

- `dcqcn_rate_floor_bps` (executor/src/dcqcn.rs:152-158) is documented as the lowest rate a controller can
  reach. It is a lower bound for every reachable rate, but for even minima no reachable rate is that low;
  for odd minima a controller that starts at its minimum attains the bound. `DcqcnController.DocumentedFloorIsSafe` and
  `DcqcnController.DocumentedFloorIsReached` state both halves.
- The comment before the plain-kernel check (executor/src/device_mechanism.rs:261-263) names packet kinds
  4 and 5. The code also refuses kinds 7 to 11, and so does the model.
- Restoring a scheduler compares weights and quanta with the image but not static priorities
  (executor/src/device_scheduler.rs:348). The model does the same.

## Conventions

Machine words are integers with their range written out; saturating, checked and wrapping operations are
explicit. Errors are `Option` or a `Result`-like value. A future-event list is a set of events with
unique keys; insertion refuses a key that is taken. Parts of a state that only proofs read are marked as
history in the comments of their datatypes.

## Model

| member | source | states |
|---|---|---|
| Events.BelowIsLeastBelow | executor/src/event.rs:57-66 | some event lies below a horizon exactly when the least event by (time, phase, origin node, origin sequence) does |
| Events.Least | executor/src/event.rs:57-66 | the event a pop takes is in the list and no event of the list has a smaller key |
| Events.MinTimeIs | executor/src/cpu.rs:668-671 | the minimum an owner reports is the time of some pending event, and no pending event is earlier |
| Events.EqualTimeOrder | executor/src/event.rs:104-115 | at one time arrivals come before completions and timers and these before the next service, whoever produced them; within a phase the producer and its numbering decide |
| LogicalProcess.FindLeast | executor/src/cpu.rs:677-797 | the search returns the least-keyed pending event |
| LogicalProcess.RemoveSuperseded | executor/src/scalar.rs:1185-1205 | it succeeds exactly if no timer is listed more often than pending events carry it; then for each timer as many of its carriers as it is listed are gone, the least-keyed ones, and every other event stays |
| Timers.CarriesIsFound | executor/src/scalar.rs:1144-1184 | an event carries a timer exactly if the search of the key range of its deadline and owner, by kind, target and payload, finds it |
| Timers.RemovalSucceeds | executor/src/scalar.rs:1185-1205 | for every list of timers, removal fails exactly if some timer is listed more often than pending events carry it |
| Timers.RemovalLeaves | executor/src/scalar.rs:1185-1205 | a successful removal takes exactly as many events as timers are listed: of each timer as many carriers as it is listed, the least-keyed, and no event that carries no listed timer |
| LogicalProcess.Deliver | executor/src/cpu.rs:677-797 | children are routed in order: local ones enter the event list unless their key is taken, remote ones the outbox unless it is full |
| LogicalProcess.RouteIs | executor/src/cpu.rs:677-797 | routing succeeds exactly if local keys are fresh and distinct and the remote children fit the outbox; then local children are pending and remote ones follow in the outbox, in their order |
| LogicalProcess.ContinuationIsLeast | executor/src/event.rs:134-146 | a same-time transmit-ready continuation is new, inserting it succeeds, and it is then the least event: so running it directly equals inserting and popping it |
| LogicalProcess.RunEvent | executor/src/cpu.rs:677-797 | running a popped event succeeds exactly when the plain transition does and leaves its result, the continuation counted as pending |
| LogicalProcess.Pop | executor/src/cpu.rs:677-797 | the event kept aside, or else the list minimum, is the least of all pending events |
| LogicalProcess.DrainLp | executor/src/cpu.rs:677-797 | a successful drain leaves unique keys and nothing below the horizon |
| LogicalProcess.CpuLp.constructor | executor/src/cpu.rs:659-666 | a process starts with the given state and events |
| LogicalProcess.CpuLp.NextTime | executor/src/cpu.rs:668-671 | the next time is the least pending time, absent exactly without events |
| LogicalProcess.CpuLp.Insert | executor/src/cpu.rs:4714-4762 | an event enters exactly when its key is free, and nothing else changes |
| LogicalProcess.CpuLp.Drain | executor/src/cpu.rs:677-797 | the in-place drain, with its continuation shortcut and 64-bit counter, fails exactly when the simple pop-and-dispatch drain does and otherwise ends in its state, events and outbox |
| Serial.FinishesOnce | executor/src/scalar.rs:874-908 | the serial machine that always pops the globally least event has one number of steps and one final state |
| Serial.StepsCompose | executor/src/scalar.rs:874-908 | a stretch of a serial run up to an earlier horizon followed by the rest is the whole run |
| Serial.EnqueueResult | executor/src/scalar.rs:874-908 | inserting children leaves exactly the old events and the children, and succeeds if their keys are fresh |
| Serial.RouteLeaves | executor/src/cpu.rs:677-797 | routing splits children into the local list and the outbox, losing and inventing none |
| Rounds.TimersAreLocal | executor/src/scalar.rs:1185-1205 | removing the timers of a process from its own list equals removing them from the list of all events of the simulation |
| Rounds.StepCommutes | executor/src/cpu.rs:677-797 | when a process holds the least event of all, its local step is the step of the serial machine on the flattened configuration, and key uniqueness is kept |
| Rounds.LeastIsLocal | executor/src/cpu.rs:677-797 | during a round the globally least event below the horizon is never in an outbox: it is the next event of its own process |
| Rounds.DrainsRunSerially | executor/src/cpu.rs:677-797 | drains of all processes, in any interleaving, run exactly the events a serial machine runs below the horizon |
| Executor.BarrierKeepsEvents | executor/src/cpu.rs:4714-4762 | delivery at the barrier changes where events are, not which are pending |
| Executor.BarrierIsGood | executor/src/cpu.rs:4714-4762 | after delivery keys are unique across all processes and below the cursors of their producers |
| Executor.RoundIsSerial | executor/src/cpu.rs:2395-2403 | a successful round is a stretch of the serial run up to its horizon |
| Executor.RoundsAreSerial | executor/src/cpu.rs:2395-2557 | for every deterministic local step and every lookahead, a successful run of rounds ends in exactly the states and pending events of the serial machine |
| Completeness.StepReflects | executor/src/cpu.rs:677-797 | what the serial machine can run, the process that holds it can run |
| Completeness.BarrierAccepts | executor/src/cpu.rs:4714-4762 | if transitions keep the lookahead, every remote event is at or above the horizon and the barrier never refuses |
| Completeness.RoundSucceeds | executor/src/cpu.rs:2395-2557 | the next round of a run that the serial machine finishes succeeds and runs at least one event |
| Completeness.SerialIsRounds | executor/src/cpu.rs:2395-2557 | conversely, if transitions keep the lookahead and the serial machine finishes within the 64-bit counters, rounds finish too, in the same state |
| RoundBound.FrontierPassesHorizon | executor/src/cpu.rs:4621-4638 | after a round nothing is pending below its horizon |
| RoundBound.RoundsFitTheTime | executor/src/cpu.rs:2395-2403 | rounds times lookahead never exceeds the time from the first event to the end plus lookahead minus one, for every run, successful or not |
| RoundBound.RoundsSpendEvents | executor/src/cpu.rs:2395-2403 | every round of a successful run spends at least one event of the serial run |
| RoundBound.RoundsWithinDerivedBound | executor/src/cuda.rs:4007-4038 | no successful run exceeds the planned round bound, if the event bound covers the events it runs |
| RoundBound.OneRoundWithoutChannels | executor/src/cuda.rs:4007-4038 | without cross-process channels one round is enough |
| RoundBound.BoundIsTight | executor/src/cuda.rs:4007-4038 | the planned bound exceeds neither the time term, the least number of lookaheads that reach the end, nor the event bound by more than two |
| FrontierIndex.RootIsLeast | executor/src/cpu.rs:944-953 | in an ordered heap no entry is less than the root by (time, node, slot) |
| FrontierIndex.DetachKeepsOthers | executor/src/cpu.rs:977-989 | moving the last entry over a removed one keeps heap and index mutual inverses and drops that slot only |
| FrontierIndex.OwnerFrontierIndex.constructor | executor/src/cpu.rs:893-901 | a new index is empty |
| FrontierIndex.OwnerFrontierIndex.Update | executor/src/cpu.rs:902-943 | recording a next time refines a plain map from slot to (time, node): set, replace or remove; an unknown slot is refused and changes nothing |
| FrontierIndex.OwnerFrontierIndex.PeekMin | executor/src/cpu.rs:944-953 | the peeked entry is the least by (time, node, slot) of the map, absent exactly for the empty map |
| FrontierIndex.OwnerFrontierIndex.PopBefore | executor/src/cpu.rs:954-968 | the popped entry is the least and lies before the horizon, only its slot leaves the map; nothing pops exactly when all lie at or after the horizon |
| FrontierIndex.OwnerFrontierIndex.RestoreAt | executor/src/cpu.rs:969-976 | a heap ordered except around one place is ordered again, with the same map |
| FrontierIndex.OwnerFrontierIndex.RemoveAt | executor/src/cpu.rs:977-989 | removal keeps order and links and drops exactly that slot |
| FrontierIndex.OwnerFrontierIndex.SiftUp | executor/src/cpu.rs:990-1000 | sifting up restores the order without changing the map |
| FrontierIndex.OwnerFrontierIndex.SiftDown | executor/src/cpu.rs:1001-1020 | sifting down restores the order without changing the map |
| FrontierIndex.OwnerFrontierIndex.Swap | executor/src/cpu.rs:1021-1026 | a swap keeps heap and index mutual inverses |
| RadixSort.BucketStarts | executor/src/cpu.rs:3782-3810 | after counting and prefix sums each entry is the number of events with a smaller byte |
| RadixSort.CountingPass | executor/src/cpu.rs:3782-3810 | one scatter pass is the stable partition by that byte |
| RadixOrder.DigitsAreTheOrder | executor/src/cpu.rs:3870-3880 | comparing the 34 bytes from the last pass down is comparing by (target, time, phase, origin node, origin sequence) |
| RadixOrder.PassesSort | executor/src/cpu.rs:3782-3810 | after n passes the events are sorted by their low n bytes and are a permutation of the input |
| RadixOrder.PassesAreStable | executor/src/cpu.rs:3782-3810 | events that agree in the first n bytes keep their order through n passes |
| RadixOrder.AllPassesSort | executor/src/cpu.rs:3782-3810 | all 34 passes give a sorted, stable permutation |
| RadixPasses.ConstantPass | executor/src/cpu.rs:3782-3810 | a pass over a byte that never varies moves nothing |
| RadixPasses.VaryingByteMask | executor/src/cpu.rs:3833-3841 | the mask holds exactly the passes whose byte of the difference word is not zero |
| RadixPasses.VaryingBytes | executor/src/cpu.rs:3811-3832 | folding exclusive-or differences finds exactly the passes whose byte differs between two envelopes |
| RadixPasses.SortEnvelopes | executor/src/cpu.rs:3782-3810 | the sort that skips constant bytes returns exactly the result of all 34 passes: a sorted, stable permutation |
| RemoteMerge.SortedMergesAlike | executor/src/cpu.rs:4714-4762 | sorting a batch changes neither whether it can be merged nor what the merge leaves |
| RemoteMerge.KeyTaken | executor/src/cpu.rs:4714-4762 | while merging, a key is taken exactly when the process had it before or an earlier event of the batch brought it |
| RemoteMerge.AdmissibleNext | executor/src/cpu.rs:4714-4762 | one more event of a batch is admissible exactly when it fits its process as it is now |
| Shard.RouteOutbox | executor/src/cpu.rs:4532-4648 | an outbox is split by the owner of each target, and refused exactly when a target is unknown |
| Shard.LeastEntryIsMin | executor/src/cpu.rs:4532-4648 | the least entry of the index is the least pending time of the whole shard |
| Shard.RoundIsDone | executor/src/cpu.rs:4532-4648 | when the index has nothing before the horizon, every process of the shard has been drained in effect |
| Shard.GroupEnd | executor/src/cpu.rs:4714-4762 | the end of a run of equal targets |
| Shard.WorkerShard.constructor | executor/src/cpu.rs:3999-4016 | a new shard indexes every process by its next event |
| Shard.WorkerShard.DrainOwnedRound | executor/src/cpu.rs:4532-4648 | one round of a shard fails exactly when some drain does; otherwise every process is drained, what was sent to each owner is exactly what the drains sent, and the reported minimum is true and at or past the horizon |
| Shard.WorkerShard.MergeStaticRemote | executor/src/cpu.rs:4649-4762 | a batch is merged exactly when targets are owned here, times are at or above the floor and keys are fresh; then every event is in its process and the index is right |
| PoolLemmas.FoldedMinimumIsTrue | executor/src/cpu.rs:2508-2550 | the folded minimum of an owner is the least time of what it kept and what every worker sent to it |
| PoolLemmas.FoldedCountIsTrue | executor/src/cpu.rs:2508-2550 | the folded batch count of an owner is the number of workers that sent to it |
| PoolLemmas.LeastIsFrontier | executor/src/cpu.rs:2395-2397 | the least of the published minima is the frontier of the whole configuration |
| PoolMerges.BatchIsDue | executor/src/cpu.rs:1917-2028 | a batch in the queues of a waiting worker is one it has not merged, holds exactly what its sender sent, and belongs to the completed round or the next |
| PoolDrains.SealedInbox | executor/src/cpu.rs:1917-2028 | when the published count is reached, exactly the batches of the completed round have been merged |
| PoolCoordinator.AllAccepted | executor/src/cpu.rs:2042-2072 | the barrier accepts a round exactly when every worker can merge what was sent to it |
| PoolCoordinator.RoundConfirmed | executor/src/cpu.rs:2391-2557 | the round that all workers completed is the next round of the round executor |
| PoolRuns.InitialInv | executor/src/cpu.rs:448-542 | the invariant holds at the start |
| PoolRuns.ActKeeps | executor/src/cpu.rs:1734-1894 | every step of every thread keeps the invariant |
| PoolRuns.RunsKeepInvariant | executor/src/cpu.rs:1734-2028 | in no interleaving is a mismatch branch reached: no batch of a wrong round, no second command, no surplus batch, no unexpected or repeated reply |
| PoolRuns.BatchesAreExpected | executor/src/cpu.rs:1917-2028 | every batch a worker reads is tagged with its completed round or the next |
| PoolRuns.DrainsAfterBarrier | executor/src/cpu.rs:440-447 | in every interleaving a worker starts the next round only after merging exactly what all workers sent to it in the last one and nothing of the next; its processes are then those of the barrier |
| PoolRuns.MinimaAreTrue | executor/src/cpu.rs:2508-2550 | whenever the coordinator chooses a horizon, its minimum for each worker is the true least time among what the worker holds and what waits unmerged in its queues |
| PoolRuns.PoolIsExecutor | executor/src/cpu.rs:2368-2557 | a run of the pool that ends has computed what the round executor computes |
| PoolRuns.PoolIsSerial | executor/src/cpu.rs:2368-2557 | every interleaving of the pool that ends, ends in the states and pending events of the serial machine |
| PoolRuns.NeverStuck | executor/src/cpu.rs:1734-2028 | while a run has neither ended nor aborted, some thread can act |
| PoolAborts.AbortIsReal | executor/src/cpu.rs:1734-1894 | a step aborts the pool only if the round executor fails on the same input |
| PoolAborts.PoolAbortsWithExecutor | executor/src/cpu.rs:2368-2557 | a run that aborts, aborts because the round executor fails |
| PoolAborts.OneOutcome | executor/src/cpu.rs:2368-2557 | the schedule does not matter: two runs that end both abort or end in the same states |
| PoolAborts.CausalPoolSucceeds | executor/src/cpu.rs:2368-2557 | if transitions keep the lookahead and the serial machine finishes, no schedule of the pool aborts, and every one that ends has the serial result |
| PoolProgress.ActSpends | executor/src/cpu.rs:1734-2028 | every action that does not abort spends some of the work that is left |
| PoolProgress.RunsAreBounded | executor/src/cpu.rs:1734-2028 | no schedule of the pool is longer than the work there was at the start |
| PoolProgress.RunsEnd | executor/src/cpu.rs:2368-2557 | from every reachable state, going on leads to an end or an abort |
| PoolProgress.PoolFinishes | executor/src/cpu.rs:2368-2557 | if transitions keep the lookahead and the serial machine finishes, every schedule can be carried on to the end, with the serial result |
| Classified.FoldPresence | executor/src/cpu.rs:1424-1445 | the fold of the presence flags is their disjunction |
| Classified.RouteIsRight | executor/src/cpu.rs:1447-1474 | every routing index is in range; with two or more workers stragglers go to dedicated workers and only they do |
| Classified.DedicatedIsMost | executor/src/cpu.rs:1447-1454 | with a straggler anywhere the configured count of workers is set aside whenever that leaves a bulk worker, otherwise all but one |
| Classified.RouteSpreads | executor/src/cpu.rs:1455-1474 | neighbouring stragglers go to different dedicated workers while there are enough, neighbouring displaced bulk to different bulk workers, and bulk whose owner is not dedicated stays with it |
| Classified.SortByWorker | executor/src/cpu.rs:1455-1476 | each worker gets exactly the items routed to it, in order |
| Classified.EachRunsOnce | executor/src/cpu.rs:1455-1476 | the lists of all workers together are the active list: each item is in one of them, as often as it was there |
| ClassifiedShard.SlottedShard.constructor | executor/src/cpu.rs:3999-4016 | every process is in its slot and indexed by its next event |
| ClassifiedShard.SlottedShard.Extract | executor/src/cpu.rs:4018-4043 | exactly the processes with an event below the horizon leave their slots, each once, and the index follows |
| ClassifiedShard.SlottedShard.Restore | executor/src/cpu.rs:4665-4689 | every process enters its own slot and the index; it fails exactly if one does not live here, or its slot is taken or not there |
| ClassifiedShard.SlottedShard.Merge | executor/src/cpu.rs:4714-4762 | every process gets exactly the events sent to it; it fails exactly if an event finds no process in its slot, lies below the floor or repeats a key |
| ClassifiedShard.SlottedShard.RestoreClassifiedRound | executor/src/cpu.rs:4665-4712 | processes are restored, what was sent to them is merged and the least time of all is reported; it fails exactly if one of them is refused or an event below the horizon is left |
| ClassifiedSlots.ExtractIsStep | executor/src/cpu.rs:4018-4043 | taking the due processes out of the slots of a shard is what the first step of its worker in the classified pool does |
| ClassifiedSlots.SortedIsWork | executor/src/cpu.rs:1455-1490 | sorting the active processes by worker gives each worker just the processes that the message to it carries |
| ClassifiedSlots.RestoreIsStep | executor/src/cpu.rs:1594-1654 | restoring, merging and finding the least time on the slots of a shard succeeds exactly when the last step of its worker does, and leaves the same processes and the same least time |
| ClassifiedRound.FlagsTell | executor/src/cpu.rs:1399-1445 | the flags of all workers tell whether any process anywhere is a straggler |
| ClassifiedRound.StragglerIs | executor/src/cpu.rs:1399-1424 | a process is a straggler exactly if more of its pending events than the threshold lie below the horizon |
| ClassifiedRound.AllRunAndComeHome | executor/src/cpu.rs:1455-1513 | each active process is handed to exactly one worker, in range, and goes home to its owner only |
| ClassifiedRound.MailIsInbox | executor/src/cpu.rs:1553-1620 | what all workers send to the owner of a process holds for that process just what the barrier of the executor delivers |
| ClassifiedRound.RoundIsExecutors | executor/src/cpu.rs:1395-1667 | if every worker runs its part and merges what it is sent, the classified round is the round of the executor |
| ClassifiedSteps.ContentIsDue | executor/src/cpu.rs:1399-1620 | in each of the three exchanges a worker sends what is due: its flag, the processes routed to the receiver, and the drained processes of the receiver with the events for it |
| ClassifiedSteps.SentSoRan | executor/src/cpu.rs:1515-1620 | a worker that has sent what it ran has drained all of it |
| ClassifiedSteps.FinishOk | executor/src/cpu.rs:4665-4712 | the last step of a worker never finds a stranger, a taken or empty slot or an event below the horizon; unless the merge fails, every slot then holds its own drained process with its events |
| ClassifiedSteps.OpenBetween | executor/src/cpu.rs:2420-2557 | when all workers have reported, every process is home as the executor leaves it and every reported least time is true |
| ClassifiedRuns.RunsKeepInvariant | executor/src/cpu.rs:1360-1714 | in no interleaving does a worker read a message of another round, a second one of the same worker, or of the wrong kind, route by zero dedicated workers, or refuse a process that comes home |
| ClassifiedRuns.SameDedicated | executor/src/cpu.rs:1424-1453 | past the first exchange every worker knows whether there is a straggler anywhere: all set aside the same number of workers, and all routing indices are defined |
| ClassifiedRuns.EachRunsOnce | executor/src/cpu.rs:1492-1513 | past the second exchange a worker holds exactly the active processes routed to it, as the round found them |
| ClassifiedRuns.KindsStayApart | executor/src/cpu.rs:1447-1513 | with two workers or more none ever gets both stragglers and bulk: the dedicated workers, the same for all, get the stragglers and nothing else |
| ClassifiedRuns.AllComeHome | executor/src/cpu.rs:1622-1667 | the step that completes the round of a worker has back exactly the processes the worker took out, leaves every slot with its own drained process and its events, and reports the true least time; only then does the round advance |
| ClassifiedRuns.PoolIsExecutor | executor/src/cpu.rs:1360-1714 | a run of the classified pool that ends has computed what the round executor computes |
| ClassifiedRuns.PoolIsSerial | executor/src/cpu.rs:1360-1714 | and so it ends in the states and pending events of the serial machine |
| ClassifiedRuns.AbortIsReal | executor/src/cpu.rs:1360-1714 | the classified pool fails only where the executor fails |
| ClassifiedRuns.NeverStuck | executor/src/cpu.rs:1360-1714 | until it is over or has failed, some step of the classified pool is possible |
| ClassifiedProgress.RunsAreCounted | executor/src/cpu.rs:1360-1714 | a run has exactly as many steps as messages sent and read and rounds opened |
| ClassifiedProgress.RunsAreBounded | executor/src/cpu.rs:1360-1714 | no run is longer than the messages of all rounds that a 64-bit round number allows |
| ClassifiedProgress.RunsEnd | executor/src/cpu.rs:1360-1714 | whatever was scheduled so far, the classified pool reaches an end |
| ClassifiedProgress.PoolFinishes | executor/src/cpu.rs:1360-1714 | if transitions keep the lookahead and the serial machine finishes, every schedule can be carried on to an end, with the serial result |
| ClassifiedProgress.PoolsAgree | executor/src/cpu.rs:1360-1714 | the static and the classified pool, whatever their schedules, thresholds and dedicated workers, end with the same processes |
| Exchange.HeadIsDue | executor/src/cpu.rs:1424-1443 | the message a worker reads next is of its round and from a worker it has not read in this stage |
| Exchange.RunsKeepInvariant | executor/src/cpu.rs:1360-1714 | in no interleaving does a worker read a message of another round or two of one worker in a stage |
| Exchange.LeavesWithAll | executor/src/cpu.rs:1360-1714 | a worker leaves a stage only after reading from every worker |
| Exchange.NeverStuck | executor/src/cpu.rs:1360-1714 | the exchanges never deadlock |
| Dispatch.Chunked | executor/src/cpu.rs:2839-2921 | chunks joined are the bulk list, none is empty or too long, and all but the last are full |
| Dispatch.DedicatedFits | executor/src/cpu.rs:2839-2921 | the dedicated count is at most the workers and the stragglers, positive when there are stragglers, and leaves a bulk worker unless there is one worker only |
| Dispatch.DedicatedIsMost | executor/src/cpu.rs:2839-2921 | as many workers are set aside as configured, needed and possible |
| DispatchSteps.ActKeeps | executor/src/cpu.rs:2965-3119 | every step of the coordinator and of each worker keeps the invariant |
| DispatchRuns.RunsKeepInvariant | executor/src/cpu.rs:3120-3155 | no run dispatches to a busy worker or meets an answer it does not expect |
| DispatchRuns.EveryChunkOnce | executor/src/cpu.rs:2965-3119 | when the round ends every chunk has been executed exactly once and reported once |
| DispatchRuns.ExecutedIsPart | executor/src/cpu.rs:2965-3119 | at any time what has been executed is a part of the chunks, none of them twice |
| DispatchRuns.KindsStayApart | executor/src/cpu.rs:2965-3119 | with two or more workers none ever has chunks of both kinds |
| DispatchRuns.NeverStuck | executor/src/cpu.rs:2965-3119 | until every chunk is complete some step is possible, the single worker with both kinds included |
| DispatchProgress.RunsAreBounded | executor/src/cpu.rs:2965-3119 | no round takes more than eight steps for each chunk, two for each worker and four |
| DispatchProgress.RunsEnd | executor/src/cpu.rs:2965-3119 | whatever was scheduled so far, the round reaches its end, with every chunk executed exactly once |
| DispatchRound.SameNodes | executor/src/cpu.rs:2965-3119 | the processes that are run do not depend on the order in which chunks are executed |
| DispatchRound.DispatchIsRound | executor/src/cpu.rs:2965-3119 | when a dispatched round whose chunks hold each active process once has ended, the chunks that were executed, in whatever order, leave every process as the drains of the executor do, and fail where they fail |
| DispatchRound.FailureIsReal | executor/src/cpu.rs:2965-3119 | a chunk that fails, whenever it is executed, shows that the round of the executor fails |
| DispatchPartition.PartitionRound | executor/src/cpu.rs:2839-2921 | active processes are cut into one chunk for each straggler and full chunks of the rest, with the dedicated count of the round |
| DispatchPartition.PartitionHolds | executor/src/cpu.rs:2839-2921 | the chunks of a partition hold each active process exactly once |
| DispatchPartition.ThresholdTells | executor/src/cpu.rs:2839-2921 | as many events as the threshold make bulk, one more a straggler, and without a threshold there are none |
| DispatchPartition.StaticSizeIsLeast | executor/src/cpu.rs:2839-2921 | static chunks are the smallest with which every bulk worker gets one at most |
| DispatchPartition.BulkWorkersAre | executor/src/cpu.rs:2839-2921 | the bulk workers that static chunks are cut for are those not set aside, or the only worker there is |
| DispatchPartition.FixedChunks | executor/src/cpu.rs:2839-2921 | with a fixed size every bulk chunk but the last has it, and the last no more |
| DispatchPartition.TurnIsRound | executor/src/cpu.rs:2839-3119 | a round, cut from the active processes in any order and dispatched in any schedule, is that of the executor, and fails where it fails |
| DispatchPartition.DispatchIsExecutor | executor/src/cpu.rs:2106-2363 | a whole run of dispatched rounds, whatever was cut how and scheduled how, ends or fails as the run of the executor |
| DispatchPartition.DispatchIsSerial | executor/src/cpu.rs:2106-2363 | and so it ends in the states and pending events of the serial machine |
| DispatchPartition.DispatchEnds | executor/src/cpu.rs:2106-2363 | for every configuration there is a run of dispatched rounds that reaches an end |
| Placement.StaysNearAverage | executor/src/cpu.rs:3396-3415 | giving the next item to a least loaded worker keeps W times every load within the total plus W - 1 times the heaviest item |
| Placement.HeavyItemFits | executor/src/cpu.rs:3396-3415 | in descending order an item of more than a third of the optimum always fits on some worker within the optimum |
| Placement.StepWithinGraham | executor/src/cpu.rs:3396-3415 | placing by descending load, no load exceeds 4/3 - 1/(3W) of the heaviest load of any other placement |
| ShardSteps.DrainsIsDrainable | executor/src/cpu.rs:4532-4648 | the shard of a worker drains exactly if the step of that worker in the pool does |
| ShardSteps.DrainIsStep | executor/src/cpu.rs:4532-4648 | after its drains the shard holds, sends and reports what the step of its worker in the pool does |
| ShardSteps.MergeIsStep | executor/src/cpu.rs:4649-4762 | the shard merges a list of events exactly if the step of its worker merges the batch, with the same result |
| Ownership.DealByNumber | executor/src/cpu.rs:3391-3395 | processes are dealt round robin, each once |
| Ownership.LeastLoaded | executor/src/cpu.rs:3396-3415 | the chosen worker is least by (load, process count, number) |
| Ownership.DealByLoad | executor/src/cpu.rs:3396-3415 | each process is dealt once; while sums stay below 2^128 every load is near the average, and within the Graham bound for descending loads |
| Ownership.BuildPlacement | executor/src/cpu.rs:3418-3434 | the table is built exactly when every process is owned, and leads to the slot that holds it |
| Ownership.Rank | executor/src/cpu.rs:3397-3405 | processes are ranked by descending load, and by number among equals |
| Ownership.RankingIs | executor/src/cpu.rs:3397-3405 | in a ranking the heavier comes first, of two equals the lower number, and a process without an entry counts as idle |
| Ownership.PlaceStatically | executor/src/cpu.rs:3380-3449 | under either policy placement and ownership lists are inverse to each other; by load, while sums stay below 2^128, every worker is near the average and within 4/3 - 1/(3W) of the best any assignment achieves |
| Dcqcn.CutRoundsDown | executor/src/dcqcn.rs:372-387 | the fixed-point cut leaves floor(rate * (2^64 - alpha) / 2^64) |
| DcqcnEager.AlphaIdentity | executor/src/dcqcn.rs:346-371 | the fixed-point alpha tick is the direct moving average, rounded down once |
| DcqcnEager.CatchUp | executor/src/dcqcn.rs:346-371 | catching up on alpha in one go equals ticking one instant at a time |
| DcqcnEager.GridCount | executor/src/dcqcn.rs:409-420 | the closed form of the next decrease instant is where checking instant by instant arrives |
| DcqcnEager.InstantAgrees | executor/src/dcqcn.rs:272-302 | each instant of the eager machine is one the lazy controller fires too or rightly puts off |
| DcqcnEager.AdvanceAgrees | executor/src/dcqcn.rs:272-302 | firing every instant and firing only the rate-changing ones stay together up to any bound |
| DcqcnEager.FeedbackAgrees | executor/src/dcqcn.rs:303-332 | a feedback keeps both machines together |
| DcqcnEager.SettleAgrees | executor/src/dcqcn.rs:333-345 | a settled controller is the eager machine with its stage saturated |
| DcqcnEager.RunsStayTogether | executor/src/dcqcn.rs:11-19 | for every sequence of feedbacks, ticks and freezes at non-decreasing bounds both machines stay together |
| DcqcnEager.LazyIsEager | executor/src/dcqcn.rs:11-19 | for every such sequence the lazy controller has the rates, flags, increase timer and saturated stage of the machine that fires every instant; after a freeze alpha and all timers too |
| DcqcnRecovery.TargetIsRecovered | executor/src/dcqcn.rs:272-420 | after n increases since a cut the target is the one at the cut, plus the additive rate once and the hyper rate for each increase after that, from the end of fast recovery on and never above the maximum |
| DcqcnRecovery.RunsRecover | executor/src/dcqcn.rs:272-420 | in every run, once cut and while no further cut is due, a tick leaves the target that the increases due before it give |
| DcqcnRecovery.CutThenRecover | executor/src/dcqcn.rs:372-420 | a cut leaves as target the rate before it, or between cuts without an increase, unless clamped, the target there was; the increases after it raise that, and before the first the rate is the cut rate, rounded down |
| DcqcnRecovery.FirstCut | executor/src/dcqcn.rs:303-387 | without further feedback the first cut comes one decrease interval and one tick of the clock after the first feedback, with alpha decayed once for each alpha interval between them; rate and target are the initial ones before it |
| DcqcnController.ReactionPoint.constructor | executor/src/dcqcn.rs:202-231 | a new controller is pristine |
| DcqcnController.ReactionPoint.ApplyAlphaThrough | executor/src/dcqcn.rs:346-371 | the loop that stops early at zero applies exactly the ticks due |
| DcqcnController.ReactionPoint.ApplyDecreaseCheck | executor/src/dcqcn.rs:372-387 | the in-place check is the specified one, without under- or overflow |
| DcqcnController.ReactionPoint.ApplyIncrease | executor/src/dcqcn.rs:388-406 | the in-place increase is the specified one, without overflow: the target is kept during fast recovery, raised by the additive rate at its end and by the hyper rate after it, up to the maximum; over whole runs this is `DcqcnRecovery.RunsRecover` |
| DcqcnController.ReactionPoint.Advance | executor/src/dcqcn.rs:272-302 | the in-place loop applies exactly the rate-changing instants before the bound |
| DcqcnController.ReactionPoint.Feedback | executor/src/dcqcn.rs:303-332 | a feedback has the specified effect |
| DcqcnController.ReactionPoint.Freeze | executor/src/dcqcn.rs:333-345 | a settle has the specified effect |
| DcqcnController.ReachableIsSound | executor/src/dcqcn.rs:202-231 | every reachable state keeps alpha at most 2^63, both rates between 2 * floor(min / 2) and the maximum, the current rate at most the larger of target and minimum, and the stage at most steps + 1 |
| DcqcnController.MaterializeSplits | executor/src/dcqcn.rs:272-302 | materializing to an earlier bound first changes nothing |
| DcqcnController.DecayLowers | executor/src/dcqcn.rs:346-371 | decay lowers a positive alpha exactly when the gain is positive |
| DcqcnController.DecayReachesZero | executor/src/dcqcn.rs:346-371 | with a positive gain alpha reaches zero, where stopping early loses nothing |
| DcqcnController.DecayEnds | executor/src/dcqcn.rs:346-371 | decay ever reaches zero exactly with a positive gain, or from zero |
| DcqcnController.DocumentedFloorIsSafe | executor/src/dcqcn.rs:152-160 | the documented rate floor is below every reachable rate, strictly so for even minima |
| DcqcnController.DocumentedFloorIsReached | executor/src/dcqcn.rs:152-160 | for odd minima the documented floor is reached |
| SplitMix.XorShiftInverse | executor/src/splitmix.rs:7-12 | an exclusive-or shift by at least a third of the word has an explicit inverse on both sides |
| SplitMix.MulInverse | executor/src/splitmix.rs:7-12 | wrapping multiplication by an odd constant is undone by its inverse modulo 2^64 |
| SplitMix.MixIsBijection | executor/src/splitmix.rs:7-12 | the mixer is a bijection on 64-bit words, with an explicit inverse |
| SplitMixReference.FirstOutput | executor/src/splitmix.rs:7-12 | the mixer maps zero to the first output of the SplitMix64 reference generator seeded with zero |
| EcnRamp.DrawIsBijection | executor/src/ecn_ramp.rs:45-49 | at one queue payload ids and draws correspond one to one |
| EcnRamp.KeysAreDistinct | executor/src/ecn_ramp.rs:40-44 | distinct queues of a node, and distinct nodes at one queue index, have distinct keys |
| EcnRamp.SeedsAreDistinct | executor/src/ecn_ramp.rs:40-42 | at one queue distinct seeds give distinct keys |
| EcnRamp.KeyTellsSeed | executor/src/ecn_ramp.rs:40-42 | a key gives its seed back when the queue is taken off first, then the node, then the domain |
| EcnRamp.Gcd | executor/src/ecn_ramp.rs:120-125 | the loop returns the greatest common divisor |
| EcnRamp.PolicyCheck | executor/src/ecn_ramp.rs:94-118 | a policy is accepted exactly when its thresholds are ordered, its probability is a reduced fraction of at most one and the span fits |
| EcnRamp.SpanAndBoundFit | executor/src/ecn_ramp.rs:51-58 | inside the ramp of an accepted policy the bound is below the span and both fit a word |
| EcnRamp.HighIsExact | executor/src/ecn_ramp.rs:59-92 | comparing the high word of the product is comparing the exact rational |
| EcnRamp.DecisionIsExact | executor/src/ecn_ramp.rs:59-92 | inside the ramp an ECN-capable arrival is marked exactly when draw / 2^64 < pmax * (depth - kmin) / (kmax - kmin) |
| EcnRamp.DecisionOutsideRamp | executor/src/ecn_ramp.rs:59-92 | an arrival is dropped exactly if with it the queue exceeds its capacity or a word; what fits is enqueued without ECN or below kmin, and marked from kmax on |
| EcnRamp.QueueKeepsCapacity | executor/src/ecn_ramp.rs:59-92 | over any sequence of arrivals and departures the queue never exceeds its capacity, what is queued and what was dropped never exceed what was offered, and nothing is dropped while all that was offered fits |
| EcnRamp.DrawIsUnused | executor/src/ecn_ramp.rs:59-92 | outside the ramp, or without ECN capability, the draw has no effect |
| EcnRamp.RampEnds | executor/src/ecn_ramp.rs:59-92 | the ramp never marks at its foot, and a step marks from its threshold on |
| EcnRamp.ActionIsMonotone | executor/src/ecn_ramp.rs:59-92 | for one arrival the action never becomes milder as the queue grows; where it changes is `EcnRamp.DecisionOutsideRamp` and `EcnRamp.DecisionIsExact` |
| EcnRamp.MarkedPayloads | executor/src/ecn_ramp.rs:13-16 | at each depth of the ramp exactly ceil(P * 2^64) of all payload ids are marked |
| EventRecord.RecordComesBack | executor/src/device_event_record.rs:69-152 | the stored form gives a record back exactly when its place tells the words that were not stored, for every class |
| EventRecord.ServiceKeepsEvent | executor/src/device_event_record.rs:107-152 | a service record always gives the event itself back |
| EventRecord.StoredLayout | executor/src/device_event_record.rs:69-106 | each class stores the key, then the payload, then its packet words, at these places |
| EventRecord.PhaseTellsService | executor/src/device_event_record.rs:107-152 | of the two service kinds the phase tells which it was |
| Compaction.CheckEntity | executor/src/device_compaction.rs:167-241 | the overflow-checked test is exactly that head, count and live region fit ring and plane |
| Compaction.NewPlan | executor/src/device_compaction.rs:167-241 | a plan is made exactly for metadata that fits, with destinations that are prefix sums of the counts |
| Compaction.PlacesDiffer | executor/src/device_compaction.rs:274-286 | different live records never share an output word |
| Compaction.CopyRecord | executor/src/device_compaction.rs:297-312 | one copy puts one live record in its place and touches nothing else |
| Compaction.GatherEntity | executor/src/device_compaction.rs:297-312 | one thread gathers its entity and leaves all others as they are |
| Compaction.Gather | executor/src/device_compaction.rs:297-312 | run in any order, every entity is gathered, its records in logical order |
| Compaction.TileOf | executor/src/device_compaction.rs:274-286 | every output record belongs to some live record: no gaps |
| Compaction.GatherIsUnique | executor/src/device_compaction.rs:297-312 | any way of gathering all entities gives the same buffer |
| Compaction.PopDropsFirst | executor/src/device_compaction.rs:297-312 | a ring whose head moves on by one has the same live records in the same order, without the first |
| DeviceStreams.StreamsAreApart | executor/src/cuda.rs:4053-4078 | the streams laid out never overlap |
| DeviceStreams.EqualRings | executor/src/cuda.rs:4053-4078 | channels take eleven words a record, services five and generators ten, in this order: rings of one capacity lie where those counts say |
| DeviceStreams.AssignStreamOffsets | executor/src/cuda.rs:4053-4078 | every row gets the prefix sum of sizes before it; it fails exactly when the total does not fit; heads and counts are kept |
| DeviceStreams.RingPush | executor/src/cuda.rs:4342-4376 | a push appends to the logical sequence of its ring, is refused exactly when full, and writes only inside the ring |
| DeviceStreams.OtherRingsKept | executor/src/cuda.rs:4342-4376 | a push leaves every ring that lies elsewhere as it was |
| DeviceStreams.QueuePush | executor/src/cuda.rs:4342-4376 | a queue push appends its packet and adds its bytes, and is refused exactly when the ring is full or the byte total overflows |
| StreamRoundTrip.PushEvent | executor/src/cuda_kernels.cu:1169-1212 | an encoded event enters the ring of its stream behind the others, every other stream is kept, and it is refused exactly when the ring is full |
| StreamRoundTrip.PushAll | executor/src/cuda_kernels.cu:1169-1212 | pushed in any interleaving, every stream holds its own events in order; refused exactly when some ring is too small |
| StreamRoundTrip.ReadClass | executor/src/cuda.rs:5194-5270 | planning, gathering in any order and decoding the streams of one class is never refused and reads every record of every stream |
| StreamRoundTrip.StoreAndRead | executor/src/cuda.rs:4053-4078 | streams laid out, filled in any interleaving, gathered in any order and decoded give every event back in order, each as it was exactly if its place tells the words that are not stored; it fails exactly if the plane is too long or a ring too small |
| Bitsets.EncodeSets | executor/src/device_pfc.rs:355-480 | bit b of row p is set exactly when candidate b is in set p |
| Bitsets.DecodeSet | executor/src/device_pfc.rs:489-595 | decoding gives the candidates whose bits are set |
| Bitsets.SetComesBack | executor/src/device_pfc.rs:489-595 | the bits of a row give its set back exactly |
| Bitsets.BitIsDigit | executor/src/device_pfc.rs:355-480 | bit b of a word is its digit b to the base 2 |
| Bitsets.WordsAreLeast | executor/src/device_pfc.rs:253-354 | the words counted for n bits are the fewest that hold them |
| PfcRows.LinkControllers | executor/src/device_pfc.rs:162-191 | the controllers of a link are, ascending and without repeats, exactly the switches that monitor it and the present holders, so every holder has a bit |
| PfcRows.ParkedSlots | executor/src/device_pfc.rs:441-475 | parked positions become the slots of their queue pairs; it fails exactly if one is not a queue pair |
| PfcRegion.AppendRow | executor/src/device_pfc.rs:380-480 | a row is appended with the foreseen length, its bitsets, monitors, queue pairs and parked sets included, entered in the directory, and nothing else changes; it fails exactly if it is too long or a flow is unknown; what the words of a row are is `PfcRestore.HeaderTells`, `PfcRestore.PauseWords` and `PfcRestore.MonitorWords` |
| PfcRegion.AppendRegion | executor/src/device_pfc.rs:324-480 | the region takes exactly the words foreseen, fails exactly when they do not fit or a flow is unknown, every row stands in it, and the class words carry the slots of all queue pairs |
| PfcRegion.SlotsInClasses | executor/src/device_pfc.rs:375-480 | the class word of a flow gets the slot of its queue pair, and that of every other flow is kept |
| PfcRegion.SlotComesBack | executor/src/device_pfc.rs:319-480 | a class word gives the class of its flow back in the low bits and the slot above them |
| PfcRestore.RowsNeverOverlap | executor/src/device_pfc.rs:355-480 | rows never overlap |
| PfcRestore.HeaderTells | executor/src/device_pfc.rs:380-400 | a row that stands begins with its controller count, monitor count, width, bitset and tail offsets, then its controllers |
| PfcRestore.PauseWords | executor/src/device_pfc.rs:355-480 | the pause bit of a controller for a priority is the digit of its number modulo 64 in the word of its number over 64, and says whether it holds the priority paused |
| PfcRestore.WidthIsLeast | executor/src/device_pfc.rs:253-354 | rows are no wider than the longest controller list needs |
| PfcRestore.MonitorWords | executor/src/device_pfc.rs:355-480 | for every row that stands the words of each monitor are, at their offsets, link, target and delay, then capacity, both thresholds, occupancy and assertion of each priority |
| PfcRestore.RecordTellsMonitor | executor/src/device_pfc.rs:355-480 | equal monitor records come only from equal monitors |
| PfcRestore.RestorePaused | executor/src/device_pfc.rs:489-535 | whatever the device wrote, a pause set read has exactly the controllers whose bits are set |
| PfcRestore.PausedComesBack | executor/src/device_pfc.rs:489-535 | the pause sets read from a row that stands are those it was written from |
| PfcRestore.RestoreMonitor | executor/src/device_pfc.rs:537-595 | a monitor is refused exactly when a fixed word changed or an assertion is not a truth value; otherwise it gets the occupancy and assertions of the record |
| PfcRestore.MonitorComesBack | executor/src/device_pfc.rs:537-595 | a written record is of the monitors that agree with it, and brings its state back |
| PfcRestore.RestoreQueue | executor/src/device_pfc.rs:537-595 | a queue is refused exactly if its row is unexpected, the count or a fixed word of a monitor changed or an assertion is not a truth value; otherwise it gets what the row says |
| PfcRestore.QueueComesBack | executor/src/device_pfc.rs:537-595 | a queue whose row stands comes back as written, and is refused exactly if a monitor is not the written one |
| PfcRestore.RestoreHost | executor/src/device_pfc.rs:489-535 | a host is refused exactly if its row is unexpected or lists other queue pairs; otherwise it gets the pause sets the row says |
| PfcRestore.HostComesBack | executor/src/device_pfc.rs:489-535 | a row that stands lists exactly the queue pairs it was written with |
| PfcRoundTrip.BuildRows | executor/src/device_pfc.rs:162-271 | every node with pause state gets its row and no other does, its controllers exactly the switches that monitor its link and whoever holds it paused; it fails exactly if a parked generator is no queue pair |
| PfcRoundTrip.RowsAreDetermined | executor/src/device_pfc.rs:253-354 | the rows, and so the words the region takes, are determined by the image |
| PfcRoundTrip.ComesBack | executor/src/device_pfc.rs:355-595 | flow control state laid out at the end of any plane and restored into an image: it fits exactly if flows are known, parked generators are queue pairs and the plane is not too long; it is refused exactly if kinds, monitors or queue pairs differ; and all pause sets, occupancies and assertions come back |
| PfcRoundTrip.ImageComesBack | executor/src/device_pfc.rs:355-595 | restoring into the image that was laid out is never refused and changes nothing |
| Rationals.LimbsComeBack | executor/src/device_scheduler.rs:257-291 | five limbs give a number back exactly when it is below 2^320 |
| Rationals.RationalComesBack | executor/src/device_scheduler.rs:257-291 | a rational is read back unreduced as written, exactly when it fits |
| Rationals.WrittenDigits | executor/src/device_scheduler.rs:257-291 | the ten words are the digits of numerator, then denominator, to the base 2^64, the lowest first |
| Rationals.FitsIs320Bits | executor/src/device_scheduler.rs:257-291 | what fits is exactly a numerator and a positive denominator below 2^320 |
| SchedulerPlane.WriteTags | executor/src/device_scheduler.rs:172-197 | the finish tags lie at the ring slots of their packets; it fails exactly if a waiting packet has no tag that fits |
| SchedulerWords.BlockSays | executor/src/device_scheduler.rs:116-237 | the block of a node that stands has the code and class count of its scheduler, the offsets of the records there are and none for those there are not, cursor, virtual time, tag in service and ramp |
| SchedulerWords.EmptyBlockSays | executor/src/device_scheduler.rs:116-129 | a node without a queue is FIFO without records |
| SchedulerWords.ClassSays | executor/src/device_scheduler.rs:142-236 | the record of a class has its fixed value, then its counter, then for WFQ its finish time |
| SchedulerWords.RampSays | executor/src/device_scheduler.rs:131-141 | the record of a ramp is upper threshold, numerator, span and the key of its draws |
| SchedulerWords.TagSays | executor/src/device_scheduler.rs:172-197 | the finish tag of a waiting packet lies at the ring slot that compaction reads the packet from |
| SchedulerPrepare.WriteClasses | executor/src/device_scheduler.rs:142-236 | the class records are written, unless a finish time does not fit |
| SchedulerPrepare.AppendNode | executor/src/device_scheduler.rs:116-237 | the block and records of one node are written, its neighbours kept; it fails exactly if its state does not fit |
| SchedulerPrepare.PrepareSchedulers | executor/src/device_scheduler.rs:106-239 | every node stands in the plane, which has exactly the foreseen length; it fails exactly if some state does not fit or the plane is too long |
| SchedulerPrepare.CountWords | executor/src/device_scheduler.rs:48-104 | the count is the length of plane and region, at least one, and overflows exactly when they do |
| SchedulerRestore.CheckRamp | executor/src/device_scheduler.rs:328-346 | the ramp is accepted exactly when the plane, whatever its words, has it in every word the device holds |
| SchedulerRestore.ReadFinishTimes | executor/src/device_scheduler.rs:348-370 | the finish times of all classes are read, unless a word is missing or a denominator is zero |
| SchedulerRestore.ReadTags | executor/src/device_scheduler.rs:371-390 | every waiting packet gets the tag beside its ring slot, a packet that waits twice the later one; it fails exactly if a word is missing or a denominator is zero |
| SchedulerRestore.RestoreScheduler | executor/src/device_scheduler.rs:309-436 | from a plane of any words, a scheduler is refused exactly when kind, ramp, class count or fixed class values differ, a word is missing or a denominator is zero; otherwise it gets the state in the plane |
| SchedulerRestore.ReadableAgain | executor/src/device_scheduler.rs:309-436 | a scheduler that was laid out can be read into an image exactly if the image agrees with it in kind, ramp and fixed class values |
| SchedulerRestore.ComesBack | executor/src/device_scheduler.rs:309-436 | what is read back is the scheduler that was laid out, exactly if no other packet had a tag; static priorities are those of the image |
| SchedulerRoundTrip.LayOut | executor/src/device_scheduler.rs:48-104 | schedulers and flow control region together take exactly the words counted beforehand, fail exactly if some state does not fit, a flow is unknown or the whole is too long, and appending the region keeps every node |
| SchedulerRoundTrip.ComesBack | executor/src/device_scheduler.rs:106-436 | preparing and restoring succeeds exactly if the image agrees in kind, ramp and fixed class values, and is then the identity for FIFO, WFQ, DRR and WRR; static priorities are those of the image |
| PlainKernel.Refuse | executor/src/device_mechanism.rs:283-441 | the plain kernel is refused exactly when a needed word lies outside its plane or something asks for a mechanism, and the reason given is the first in the order of the check: everything looked at before it is clean |
| PlainKernel.ScanStreams | executor/src/device_mechanism.rs:377-415 | stream records are checked by their class, service streams skipped; what is refused is the first stream and record that is not clean |
| PlainKernel.StaleWordsNeverMatter | executor/src/device_mechanism.rs:283-441 | plans that differ only in dead rows and free slots are accepted or refused alike |
| PlainKernel.PlainKinds | executor/src/image.rs:1047-1067 | of all packet kinds, marked or not, the plain kernel runs plain and TCP packets and no other |
| CapacityLaws.GrowthMoves | executor/src/device_capacity.rs:586-622 | every growth law covers the demand and moves exactly below the ceiling |
| CapacityLaws.GrowthIsExact | executor/src/device_capacity.rs:586-622 | short of the ceiling a capacity grows to twice what is needed, a receiver or ledger to what is needed and its slack, a ledger with a high water to eight times that and eight, if the demand is no more |
| CapacityLaws.PlannedIsLeast | executor/src/device_capacity.rs:668-684 | without an override the planned capacity is the least that is at least resident, at least the floor and at least the smaller of derived and cap, so it exceeds the cap only if one of the first two does; with an override it is the larger of override and floor, whatever was derived |
| CapacityLaws.RaiseMakesProgress | executor/src/device_capacity.rs:623-684 | a retry plans the faulting entity with what it grew to, lowers no entity, and never cuts below what is resident; what it raises is `CapacityLaws.RaiseMovesWhatBinds` |
| CapacityLaws.RaiseMovesWhatBinds | executor/src/device_capacity.rs:619-666 | a fault at the override raises the override and nothing else; any other raises the floor, and the cap if the fault was at the cap |
| CapacityLaws.DoublingIsGeometric | executor/src/device_capacity.rs:604-613 | k doublings of a capacity c give at least 2^k * (c + 2) - 2, or the ceiling |
| CapacityLaws.ReplayPlansAtOnce | executor/src/device_capacity.rs:76-150 | merging a converged floor into the first settings plans every entity at its final capacity and converges to the same floor |
| CapacityLaws.WarmStartConverges | executor/src/device_capacity.rs:152-177 | a warm start from any chain of retries plans every entity at its final capacity at once |
| CapacityFloors.MergePairs | executor/src/device_capacity.rs:178-200 | pairs are merged by key and maximum |
| CapacityFloors.SnapshotComesBack | executor/src/device_capacity.rs:211-232 | reading a snapshot back gives the floors it was taken from |
| CapacityFloors.ChannelCapacityFloors.WarmStarted | executor/src/device_capacity.rs:218-225 | a warm start has the merged capacities and no bases |
| CapacityFloors.ChannelCapacityFloors.Channel | executor/src/device_capacity.rs:233-246 | a stream is planned at the larger of base and floor, and refused exactly when its base changed |
| CapacityFloors.ChannelCapacityFloors.Raise | executor/src/device_capacity.rs:247-288 | a fault that matches the plan raises its stream, and only that one |
| CapacityFloors.TcpCapacityFloors.WarmStarted | executor/src/device_capacity.rs:321-348 | a warm start has the merged floors of the flows the image has |
| CapacityFloors.TcpCapacityFloors.Receiver | executor/src/device_capacity.rs:387-391 | a receiver is planned at the larger of base and class floor, and refused exactly when its base changed |
| CapacityFloors.TcpCapacityFloors.Ledger | executor/src/device_capacity.rs:399-403 | a ledger is planned at the larger of base and floor, and refused exactly when its base changed |
| CapacityFloors.TcpCapacityFloors.RaiseReceiver | executor/src/device_capacity.rs:404-417 | a receiver fault raises the whole class of its flow and no other |
| CapacityFloors.TcpCapacityFloors.RaiseLedger | executor/src/device_capacity.rs:431-451 | a ledger fault raises its own flow and no other |
| CapacityFloors.TcpCapacityFloors.RaiseFromOccupancy | executor/src/device_capacity.rs:452-471 | every planned flow gets at least what its high water asks for, none is lowered, and the count is that of the flows that moved |
| CapacityFloors.TcpCapacityFloors.ConvergedLedger | executor/src/device_capacity.rs:360-368 | the snapshot lists exactly the binding floors, by flow |
| CapacityFloors.LedgerComesBack | executor/src/device_capacity.rs:321-368 | a snapshot that leaves zeros out still brings every floor back |
| CapacityReplay.StepChannels | executor/src/device_capacity.rs:233-288 | a plan is refused exactly if its base changed, a fault exactly if it does not match the plan or cannot grow; an accepted fault plans its stream strictly higher and no other differently |
| CapacityReplay.RunChannels | executor/src/cuda.rs:1587-1712 | however plans and faults of all streams are mixed, k faults of a stream bring it to at least 2^k * (c + 2) - 2 from the capacity c it was first planned with, or to the ceiling |
| CapacityReplay.ReplayChannels | executor/src/device_capacity.rs:201-246 | starting from the snapshot of any state and planning on the same bases gives every stream its final capacity at once, and the same snapshot again |
| CapacityReplay.ChannelChainReplays | executor/src/cuda.rs:1519-1530 | so after any chain of retries from any warm start |
| CapacityReplay.StepTcp | executor/src/device_capacity.rs:387-471 | a fault is accepted exactly if it matches the plan and can grow; an accepted one plans its flow strictly higher and lowers none |
| CapacityReplay.ReplayTcp | executor/src/device_capacity.rs:321-403 | starting from the snapshot of any state gives every receiver class and every ledger its final capacity at once, and the same snapshot |
| CapacityReplay.TcpChainReplays | executor/src/cuda.rs:1519-1530 | so after any chain of receiver and ledger retries from any warm start |

## Left out

- Packet transitions (TCP, RoCE, switches, collectives): an arbitrary deterministic step, as their correctness is not what the executor is for.
- Packet residency, installing and pinning packets, and assembling results: packets travel with their events.
- The future-event list itself: a set of events with unique keys; its heap layout is not modelled.
- Fault injection, panics and the preference among several worker errors: any error aborts.
- Wall-clock timing, metrics and their retention, efficiency figures and spinning before parking.
- LogicalProcess.CpuLp.Drain: an outbox limit and a 64-bit event counter are modelled, the remaining counters of a run summary are not.
- PoolState: a command and a reply channel is a slot, which the protocol never overfills; batches are sets of events, and the sender of a batch is history. The wait that selects among channels is any enabled action.
- ClassifiedPool: the lists that workers exchange are maps from node to process and sets of events; their order, which the order by work estimate fixes, does not matter to the result. The coordinator takes all reports of a round in one step; reading them one by one is modelled for the static pool.
- ClassifiedShard.SlottedShard.Merge: inserts the events in the order of the list; sorting by target first is the subject of `Shard`. An index outside the slots, where the code would panic, counts as a refusal.
- Exchange.RunsKeepInvariant: messages carry round and sender only; what they carry is the subject of `ClassifiedPool`.
- Ownership.Rank: sorts by insertion in place of the standard library's sort, which gives the same order, as no two processes rank alike.
- DispatchPartition.PartitionRound: takes the active list in any order; the order by work estimate decides which chunk a process is in, not the result.
- DispatchPartition.DispatchIsExecutor: collecting active processes and delivering at the barrier are those of the executor; the messages that do it are modelled for the two other pools.
- The two other radix sorts (by work estimate and by node) work as the one modelled and would add nothing.
- Radix masks are sets of passes instead of bits of one word.
- The counts that `materialize` and `settle` return for traces, and the fixed-rate constructor.
- DeviceStreams: ring arithmetic is unbounded; planes of more than 2^63 words, where head plus index would wrap, do not exist.
- StreamRoundTrip.PushEvent: the optional check that pushed keys ascend and the list of streams with a head are not modelled.
- `heap_push_host`, the planner's packet and burst estimates, buffer allocation and everything that calls CUDA or Metal.
- The retry loop around the capacity laws, which reads fault records from the device; `CapacityReplay` takes any sequence of plans and faults.
- Parked sets are written but not read back: the code recomputes them.
- SchedulerRestore.RestoreScheduler: a word outside the plane, where the code returns an error or panics, counts as a refusal; the sum of ring head and position does not wrap.
- The checks of `restore` that compare the packet in service of a stream with the node's own record.
- DCQCN and RoCE row codecs, stage regions and trace files.
