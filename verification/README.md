# Verified model of galay's concurrency harnesses, bounded channel and coverage normaliser

The project models the parts of the galay repository whose correctness rests on many steps at once, and
proves what they promise over every input and every interleaving.

* **Bounded channel** (`src/cpp/galay-kernel/concurrency/mpmc/bounded_channel.h`): the lock-free ring as a state
  machine over single atomic operations (`BoundedRing`, `RingGuarantees`, `RingProgress`, `RingExamples`), the
  suspended side with its waiter queues, path flags and single pump (`WaiterPump`, `PumpGuarantees`, `WaiterFates`),
  the refinement that lets the second be stated over one-step ring operations (`RingRefinement`), and the two put
  together (`ChannelSystem`).
* **Synchronisation protocols of the benchmarks**: completion latch and start gate (`CompletionLatch`, `StartGate`,
  `LatchAnswers`), the single-slot wake mailbox (`WakeProducer`), the phase and pipe handshake (`PhaseHandshake`), and
  the concurrent merge of client statistics (`WssStats`).
* **Worker life cycles**: the PostgreSQL pressure runner (`PostgresRunner`, `PostgresOutcomes`, `PostgresHang`) and
  the asynchronous etcd runner (`EtcdRunner`).
* **Data planes**: the close-and-drain harness (`DrainHarness`), the bounded-channel sample (`BoundedHarness`,
  `BoundedStart`, `Leftovers`) and the TCP echo pair (`EchoPair`), with the ledger the first two share (`Transfer`,
  `Shares`).
* **Coverage normaliser** (`scripts/common/400_normalize_code_review_graph_coverage.py`): names and path patterns
  (`GraphNames`), the edge table (`EdgeTable`), call propagation (`CallPropagation`), whole runs
  (`CoverageStages`, `CoverageReasons`, `CheckConditions`), scores (`RiskIndex`) and the stages as methods of a database
  object (`Normalizer`).

`Runs` defines executions and the induction principle every protocol uses, `Sums` the sums over threads, `Options` the
optional value. In a protocol each thread has a program counter, a step is one atomic or lock operation, and the
theorems speak of every state reachable from a correct start. Weak compare-exchanges may fail spuriously,
condition variables may wake spuriously, and failures and time-outs may happen wherever the source tests for
them. History variables are ordinary fields, named in the comment of their state. `dafny verify dfyconfig.toml`
checks everything.

## Findings

* The latch may be destroyed on completion exactly when no non-zero arrival is superfluous, which is weaker
  than the rule in its comment (`CompletionLatch.DestroyIsSafeIff`). The start gate gives no such promise
  (`StartGate.GateOutlivesItsWaiters`).
* In the phase handshake a failed wait overwrites the resume stamp of the sample before it
  (`PhaseHandshake.FailedWaitSpoilsASample`), and only that does (`PhaseHandshake.LoadIsOwnIff`); the run then aborts.
* A bounded-channel sample in which nothing fails can still end invalid, for every number of messages from one
  per producer on (`Leftovers.LeftoverRun`); `BoundedHarness.ValidIff` says exactly when it is valid.
* `--check` can fail right after a run when a bare node name means another node
  (`CheckConditions.ShadowedTestStaysMissing`); `CheckConditions.QuietRunCompletesIff` gives the exact condition on
  the nodes for a table without coverage or calls, `CoverageStages.OneRunCompletes` a sufficient one for any table.
* Repeated runs: the second inserts nothing exactly when the first left the check nothing to report and its coverage
  closed under calls (`CoverageStages.SecondRunInsertsNothingIff`), the third exactly when the check passes after the
  second (`CoverageStages.ThirdRunInsertsNothingIff`). Where no bare name means another node the third run is always
  idle (`CoverageStages.ThirdRunInsertsNothing`) and the second may not be (`CoverageStages.SecondRunCanInsert`);
  elsewhere a third run can insert as well (`CheckConditions.ThirdRunCanInsert`).
* The PostgreSQL runner can hang after a full spawn: a yield that fails at the launch gate takes out a worker that
  the others wait for at the barrier, and the join has no time-out (`PostgresHang.LaunchYieldHangs`,
  `PostgresHang.HangIsPermanent`). A worker that spins with nobody on the way always waits for one that ended at the
  launch gate (`PostgresHang.SpinnerWaits`).
* A receive may find the ring empty although a send behind a stalled one has returned
  (`RingExamples.EmptyDespiteCompletedSend`); the comment of `isClosed` warns of this. A full or empty answer is
  wrong exactly when the signed difference wraps (`RingGuarantees.FullIff`, `RingGuarantees.EmptyIff`), which takes a
  thread asleep for about 2^63 positions (`RingExamples.EmptyRingCalledFull`). Even then no suspended waiter is left
  behind, because whoever moved the ring on has asked the pump again (`ChannelSystem.ChannelStrandsNobody`).
* A client batch whose latency count wraps to zero is merged without its extremes
  (`WssStats.WrappedCountLosesExtremes`).

## Model

| member | source | states |
|---|---|---|
| `BoundedRing.HomeIsRemainder` | src/cpp/galay-kernel/concurrency/mpmc/bounded_channel.h:825-825 | the slot of a position is its remainder modulo the capacity |
| `BoundedRing.DifferenceSign` | src/cpp/galay-kernel/concurrency/mpmc/bounded_channel.h:826-840 | when the signed 64-bit difference of sequence and position has the sign of the true one, and when it wraps |
| `BoundedRing.StepKeeps` | src/cpp/galay-kernel/concurrency/mpmc/bounded_channel.h:802-902 | every atomic step of any number of senders, receivers and closers keeps the slot, cursor and ownership invariants |
| `BoundedRing.TransitKeeps` | src/cpp/galay-kernel/concurrency/mpmc/bounded_channel.h:846-902 | a reserved unpublished position always has its one writer, a claimed unreleased one its one reader |
| `RingGuarantees.OccupancyBounded` | src/cpp/galay-kernel/concurrency/mpmc/bounded_channel.h:795-851 | at most `cap` positions lie between head and tail, and the tail never reaches the close bit |
| `RingGuarantees.DeliveredAtMostOnce` | src/cpp/galay-kernel/concurrency/mpmc/bounded_channel.h:853-902 | each delivery is of its own reserved position with the message reserved there, none twice, and every claimed position is delivered or in hand |
| `RingGuarantees.QuiescentAccount` | src/cpp/galay-kernel/concurrency/mpmc/bounded_channel.h:802-902 | with no call in flight exactly the positions below the head are delivered, those up to the tail are published with their messages, and each thread's reservations are what its sends reported |
| `RingGuarantees.FirstInFirstOut` | src/cpp/galay-kernel/concurrency/mpmc/bounded_channel.h:870-902 | one consumer receives in reservation order |
| `RingGuarantees.CloseIsFinal` | src/cpp/galay-kernel/concurrency/mpmc/bounded_channel.h:558-573 | no position is reserved after close, in any continuation |
| `RingGuarantees.DrainedIsFinal` | src/cpp/galay-kernel/concurrency/mpmc/bounded_channel.h:757-764 | a drained report means that from then on every reservation there will ever be is claimed |
| `RingGuarantees.DrainedIff` | src/cpp/galay-kernel/concurrency/mpmc/bounded_channel.h:757-764 | a check that has read the closed tail answers drained exactly when every reservation is claimed at the moment it reads the head |
| `RingGuarantees.FullIff` | src/cpp/galay-kernel/concurrency/mpmc/bounded_channel.h:825-839 | a send answers Full exactly when its position is the tail and the one a lap before is unreleased (`cap` messages, or one being moved out), or when its position is so old that the difference wraps, and then the answer is wrong |
| `RingGuarantees.EmptyIff` | src/cpp/galay-kernel/concurrency/mpmc/bounded_channel.h:877-891 | a receive answers Empty exactly when its position is the head and nothing is published there, or when its difference wraps |
| `RingProgress.RetriesAreAdvances` | src/cpp/galay-kernel/concurrency/mpmc/bounded_channel.h:809-897 | within one call the retries other than spurious failures, after a failed compare-exchange or a slot ahead, are at most the places by which others moved the cursor on, or the close |
| `RingProgress.SoloSend` | src/cpp/galay-kernel/concurrency/mpmc/bounded_channel.h:802-851 | a send can end by its own steps alone, in the state its answer says |
| `RingProgress.SoloSendIsExact` | src/cpp/galay-kernel/concurrency/mpmc/bounded_channel.h:802-851 | whenever a send that runs alone has ended, it gave the exact answer for the state it started in |
| `RingProgress.SoloRecv` | src/cpp/galay-kernel/concurrency/mpmc/bounded_channel.h:870-902 | a receive can end by its own steps alone, with the head message exactly when it is published |
| `RingProgress.SoloRecvIsExact` | src/cpp/galay-kernel/concurrency/mpmc/bounded_channel.h:870-902 | whenever a receive that runs alone has ended, it gave the exact answer for the state it started in |
| `RingProgress.SoloCheck` | src/cpp/galay-kernel/concurrency/mpmc/bounded_channel.h:757-764 | a check that runs alone answers drained exactly when the ring is closed and head and tail are equal, and changes nothing |
| `RingProgress.StalledHeadRefuses` | src/cpp/galay-kernel/concurrency/mpmc/bounded_channel.h:576-581 | while the producer of the head position does not move, in every run of the others the head stays, nothing from it on is delivered and every receive that looks at it answers Empty |
| `RingExamples.EmptyDespiteCompletedSend` | src/cpp/galay-kernel/concurrency/mpmc/bounded_channel.h:576-581 | a run in which a receive answers Empty after a send returned |
| `RingExamples.EmptyRingCalledFull` | src/cpp/galay-kernel/concurrency/mpmc/bounded_channel.h:826-839 | a run of 2^63 - 1 messages after which a sleeping sender calls the empty open ring full |
| `RingRefinement.StepRefines` | src/cpp/galay-kernel/concurrency/mpmc/bounded_channel.h:802-902 | every ring step is one abstract operation under its guard or changes nothing: a reserve with space before close, the publication of a reserved unpublished position, the claim of a published head, the release of a claimed unreleased position, a close |
| `RingRefinement.FullRefines` | src/cpp/galay-kernel/concurrency/mpmc/bounded_channel.h:825-839 | Full is answered exactly at a tail without abstract space, or when the difference wraps |
| `RingRefinement.EmptyRefines` | src/cpp/galay-kernel/concurrency/mpmc/bounded_channel.h:877-891 | Empty is answered exactly at an abstractly unpublished head, or when the difference wraps |
| `PumpGuarantees.OnePumpServesEveryRequest` | src/cpp/galay-kernel/concurrency/mpmc/bounded_channel.h:1155-1180 | at most one thread pumps, exactly while the running bit is set, and no published request is without an owner or a caller about to become it |
| `PumpGuarantees.NoStrandedWaiter` | src/cpp/galay-kernel/concurrency/mpmc/bounded_channel.h:1182-1234 | with no call in flight a receiver is suspended only on an empty open ring and a sender only on a full open one |
| `PumpGuarantees.StepKeeps` | src/cpp/galay-kernel/concurrency/mpmc/bounded_channel.h:911-1234 | every step of callers, suspenders, timed-out waiters, closers and the pump keeps someone looking at the waiters that can be served |
| `WaiterFates.EveryWaiterAccounted` | src/cpp/galay-kernel/concurrency/mpmc/bounded_channel.h:1182-1204 | in every reachable state the waiters enqueued are those queued, the one in the pump's hand, those given a position of their own, those told closed and those timed out or not put back; closed is told to receivers only when shut and drained, to senders only when shut; every claimed or reserved position has one taker |
| `WaiterFates.OwnerShrinksLoad` | src/cpp/galay-kernel/concurrency/mpmc/bounded_channel.h:1182-1234 | every step of the pump other than a repeated test shrinks its load, so it serves or puts back what it took |
| `WaiterFates.OwnerGoesOn` | src/cpp/galay-kernel/concurrency/mpmc/bounded_channel.h:1182-1234 | the pump always has such a step, which gives a receiver the published head and a sender the free slot |
| `ChannelSystem.ChannelSimulates` | src/cpp/galay-kernel/concurrency/mpmc/bounded_channel.h:460-1234 | every run of the whole channel, ring steps and waiter protocol together, is a run of the waiter protocol on the abstract ring, wrapped differences included |
| `ChannelSystem.ChannelStrandsNobody` | src/cpp/galay-kernel/concurrency/mpmc/bounded_channel.h:460-1234 | with no call in flight a receiver of the whole channel is suspended only when it is open and everything sent has been delivered, a sender only when it is open and full |
| `ChannelSystem.ChannelAccountsForWaiters` | src/cpp/galay-kernel/concurrency/mpmc/bounded_channel.h:460-1234 | the same account for the waiters of the whole channel, and with no call in flight every position given to a receive waiter has been delivered with its message |
| `WaiterPump.RecvDueOwn` | src/cpp/galay-kernel/concurrency/mpmc/bounded_channel.h:460-474 | the flag handshake: a publisher that skips the pump leaves no receive waiter behind |
| `CompletionLatch.NoEarlyRelease` | benchmark/cpp/common/benchmark_sync.h:39-72 | completion is reported only after arrivals summing to the target |
| `CompletionLatch.NoLostWakeUp` | benchmark/cpp/common/benchmark_sync.h:39-72 | once ready is set and the mutex free, nobody sleeps un-notified |
| `CompletionLatch.ArrivalsSuffice` | benchmark/cpp/common/benchmark_sync.h:39-66 | when all arrivals returned and reach the target, the flag is up and nobody sleeps |
| `CompletionLatch.OneEntrantIff` | benchmark/cpp/common/benchmark_sync.h:39-56 | at most one arrival ever enters the locked section, in every interleaving, if and only if every non-zero arrival is needed |
| `CompletionLatch.DocumentedRuleSuffices` | benchmark/cpp/common/benchmark_sync.h:16-22 | arrivals totalling at most the target are all needed |
| `CompletionLatch.DestroyIsSafeIff` | benchmark/cpp/common/benchmark_sync.h:16-80 | after any reported completion no arrival touches the latch again, in every interleaving, if and only if every non-zero arrival is needed |
| `LatchAnswers.LatchAnswersTrue` | benchmark/cpp/common/benchmark_sync.h:58-72 | `wait` never returns without completion; an answer is the flag as read under the mutex, and denies completion only as `ready` or as a `waitFor` whose time has passed |
| `LatchAnswers.LatchCallsReturn` | benchmark/cpp/common/benchmark_sync.h:39-72 | once the flag is up every step takes the calls nearer their returns, and until all have returned one can step without a spurious wake-up or a time-out |
| `StartGate.GateReleasesEveryWaiter` | benchmark/cpp/common/benchmark_sync.h:82-112 | waits return only after open, and once the opening calls returned nobody sleeps |
| `StartGate.GateOutlivesItsWaiters` | benchmark/cpp/common/benchmark_sync.h:82-112 | a run in which a wait has returned while open has still to notify |
| `LatchAnswers.GateAnswersTrue` | benchmark/cpp/common/benchmark_sync.h:92-106 | the same answers for the gate |
| `LatchAnswers.GateCallsReturn` | benchmark/cpp/common/benchmark_sync.h:82-106 | once the gate is open every call of it returns |
| `WakeProducer.WakesFollowAcceptance` | benchmark/cpp/kernel/b18_ready_entry_wakeup_latency.cc:67-133 | wakes happen once each in acceptance order, at most one pending beyond the one in hand |
| `WakeProducer.StopDrains` | benchmark/cpp/kernel/b18_ready_entry_wakeup_latency.cc:67-133 | when the first stop returns exactly the successful submits have been woken |
| `WakeProducer.NeverSleepsUnnotified` | benchmark/cpp/kernel/b18_ready_entry_wakeup_latency.cc:67-133 | the producer never sleeps on a pending request or stop that nobody will announce |
| `WakeProducer.JoinTerminates` | benchmark/cpp/kernel/b18_ready_entry_wakeup_latency.cc:67-133 | the joined thread can always run and each step brings its exit nearer |
| `WakeProducer.SubmitAcceptsIff` | benchmark/cpp/kernel/b18_ready_entry_wakeup_latency.cc:67-133 | a submit is accepted exactly when it has a sample, nobody has called stop and every request accepted before has been taken |
| `WakeProducer.CallsReturn` | benchmark/cpp/kernel/b18_ready_entry_wakeup_latency.cc:67-133 | every call step brings its call nearer its return, and only the join of a running producer has to wait |
| `PhaseHandshake.PipeHoldsAtMostOneByte` | benchmark/c/kernel/b20_coro_wait_result_latency.c:187-205 | the pipe holds at most one byte until main gives up |
| `PhaseHandshake.ReadyMeansReadable` | benchmark/c/kernel/b20_coro_wait_result_latency.c:91-132 | the read after a successful wait finds its byte |
| `PhaseHandshake.SamplesAreOwn` | benchmark/c/kernel/b20_coro_wait_result_latency.c:187-205 | sample i uses the stamp of iteration i, except a last one whose next wait has failed |
| `PhaseHandshake.LoadIsOwnIff` | benchmark/c/kernel/b20_coro_wait_result_latency.c:187-205 | the stamp main loads for sample i is that of iteration i if and only if wait i+1 has not failed and stored over it |
| `PhaseHandshake.FailedWaitSpoilsASample` | benchmark/c/kernel/b20_coro_wait_result_latency.c:91-132 | a run in which that exception happens |
| `PhaseHandshake.HandshakeNeverStuck` | benchmark/c/kernel/b20_coro_wait_result_latency.c:91-132 | until all samples are taken one party can go on without failing |
| `PhaseHandshake.HandshakeProgresses` | benchmark/c/kernel/b20_coro_wait_result_latency.c:91-205 | every step that is no failure raises a measure by one, up to 10n + 1 |
| `PhaseHandshake.ErrorsAreCounted` | benchmark/c/kernel/b20_coro_wait_result_latency.c:91-132 | one error is counted exactly when the coroutine gave up: without a scheduler, or after a failed wait or read |
| `WssStats.ClientStatsBatch.NoteMessageSent` | benchmark/cpp/common/wss_stats.h:24-40 | the batch becomes the accumulation with one more sent message, modulo 2^64 |
| `WssStats.ClientStatsBatch.NoteMessageReceived` | benchmark/cpp/common/wss_stats.h:42-45 | the same for a received message |
| `WssStats.ClientStatsBatch.NoteLatency` | benchmark/cpp/common/wss_stats.h:47-56 | the same for a latency: sum, count, minimum and maximum |
| `WssStats.CountersMean` | benchmark/cpp/common/wss_stats.h:24-56 | the message counters are the numbers of noted messages and the byte counters the sums of their bytes, the connection and latency counters likewise, modulo 2^64 |
| `WssStats.ExtremesMean` | benchmark/cpp/common/wss_stats.h:47-56 | minimum and maximum bound every noted latency, and each is a noted one or its start value |
| `WssStats.FailureMeansProgress` | benchmark/cpp/common/wss_stats.h:73-87 | a compare-exchange that fails for cause found a strictly better shared extreme |
| `WssStats.RetriesBounded` | benchmark/cpp/common/wss_stats.h:73-87 | each loop fails for cause fewer times than there are merges |
| `WssStats.MergeCanReturn` | benchmark/cpp/common/wss_stats.h:58-88 | from every reachable state a merge left to run alone can return |
| `WssStats.MergesAreSequential` | benchmark/cpp/common/wss_stats.h:58-88 | any interleaving of merges ends in the counters of one sequential accumulation of all observations, and in its extremes exactly when every batch whose latency count has wrapped to zero lies within the extremes of the others |
| `WssStats.WrappedCountLosesExtremes` | benchmark/cpp/common/wss_stats.h:69-71 | every finished run over a single client with 2^64 latencies ends in totals other than the sequential ones |
| `PostgresRunner.EveryQueryAccounted` | benchmark/c/postgres/b1_query_pressure.c:214-322 | with `fatal` clear at the end, succeeded plus failed equals clients times queries on every mix of failures |
| `PostgresRunner.ZeroMeansAllSucceeded` | benchmark/c/postgres/b1_query_pressure.c:519-604 | exit code zero means that every query succeeded with one sample each |
| `PostgresOutcomes.ReportsItsQueries` | benchmark/c/postgres/b1_query_pressure.c:272-308 | a worker that measured adds as many successes as its queries were answered and as many failures as were not, keeps a sample of each timed one, and remembers an error exactly if one was not answered |
| `PostgresOutcomes.ZeroMeansAllAnswered` | benchmark/c/postgres/b1_query_pressure.c:519-604 | exit code zero means that each query of each client was answered and no worker remembers an error |
| `PostgresRunner.SamplesInBounds` | benchmark/c/postgres/b1_query_pressure.c:261-310 | every sample write lies inside its worker's array |
| `PostgresRunner.NoQueryBeforeAllReady` | benchmark/c/postgres/b1_query_pressure.c:261-310 | no worker measures before every worker connected and warmed up |
| `PostgresRunner.StampsWrittenOnce` | benchmark/c/postgres/b1_query_pressure.c:201-275 | each time stamp is written at most once, the start stamp only when all are ready |
| `PostgresRunner.FinishAfterAllLoops` | benchmark/c/postgres/b1_query_pressure.c:201-212 | the finish stamp is written only after every measured loop ended |
| `PostgresRunner.BarrierProgress` | benchmark/c/postgres/b1_query_pressure.c:162-174 | while calls return normally a worker spinning at the barrier waits for another one on its way |
| `PostgresHang.SpinnerWaits` | benchmark/c/postgres/b1_query_pressure.c:148-174 | in every run a spinning worker waits for one on its way or for one that ended without passing the launch gate |
| `PostgresHang.HangIsPermanent` | benchmark/c/postgres/b1_query_pressure.c:162-174 | a spinning worker with nobody on its way spins for ever while yields return normally |
| `PostgresHang.LaunchYieldHangs` | benchmark/c/postgres/b1_query_pressure.c:148-174 | for every number of clients from two on, a run in which a failed yield at the launch gate leaves the others spinning |
| `PostgresRunner.PartialSpawnDrains` | benchmark/c/postgres/b1_query_pressure.c:504-518 | after a partial spawn nobody passes the launch gate, and when all are done the reduced number of completions has been counted |
| `PostgresRunner.PartialSpawnProgresses` | benchmark/c/postgres/b1_query_pressure.c:148-160 | a worker that is not done can move, and every worker step lowers the number of steps left, so all of them end |
| `PostgresRunner.MainEnds` | benchmark/c/postgres/b1_query_pressure.c:490-604 | every step of the main thread brings its return nearer, only a worker that is not done holds it up, and it may return zero exactly when the tests are satisfied |
| `EtcdRunner.ReleasedWorkersAccount` | benchmark/cpp/etcd/bench_support.cc:200-308 | a released worker that ended accounts for exactly its operations, exceptions included |
| `EtcdRunner.StartedXorAborted` | benchmark/cpp/etcd/bench_support.cc:393-451 | a run is never both started and aborted, and nobody is released before the start |
| `EtcdRunner.StartsOnlyWhenAllReady` | benchmark/cpp/etcd/bench_support.cc:393-451 | the run is started only when every worker has announced itself and none failed to start |
| `EtcdRunner.AbortHasAReason` | benchmark/cpp/etcd/bench_support.cc:393-451 | main turns to aborting only when some worker failed to start or has not announced itself |
| `EtcdRunner.OutcomesAreTrue` | benchmark/cpp/etcd/bench_support.cc:200-308 | the success and failure counters, and those returned, are the operations that succeeded and those that failed or were cut off |
| `EtcdRunner.ResultIsComplete` | benchmark/cpp/etcd/bench_support.cc:393-451 | a returned result accounts for all operations with one latency each |
| `EtcdRunner.WorkersEnd` | benchmark/cpp/etcd/bench_support.cc:200-308 | once the run is started or aborted every worker that has not ended can go on, and every worker step, exceptions included, shrinks a measure |
| `Transfer.TiledIds` | benchmark/cpp/kernel/b25_unbounded_channel_family_throughput.cc:334-345 | tiled ranges send each id at most once, and exactly once when done |
| `Transfer.DrainedIsExact` | benchmark/cpp/kernel/b25_unbounded_channel_family_throughput.cc:135-135 | all sent and nothing queued means that each id below n arrived once, with count n and sum n(n-1)/2 |
| `Shares.SharesTile` | benchmark/cpp/kernel/b25_unbounded_channel_family_throughput.cc:334-335 | the shares n*p/P to n*(p+1)/P tile 0 to n without gap or overlap |
| `DrainHarness.NothingLost` | benchmark/cpp/kernel/b25_unbounded_channel_family_throughput.cc:299-422 | at no step is an id lost, duplicated or invented |
| `DrainHarness.DrainIsExact` | benchmark/cpp/kernel/b25_unbounded_channel_family_throughput.cc:299-438 | when setup succeeded and all consumers left, the queue is empty and count and sum are exact |
| `DrainHarness.FailedSetupMovesNothing` | benchmark/cpp/kernel/b25_unbounded_channel_family_throughput.cc:326-360 | after a failed setup nothing is sent or received |
| `DrainHarness.DrainTerminates` | benchmark/cpp/kernel/b25_unbounded_channel_family_throughput.cc:365-381 | after the close every consumer step shrinks a measure |
| `DrainHarness.DrainGoesOn` | benchmark/cpp/kernel/b25_unbounded_channel_family_throughput.cc:365-381 | after the close a consumer that is not done has a step |
| `BoundedHarness.MessagesConserved` | benchmark/c/kernel/b27_bounded_channel_throughput.c:72-154 | at every step sent ids are received or in the channel, once, within capacity |
| `BoundedHarness.ReportsAreTrue` | benchmark/c/kernel/b27_bounded_channel_throughput.c:80-154 | in a run that never failed the reported counts and sums are the truth |
| `BoundedHarness.ConsumersLeaveLast` | benchmark/c/kernel/b27_bounded_channel_throughput.c:118-154 | while nothing failed a consumer has left only if all planned producers are counted done, and each of these has then sent its whole share |
| `BoundedStart.NothingMovesEarly` | benchmark/c/kernel/b27_bounded_channel_throughput.c:174-231 | while nothing failed no thread passes the gate before the start, and the start is raised only when all planned threads stand ready |
| `BoundedStart.MainReachesAVerdict` | benchmark/c/kernel/b27_bounded_channel_throughput.c:174-271 | every step of main brings its verdict nearer, it always has one, and the verdict follows the start |
| `BoundedStart.ThreadsCanLeave` | benchmark/c/kernel/b27_bounded_channel_throughput.c:72-154 | only the gate holds a thread up: any other one can step towards its exit |
| `BoundedHarness.ValidIff` | benchmark/c/kernel/b27_bounded_channel_throughput.c:174-271 | a sample is valid exactly when nothing failed, the messages split evenly and the channel is empty |
| `BoundedHarness.ValidMeansExactlyOnce` | benchmark/c/kernel/b27_bounded_channel_throughput.c:174-271 | a valid sample received every payload exactly once |
| `Leftovers.LeftoverRun` | benchmark/c/kernel/b27_bounded_channel_throughput.c:118-154 | for every thread count, at least one message per producer and a positive capacity, a run without failures that ends invalid with the last message in the channel |
| `EchoPair.EchoIsExact` | benchmark/c/kernel/b22_coro_tcp_loopback_latency.c:93-188 | each completed round receives the payload it sent, under any partial transfers and buffers |
| `EchoPair.CleanRunsEndCleanly` | benchmark/c/kernel/b22_coro_tcp_loopback_latency.c:154-255 | without I/O failures no error is counted and the server ends at a round boundary |
| `EchoPair.NeverStuck` | benchmark/c/kernel/b22_coro_tcp_loopback_latency.c:154-255 | without failures one of the two can always move until both are closed |
| `EchoPair.RoundProgresses` | benchmark/c/kernel/b22_coro_tcp_loopback_latency.c:93-188 | every step inside a round moves a bounded measure on |
| `EchoPair.HalfRoundIsAnError` | benchmark/c/kernel/b22_coro_tcp_loopback_latency.c:154-188 | an end of stream ends the server and counts one error exactly when it comes inside a round |
| `EchoPair.CanAlwaysFinish` | benchmark/c/kernel/b22_coro_tcp_loopback_latency.c:154-255 | from every state of a clean run the client can stop and both ends close without an error |
| `GraphNames.BareNameIsBare` | scripts/common/400_normalize_code_review_graph_coverage.py:44-46 | the bare name is a separator-free tail, and a bare name is its own |
| `GraphNames.BareNameBehindSeparator` | scripts/common/400_normalize_code_review_graph_coverage.py:44-46 | behind `::` or `.` the bare name of a bare name is that name, whatever stands before |
| `GraphNames.TestModuleIs` | scripts/common/400_normalize_code_review_graph_coverage.py:79-85 | the module of a test path is the name between the first `/test/` and the next slash or the end, if not empty |
| `GraphNames.SourceModuleIs` | scripts/common/400_normalize_code_review_graph_coverage.py:103-107 | the same for a library path |
| `GraphNames.LikeIff` | scripts/common/400_normalize_code_review_graph_coverage.py:53-60 | a path matches a pattern exactly when some part of it is the pattern, ASCII case aside |
| `EdgeTable.GroupUnique` | scripts/common/400_normalize_code_review_graph_coverage.py:64-76 | a key is kept, with its value, exactly when it has one claimed value |
| `EdgeTable.InsertAllAppends` | scripts/common/400_normalize_code_review_graph_coverage.py:242-288 | inserting appends only candidates and records every candidate's fact |
| `EdgeTable.InsertAllIdle` | scripts/common/400_normalize_code_review_graph_coverage.py:242-288 | recorded candidates change nothing |
| `EdgeTable.FactsStoredOnce` | scripts/common/400_normalize_code_review_graph_coverage.py:242-288 | every candidate ends up as a row with its source, target, file and line, and each inserted row differs in one of the four from every coverage row before it |
| `CallPropagation.CoveredIsReachable` | scripts/common/400_normalize_code_review_graph_coverage.py:379-424 | the covered names are exactly the coverable ones reached by call paths, whatever the row order |
| `CallPropagation.AddedIsForest` | scripts/common/400_normalize_code_review_graph_coverage.py:379-424 | each inserted row covers a new name and is vouched for by an earlier row or an initially covered name |
| `CallPropagation.CountIsNewlyCovered` | scripts/common/400_normalize_code_review_graph_coverage.py:391-424 | as many rows are inserted as names newly covered |
| `CallPropagation.NotRecorded` | scripts/common/400_normalize_code_review_graph_coverage.py:403-421 | the duplicate guard never fires during propagation |
| `CallPropagation.ClosedGetsNothing` | scripts/common/400_normalize_code_review_graph_coverage.py:391-424 | a closed table gets no row |
| `CoverageStages.RunAppendsCoverage` | scripts/common/400_normalize_code_review_graph_coverage.py:562-587 | a run only appends coverage rows of nodes under their full names |
| `CoverageReasons.EveryNewRowHasAReason` | scripts/common/400_normalize_code_review_graph_coverage.py:178-474 | each row a run adds is a bare coverage row of the start under its full name, an entry point testing itself, a callee tested by its caller, or a node tested by its file, at the line of its reason |
| `CoverageStages.OneRunCompletes` | scripts/common/400_normalize_code_review_graph_coverage.py:149-239 | when every bare node name resolves to itself or to nothing, one run leaves `--check` nothing to report |
| `CheckConditions.QuietRunCompletesIff` | scripts/common/400_normalize_code_review_graph_coverage.py:291-474 | from a table without coverage or calls, `--check` has nothing to report after the run exactly when every entry point and covered-directory node is settled, a condition on the nodes alone |
| `CheckConditions.BareNodeStaysMissing` | scripts/common/400_normalize_code_review_graph_coverage.py:427-474 | a bare covered-directory name that means a node elsewhere makes `--check` fail after the run, from every table that does not mention the directory's coverage target |
| `CheckConditions.ShadowedTestStaysMissing` | scripts/common/400_normalize_code_review_graph_coverage.py:427-474 | two nodes and a run on which that happens |
| `CoverageStages.RunExists` | scripts/common/400_normalize_code_review_graph_coverage.py:562-587 | every table has a run: each stage has a result, and propagation reaches its fixpoint |
| `CoverageStages.ThirdRunInsertsNothingIff` | scripts/common/400_normalize_code_review_graph_coverage.py:562-587 | the third of three runs inserts nothing exactly when `--check` has nothing to report after the second |
| `CoverageStages.ThirdRunInsertsNothing` | scripts/common/400_normalize_code_review_graph_coverage.py:562-587 | where no bare node name means another node, one run satisfies the check, the second inserts along calls only and the third inserts nothing |
| `CheckConditions.ChainedNameNeedsThirdRun` | scripts/common/400_normalize_code_review_graph_coverage.py:228-239 | an entry point whose bare name means a node whose bare name means a third one makes the third run insert |
| `CheckConditions.ThirdRunCanInsert` | scripts/common/400_normalize_code_review_graph_coverage.py:228-239 | three such nodes and three runs |
| `CoverageStages.SecondRunInsertsNothingIff` | scripts/common/400_normalize_code_review_graph_coverage.py:562-587 | the second of two runs inserts nothing exactly when the first left `--check` nothing to report and its coverage closed under calls |
| `CoverageStages.SecondRunCanInsert` | scripts/common/400_normalize_code_review_graph_coverage.py:562-587 | tables on which the second run still inserts |
| `RiskIndex.RunNeverRaisesRisk` | scripts/common/400_normalize_code_review_graph_coverage.py:477-559 | scores stay within 0 and 1 and a run lowers exactly the newly tested ones, by 0.3 |
| `RiskIndex.CoveredDirectoriesEndTested` | scripts/common/400_normalize_code_review_graph_coverage.py:427-474 | every scored node in a covered directory and every entry point ends as tested |
| `RiskIndex.TestedIffReached` | scripts/common/400_normalize_code_review_graph_coverage.py:379-424 | after propagation a coverable node is tested exactly when call paths reach it |
| `RiskIndex.CallersAreCalls` | scripts/common/400_normalize_code_review_graph_coverage.py:478-488 | the caller count is the number of CALLS rows with the node as target |
| `RiskIndex.TestsAreCoverage` | scripts/common/400_normalize_code_review_graph_coverage.py:490-499 | the test count is the number of TESTED_BY rows with the node as source |
| `RiskIndex.RowMeans` | scripts/common/400_normalize_code_review_graph_coverage.py:514-557 | the score is 0.3 above ten calls to the node, 0.15 for four to ten, plus 0.3 untested, plus 0.4 security relevant |
| `Normalizer.NormalizedSourceResolves` | scripts/common/400_normalize_code_review_graph_coverage.py:228-239 | the loaded maps answer what unambiguous resolution over the nodes answers |
| `CoverageReasons.ResolvedIff` | scripts/common/400_normalize_code_review_graph_coverage.py:228-239 | a bare name means q exactly when all production nodes answering to it are called q, or these disagree or are none and all nodes answering to it in the test's module are called q |
| `Normalizer.RiskTableScoresAll` | scripts/common/400_normalize_code_review_graph_coverage.py:514-557 | with distinct ids the index holds exactly one row for each scored node, its own |
| `Normalizer.GraphDb.LoadUniqueProductionSymbols` | scripts/common/400_normalize_code_review_graph_coverage.py:49-76 | a name maps to q exactly when q is its only production claimant |
| `Normalizer.GraphDb.LoadModuleProductionSymbols` | scripts/common/400_normalize_code_review_graph_coverage.py:88-118 | the same within a library module |
| `Normalizer.GraphDb.FindNormalizableEdges` | scripts/common/400_normalize_code_review_graph_coverage.py:121-146 | the rows are exactly the resolvable bare coverage rows |
| `Normalizer.GraphDb.MissingNormalizedCount` | scripts/common/400_normalize_code_review_graph_coverage.py:149-175 | the count is the number of rows whose normalised fact is not recorded |
| `Normalizer.GraphDb.Check` | scripts/common/400_normalize_code_review_graph_coverage.py:562-575 | zero exactly when every resolvable bare row is normalised |
| `Normalizer.GraphDb.InsertTestedByEdge` | scripts/common/400_normalize_code_review_graph_coverage.py:242-288 | the row is appended exactly when its fact is not recorded, and the answer says so |
| `Normalizer.GraphDb.NormalizeEdges` | scripts/common/400_normalize_code_review_graph_coverage.py:178-225 | the table takes the normalising stage and the count is its growth |
| `Normalizer.GraphDb.AddSelfCoverageForTests` | scripts/common/400_normalize_code_review_graph_coverage.py:291-326 | the table takes the self-coverage stage and the count is its growth |
| `Normalizer.GraphDb.Sweep` | scripts/common/400_normalize_code_review_graph_coverage.py:403-421 | one pass inserts only justified rows and reports no change only when no row extends coverage |
| `Normalizer.GraphDb.AddCallGraphCoverage` | scripts/common/400_normalize_code_review_graph_coverage.py:329-424 | the loop ends and leaves a justified extension closed under calls, with its growth as count |
| `Normalizer.GraphDb.AddDirectoryCoverage` | scripts/common/400_normalize_code_review_graph_coverage.py:427-474 | the table takes the directory stage and the count is its growth |
| `Normalizer.GraphDb.RecomputeRiskIndex` | scripts/common/400_normalize_code_review_graph_coverage.py:477-559 | the index becomes the table of scores of the scored nodes |
| `Normalizer.GraphDb.Run` | scripts/common/400_normalize_code_review_graph_coverage.py:562-587 | a whole run is the four stages in order, and the index scores its result |

## Left out

- Weak memory: atomics are sequentially consistent steps, so the proofs concern protocol logic and not the
  memory orders chosen.
- CheckConditions.QuietRunCompletesIff: speaks of tables without coverage or call rows; for other tables
  `CoverageStages.OneRunCompletes` and `CheckConditions.BareNodeStaysMissing` give one direction each.
- Bounded channel: the timer that decides a waiter's time-out, the waker objects, batches and the destructor. A time-out
  is one step that takes a live waiter out; its dead queue entry may be met and skipped by the pump.
- The rest of the library (other channels, schedulers, timing wheel, HTTP, RPC and database clients): not part of
  this model.
- 64-bit wrap-around of the latch count and of the runners' counters; the ring and the statistics model it,
  the statistics including a latency count that wraps to zero.
- Clocks, throughput and percentile reports, printing, command lines and environment variables, clean-up exit codes
  beyond zero or not zero.
- `medianElement`, `waitForFlag`, `parseHttpEndpoint` and the option parsers: single small functions.
- Echo pair: socket set-up and the choice among server modes; bytes are characters of a stream that moves any
  non-empty part of what it is offered.
- Concurrent harnesses are state machines over values: aliasing and the layout of the arrays they fill are not
  captured.
- Queue and channel of the two throughput harnesses are abstract and may serve in any order.
- SQL NULLs, and row order other than through the theorems, which hold for any order; lower-casing of node names covers
  ASCII letters only; scores are exact reals, not floating point.
