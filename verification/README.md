# Thread messaging runtime: model and proofs

The runtime passes typed messages between threads. A lock-free ring buffer carries commands from
the manager to an observer thread; mutex-protected queues carry messages along a chain of five
threads; a manager starts, stops, restarts and destroys those threads. This project models these
layers in Dafny and proves what they promise over whole runs.

Each layer appears in up to two forms. The objects of the source are classes whose methods change
their fields and loop as the source does, each method tied to a function of the old state. The
concurrency is a transition system over the atomic steps of the same code: a run is a sequence of
states and steps, and the theorems hold of every reachable state of every run. Random choices,
clocks and what other threads do meanwhile are the steps chosen, or parameters of the methods.

| file | contents |
|---|---|
| `IndexMask.dfy` | `n & (n - 1)`, masks and remainders for natural numbers of any size |
| `SpScRingBuffer.dfy` | the ring buffer as an object over an array, with its timed wait |
| `SpScAtomic.dfy` | its `push`, `pop` and `wait_pop_for` interleaved access by access under acquire/release ordering: modification orders of head and tail, release views, slot reads that may be stale |
| `Messaging.dfy` | `MessageQueue`, `Sender` and `ThreadSafeQueue` as objects; predicate waits against a schedule of interference |
| `Monitor.dfy` | the mutex-and-condition-variable protocol with any number of threads |
| `WorkerProtocol.dfy` | the running flag of `workerBase`, and the combined stop token |
| `ThreadManager.dfy` | `workerBase` and `ThreadManager` as objects sharing stop sources |
| `Lifecycle.dfy` | manager and task threads step by step: when stopping returns, who still owns a receiver |
| `DataTypes.dfy` | payloads and how each stage computes its output |
| `Observer.dfy`, `ObserverTimes.dfy` | the observer thread; closed forms of its timed modes, event rates |
| `Chain.dfy` | the five threads of the chain, interleaved send by send |
| `ChainThreads.dfy` | the run loops of the four consuming threads as methods |
| `Counting.dfy`, `Sequences.dfy`, `Options.dfy` | sums over sequences of threads; regrouping of sequences; an option type |

## Findings

- `restartAllThreads` replaces the stop source even if tasks still run. Those tasks keep a token
  nobody can stop any more, and from then on `stopAllThreads` blocks in `join` for ever
  (`Lifecycle.RestartWhileRunningBlocksLaterStop`, reachable by pressing `r` right after start-up).
  `stopAllThreads` returns exactly when every running task's token is stopped already or belongs to
  the present source; a restart keeps that so exactly when every running task's token is stopped.
- `stopLastThread` on the live chain destroys the result thread's queue while the transformation
  thread still sends to it. After `stopAllThreads` the same call does no harm at once, but a later
  `restartAllThreads` starts the transformation thread with a sender to the destroyed queue. The call
  is safe exactly when no other listed task, running or not, has a sender to the last one, as with a
  task added later that sends only to itself. A pointer kept by the caller of `addTask` puts the harm
  off until it is released.
- After `stopAllThreads` or `terminateAllThreads` the present source stays stopped until the next
  `restartAllThreads`: a task added in between, or a second `initTestChain`, is stopped from the start
  and ends at its first check.
- A bound of one event per 500 ms without stress commands holds exactly for observer runs that begin
  in normal mode: the mode survives a stop, so a run begun under an inherited stress mode is faster.
- Nothing in `ThreadSafeQueue` wakes a `waitPop` caller when its stop predicate becomes true. Without
  new calls or spurious wake-ups, a sleeping caller can come back exactly while some push has yet to
  reach its `notify_one`, and each such push brings back one caller: those in excess stay asleep.
- With acquire loads alone `wait_pop_for` may give up although a value was published before its last
  check, if that check loaded an older head; it gives up exactly when the entry it loaded was its own
  position.
- The comments and the console help differ from the code about stress mode (20 s, 60 s or 100 ms
  against 30 s at 10 ms), about manual normal mode (1 s against 500 ms) and about `MessageQueue::push`
  (all waiters against one). The model follows the code.

## Model

| member | source | states |
|---|---|---|
| IndexMask.TestAcceptsExactlyPowersOfTwo | src/include/threading/spScRingBuffer.hpp:45-50 | the capacity test of `init` passes exactly for powers of two, zero excluded, for every natural number |
| IndexMask.MaskIsRemainder | src/include/threading/spScRingBuffer.hpp:82 | for an accepted capacity, masking any index is the remainder |
| SpScRing.SpScRingBuffer.Init | src/include/threading/spScRingBuffer.hpp:45-59 | true exactly for a power of two, leaving an empty queue; otherwise nothing changes |
| SpScRing.SpScRingBuffer.Push | src/include/threading/spScRingBuffer.hpp:77-92 | accepted exactly when fewer than capacity minus one values are stored; appends to the queue, else leaves it; false when uninitialized |
| SpScRing.SpScRingBuffer.Pop | src/include/threading/spScRingBuffer.hpp:106-120 | takes the oldest value and leaves the rest, nothing exactly when empty or uninitialized |
| SpScRing.SpScRingBuffer.Empty | src/include/threading/spScRingBuffer.hpp:181-186 | equal indices mean an empty queue; true when uninitialized |
| SpScRing.SpScRingBuffer.Full | src/include/threading/spScRingBuffer.hpp:198-205 | true exactly when capacity minus one values are stored; false when uninitialized |
| SpScRing.SpScRingBuffer.WaitPopFor | src/include/threading/spScRingBuffer.hpp:140-163 | the wait loop returns what the schedule of offers, wake-ups and timeout determines |
| SpScRing.WaitPopFailsOnlyOnSilence | src/include/threading/spScRingBuffer.hpp:147-155 | a timed wait fails exactly when nothing was there and nothing could be stored up to the timeout, notified or not |
| SpScAtomic.RunRefinesBoundedFifo | src/include/threading/spScRingBuffer.hpp:77-120 | every step of every interleaving, with stale but monotone views, is an enqueue below capacity, a dequeue of the oldest value, or no change of a bounded queue |
| SpScAtomic.PoppedThenStoredIsAccepted | src/include/threading/spScRingBuffer.hpp:89-118 | popped values are a prefix of accepted ones, the rest is at most capacity minus one values and exactly what the slots from tail to head hold |
| SpScAtomic.SlotAccessesNeverRace | src/include/threading/spScRingBuffer.hpp:81-91 | no slot access is concurrent with a conflicting one, and a slot read can only return the write that published the oldest queued value |
| SpScAtomic.RejectionMeansFullAsSeen | src/include/threading/spScRingBuffer.hpp:84-87 | loading the tail ends the push if and only if that tail is a whole lap behind, and otherwise leads to the write; with a fresh view that is a full queue; always with capacity 1 |
| SpScAtomic.PushAcceptsExactlyItsValue | src/include/threading/spScRingBuffer.hpp:77-92 | a whole push of v, in any run: rejected after a load a lap behind with nothing accepted, or exactly v accepted, the slot written, the head stored and the notification sent |
| SpScAtomic.PushNeverBlocks | src/include/threading/spScRingBuffer.hpp:77-92 | a push under way can always take a step of its own and takes at most five |
| SpScAtomic.PopTakesExactlyWhatItSaw | src/include/threading/spScRingBuffer.hpp:106-120 | a whole pop, in any run: empty-handed exactly when the head it loads is its own position, else the oldest queued value, in four steps of its own |
| SpScAtomic.NotifyEndsSleep | src/include/threading/spScRingBuffer.hpp:165-168 | no notification, spurious wake-up or timeout is among the steps a consumer sleeps through |
| SpScAtomic.GivesUpExactlyOnEmptyView | src/include/threading/spScRingBuffer.hpp:152-162 | the timed wait returns false only at a check after the timeout, exactly when the head it loaded is its own position; the second test and the final `pop` never fail |
| SpScAtomic.SeenValueIsDelivered | src/include/threading/spScRingBuffer.hpp:157-162 | once a check has loaded a head beyond the consumer's position, every continuation delivers the oldest queued value within four more consumer steps and never gives up before |
| SpScAtomic.MissedNotifyOnlyDelays | src/include/testThreads.hpp:42-47 | a consumer asleep beside a queued value whose checks load the newest head delivers it within six steps of its own under every schedule, and can always take one |
| SpScAtomic.WaitReturnsExactlyWhatItSaw | src/include/threading/spScRingBuffer.hpp:140-163 | a whole call, in any run: it delivers the oldest queued value exactly when some check loads a head beyond its position, else it takes nothing and gives up after a timeout of its own |
| SpScAtomic.CallSurelyDeliversExactlyWhenSeen | src/include/threading/spScRingBuffer.hpp:140-163 | before the call: it delivers in every continuation if and only if the consumer has already seen a head beyond its own position |
| SpScAtomic.CallsTakeAcceptedInOrder | src/include/threading/spScRingBuffer.hpp:140-163 | the values a consumer's successive timed waits return, however old the heads they load, are in order a prefix of the values accepted |
| SpScAtomic.StaleViewCanMissAValue | src/include/threading/spScRingBuffer.hpp:185 | a run in which the wait gives up on an older head although a value was already published |
| Messaging.MessageQueue.Push | src/include/messaging/messageQueue.hpp:83-89 | appends at the back |
| Messaging.MessageQueue.TryPop | src/include/messaging/messageQueue.hpp:115-118 | front or nothing, the rest in order |
| Messaging.MessageQueue.Wait | src/include/messaging/messageQueue.hpp:128-134 | the unbounded wait never returns without an item |
| Messaging.MessageQueue.WaitFor | src/include/messaging/messageQueue.hpp:144-154 | the timed wait against any interference; nothing only from an empty queue |
| Messaging.MessageQueue.Clear | src/include/messaging/messageQueue.hpp:162-166 | empties the queue |
| Messaging.Sender.Send | src/include/messaging/messageSender.hpp:97-107 | exactly one enqueue when bound, none when unbound |
| Messaging.FirstSuccessfulCheckDecides | src/include/messaging/messageQueue.hpp:146-153 | the first check that does not go back to sleep decides: the front item if there is one, nothing only on an empty queue |
| Messaging.ThreadSafeQueue.WaitPop | src/include/threading/threadSafeQueue.hpp:83-95 | the wait with a stop predicate against any interference |
| Messaging.StoppedQueueDrainsInOrder | src/include/threading/threadSafeQueue.hpp:85-94 | with the stop predicate true, repeated calls return everything added in order before the first empty result |
| Monitor.NoLostWakeUp | src/include/messaging/messageQueue.hpp:83-89 | while somebody sleeps un-notified, the queue is no longer than the woken waiters that have not rechecked plus the producers before `notify_one` |
| Monitor.FifoUnderMutualExclusion | src/include/messaging/messageQueue.hpp:83-166 | removed then queued is exactly the values of the push critical sections, read off the steps of the run, in order; one thread at a time in the critical section |
| Monitor.CallHasItsEffect | src/include/messaging/messageQueue.hpp:83-118 | a push call appends the value it was called with, `try_pop` takes the front item if there is one, `clear` everything, in any run from the call to its critical section |
| Monitor.WokenRechecks | src/include/messaging/messageQueue.hpp:144-154 | a caller notified, spuriously woken or timed out checks again, and the check after its timeout ends the call |
| Monitor.CallReturnsItemOrGivesUp | src/include/messaging/messageQueue.hpp:128-154 | a whole blocking call, in any run: all checks but the last find the queue empty and take nothing; the last takes the front item, or finds it empty with the stop predicate true or a timeout of this call |
| Monitor.EmptyReturnMeansAllTaken | src/include/threading/threadSafeQueue.hpp:83-95 | with any number of callers, one comes back with nothing only when everything ever pushed has been taken, and otherwise takes the next in push order |
| Monitor.InternalStepsServeEverySleeper | src/include/messaging/messageQueue.hpp:115-154 | every stretch of lock, critical-section and notify steps is bounded, and where it ends an item and a sleeper never remain together |
| Monitor.StoppedCallerReturnsExactlyWithPushInFlight | src/include/threading/threadSafeQueue.hpp:83-95 | with the predicate true, the program's own steps can bring a sleeping `waitPop` caller back if and only if some push has yet to reach its notify |
| Monitor.StopLeavesExcessSleepers | src/include/threading/threadSafeQueue.hpp:36-43 | with the predicate true, every schedule of those steps is bounded and leaves asleep exactly the callers in excess of the pushes on their way |
| Monitor.StoppedCallerCanSleepOn | src/include/threading/threadSafeQueue.hpp:83-90 | a run that leaves a caller asleep with the predicate true and nothing owed |
| WorkerProtocol.AtMostOneRunBody | src/include/workerBase.hpp:39-71 | at most one run body is active over any starts, returns, joins and re-starts by any number of callers, and only while the flag is set |
| WorkerProtocol.NotRunningAfterJoin | src/include/workerBase.hpp:97-109 | with one control thread the flag is clear after `join`, every thread has ended and none is owned |
| WorkerProtocol.JoinCompletes | src/include/workerBase.hpp:97-101 | while the control thread waits in `join`, each thread step uses up what was left, the owned thread can always go on until it has ended, and then the join returns and a new start can begin |
| WorkerProtocol.StartGoesOn | src/include/workerBase.hpp:39-71 | a start that won the compare-and-swap can always take its next step and has at most two |
| WorkerProtocol.StartReturns | src/include/workerBase.hpp:39-71 | it comes back owning exactly one new thread, or with the flag clear and nothing else changed if none could be made |
| WorkerProtocol.StartExcludesOthers | src/include/workerBase.hpp:43-52 | from a successful compare-and-swap every start is refused until the thread clears the flag or could not be made |
| WorkerProtocol.AssignNeverBlocks | src/include/workerBase.hpp:54 | assigning the new thread never waits for the old one, which has cleared the flag |
| StopTokens.CombinedIsEither | src/include/workerBase.hpp:54-59 | the token given to `run` is stopped only if a source is, and exactly then once registrations and requests have settled |
| StopTokens.ReturnedRequestIsSeen | src/include/workerBase.hpp:54-64 | once `request_stop` on a source has returned, the token of a body whose callback on it is constructed is stopped for good |
| StopTokens.NoIterationAfterReturn | src/include/testThreads.hpp:58 | once `request_stop` has returned no further iteration of a body begins, and its next check ends its loop |
| StopTokens.WindowHasNoBound | src/include/workerBase.hpp:54-64 | before it returns there is no bound: for every n a run in which n iterations begin between the request's first effect and its callback |
| StopTokens.CombinedNeverReverts | src/include/workerBase.hpp:56-59 | a stopped token stays stopped |
| StopTokens.SettlingIsBounded | src/include/workerBase.hpp:56-59 | settling takes at most eight steps other than new requests and is never held up |
| Managing.Worker.Start | src/include/workerBase.hpp:39-71 | true exactly when ready, not running and the thread was made; else nothing changes |
| Managing.Worker.Join | src/include/workerBase.hpp:97-101 | returns exactly when no body runs or its token is stopped, and then nothing runs |
| Managing.Worker.StopAndWait | src/include/workerBase.hpp:106-109 | always returns, with nothing running |
| Managing.ThreadManager.AddTask | src/include/threadManager.hpp:107-113 | a task is listed exactly when it started, with a token of the manager's source |
| Managing.ThreadManager.RestartAllThreads | src/include/threadManager.hpp:129-138 | a fresh source; running tasks untouched; afterwards stopping is possible exactly if every task that was running has a stopped token |
| Managing.ThreadManager.StopAllThreads | src/include/threadManager.hpp:143-149 | returns exactly when every running task's token is stopped or of the present source, and then nothing runs |
| Managing.ThreadManager.TerminateAllThreads | src/include/threadManager.hpp:154-157 | clears the list exactly when stopping returns, after all tasks have ended |
| Managing.ThreadManager.StopLastThread | src/include/threadManager.hpp:162-167 | drops the last task, stopped, and leaves the others alone |
| Lifecycle.StopTerminates | src/include/threadManager.hpp:143-149 | with matching tokens, every schedule ends within the loop steps and joins left, is never stuck, and leaves nothing running |
| Lifecycle.StopReturnsExactlyWhenTokensMatch | src/include/threadManager.hpp:143-149 | some continuation of `stopAllThreads` finishes if and only if every running task's token is stopped or of the present source |
| Lifecycle.StoppedBodyEndsWithItsIteration | src/include/testThreads.hpp:148 | once its token is stopped a body stays stopped whatever the manager does, takes exactly the steps left in its iteration, and is over at its next check |
| Lifecycle.BodyLeavesOnlyWhenStopped | src/include/testThreads.hpp:148 | a body leaves its loop exactly at a check of its own that finds its token stopped |
| Lifecycle.StopKeepsOrClears | src/include/threadManager.hpp:143-157 | a stop that comes back leaves the task list as it was, a terminate leaves it empty |
| Lifecycle.RequestReachesCurrent | src/include/threadManager.hpp:144 | a request stops the token of every body that holds one of the present source |
| Lifecycle.RestartStartsEveryIdleTask | src/include/threadManager.hpp:129-138 | a restart that comes back has made a source never had before and not stopped, and every listed task that was idle runs with an unstopped token of it |
| Lifecycle.RunsUntilStopped | src/include/threadManager.hpp:129-167 | a task running with an unstopped token goes on so until a stop of all or of itself is requested |
| Lifecycle.StartedStoppedExactlyWithSource | src/include/threadManager.hpp:107-113 | a task started outside a restart is stopped from the start exactly if the present source is |
| Lifecycle.StopLeavesSourceStopped | src/include/threadManager.hpp:143-149 | after a stop the present source stays stopped until the next restart |
| Lifecycle.KeptTaskStaysAlive | src/include/threadManager.hpp:120-124 | a task whose pointer the caller of `addTask` kept is there until it is released |
| Lifecycle.DisciplineKeepsTokensCurrent | src/include/threadManager.hpp:129-138 | if restarts happen only while nothing runs, every active body holds a token of the present source |
| Lifecycle.StopTerminatesAfterSafeRestarts | src/include/threadManager.hpp:129-149 | in runs whose restarts find every active token stopped, every stop terminates under every schedule with nothing running |
| Lifecycle.RestartSafeExactlyWhenAllStopped | src/include/threadManager.hpp:129-138 | from a state that can be stopped, a restart keeps it so in all that can follow if and only if every active body's token is stopped already |
| Lifecycle.RestartWhileRunningBlocksLaterStop | src/include/threadManager.hpp:130-133 | a restart while an unstopped body runs makes every later stop block for ever, unless `stopLastThread` comes between |
| Lifecycle.RestartAfterStartUpOrphans | src/include/threadManager.hpp:21-46 | a restart right after start-up reaches that state |
| Lifecycle.ReceiversOutliveSenders | src/include/threadManager.hpp:33-124 | no active body ever holds a sender to a destroyed task, in any mixture of initialisation, added tasks, stops, restarts, terminations and drops of a last task that no other listed task has a sender to |
| Lifecycle.StopLastSafeExactlyWhenUnused | src/include/threadManager.hpp:162-167 | dropping the last task keeps that guarantee in every state that can follow if and only if no other listed task, running or not, has a sender to it |
| Lifecycle.UnusedTaskCanBeDropped | src/include/threadManager.hpp:120-124 | a run that adds a task sending only to itself and drops it under that test |
| Lifecycle.StopLastAfterStartUpDangles | src/include/threadManager.hpp:21-46 | a run from start-up through `stopLastThread` that ends with a dangling sender |
| Lifecycle.StoppedDropDanglesOnRestart | src/include/threadManager.hpp:129-167 | with everything stopped, dropping a last task that fails the test and that no caller holds does no harm at once, and a restart after it leaves a dangling sender |
| Lifecycle.StopDropRestartDangles | src/include/threadManager.hpp:129-167 | a run from start-up through stop, drop and restart that ends so |
| Lifecycle.StopLastAlwaysReturns | src/include/workerBase.hpp:106-109 | `stopLastThread` always returns: the steps the dropped body has left are never added to, and its body or the join can always go on |
| Observer.ObserverIncomingThread.SendCommand | src/include/testThreads.hpp:42-47 | accepted exactly when fewer than seven commands wait |
| Observer.ObserverIncomingThread.ApplyCommand | src/include/testThreads.hpp:92-114 | the new settings for each command |
| Observer.ObserverIncomingThread.Run | src/include/testThreads.hpp:56-87 | settings, buffer and both outgoing queues after any number of rounds |
| Observer.SimulationIsFold | src/include/testThreads.hpp:56-87 | what the loop computes is the fold over the commands it pops |
| ObserverTimes.AppliedCommandsArePrefixOfAccepted | src/include/testThreads.hpp:61-63 | commands applied are a prefix of those accepted, the rest still buffered |
| ObserverTimes.AppliedUnderOldViews | src/include/testThreads.hpp:61-63 | with every wait an interleaved call that may load old heads, a round applies the next accepted command exactly if one of its checks saw a value |
| ObserverTimes.DeadlineOfLastPause | src/include/testThreads.hpp:94-101 | the pause deadline is that of the most recent stop or start command |
| ObserverTimes.EmitsExactlyOutsidePause | src/include/testThreads.hpp:73-75 | a round emits exactly when its clock has reached that deadline |
| ObserverTimes.ModeAfterStressCommand | src/include/testThreads.hpp:66-71 | after a stress command: 10 ms until a check reads 30 s past it, then normal at 2000 ms |
| ObserverTimes.ModeAfterNormalCommand | src/include/testThreads.hpp:108-112 | after a set-normal command: normal at 500 ms |
| ObserverTimes.ModeBeforeAnyCommand | src/include/testThreads.hpp:66-71 | without mode commands: the settings at the start, apart from an inherited stress mode that expires |
| ObserverTimes.IntervalFollowsMode | src/include/testThreads.hpp:102-112 | stress goes with 10 ms, normal with 500 or 2000 ms |
| ObserverTimes.AtMostOneEventPerTenMs | src/include/testThreads.hpp:58-87 | events are at most the commands popped plus one per 10 ms elapsed |
| ObserverTimes.HalfSecondRateExactlyFromNormal | src/include/testThreads.hpp:58-87 | without stress commands the bound is one per 500 ms if and only if the run begins in normal mode |
| ObserverTimes.OneStressCommandGivesAtMost3000Events | src/include/testThreads.hpp:102-107 | one stress command gives at most 3000 events in stress mode, plus one per later command |
| ObserverTimes.StressBoundsAreAttained | src/include/testThreads.hpp:102-107 | from any settings a run with one stress command emits exactly 3000 events in stress mode and one per 10 ms: both bounds are exact |
| ObserverTimes.EventsAreNumberedAndOrdered | src/include/testThreads.hpp:77 | event k of a run is named and sized by k, stamps in order |
| ObserverTimes.EventNamesAreDistinct | src/include/testThreads.hpp:77 | two events of one run never share a file name |
| DataTypes.DecimalDenotes | src/include/testThreads.hpp:77 | numbers are written in decimal: read digit by digit from the left the string gives the number back, without leading zeros |
| DataTypes.NamesTellFilesApart | src/include/testThreads.hpp:77-187 | file names, and identifiers, are equal exactly for equal numbers |
| Chain.NothingLostDuplicatedOrReordered | src/include/testThreads.hpp:56-252 | files reported, in hands and in queues are exactly the files sent, in order, across any schedule with stops and restarts |
| Chain.ReportsAreTheFilesInOrder | src/include/testThreads.hpp:150-249 | report k is file k through every stage: value 63, result 42, its own name, size and identifier, non-negative chain duration |
| Chain.RunsFromStartToExit | src/include/testThreads.hpp:56-252 | a thread runs exactly from its start to its exit, only then takes steps, and can be started again whenever it is not running |
| Chain.CrossPathCounts | src/include/testThreads.hpp:77-158 | counts of files, direct events, mirrors and application events stay within one of each other, in every prefix of the processing inbox; the observer's inbox is exactly the mirrors |
| Chain.SideMessagesAreNumbered | src/include/testThreads.hpp:77-154 | direct event k carries the number of file k in its observer run; mirrors count from 1 in each run of the application observer, across stops and restarts |
| Chain.LoadStep | src/include/testThreads.hpp:146-222 | a dequeue with what it will send lowers the weighted load by exactly one |
| Chain.LoadIsAccounted | src/include/testThreads.hpp:56-252 | in every state of every run, observer, stops and restarts included, the dequeues made and the load still there are four per file sent and one per direct event |
| Chain.DrainsUnderEverySchedule | src/include/testThreads.hpp:146-252 | without the observer the chain empties after exactly its load in dequeues under every schedule, with everything sent reported |
| ChainThreads.ApplicationObserverThread.Run | src/include/testThreads.hpp:146-160 | inbox, mirror queue and next queue after any number of rounds |
| ChainThreads.ProcessingThread.Run | src/include/testThreads.hpp:181-192 | forwards processed data for application events, drops direct events |
| ChainThreads.TransformationThread.Run | src/include/testThreads.hpp:212-222 | forwards transformed data |
| ChainThreads.ResultThread.Run | src/include/testThreads.hpp:239-252 | prints each result with its reception time |
| ChainThreads.GoneThenLeftIsArrived | src/include/messaging/messageQueue.hpp:83-166 | whatever others push, pop or clear, what was there and what was pushed is popped, taken by others or still there, in order |
| ChainThreads.PoppedThenLeftIsArrived | src/include/messaging/messageQueue.hpp:144-154 | with one consumer, a run's popped messages then its inbox are what was there and all that was pushed, in order |
| ChainThreads.StagePassesFilesOn | src/include/testThreads.hpp:146-222 | a stage passes on the files of all it popped, in order |
| ChainThreads.AppObserverRunInChain | src/include/testThreads.hpp:146-159 | a whole run over any rounds is a path of enabled steps of the interleaved chain, on which what was pushed arrives, ending with the queues `Run` computes |
| ChainThreads.ProcessingRunInChain | src/include/testThreads.hpp:181-192 | the same for the processing thread |
| ChainThreads.TransformationRunInChain | src/include/testThreads.hpp:212-222 | the same for the transformation thread |
| ChainThreads.ResultRunInChain | src/include/testThreads.hpp:239-252 | the same for the result thread, with what it prints |
| ChainThreads.ObserverRunInChain | src/include/testThreads.hpp:56-87 | the same for a whole observer run, whatever the commands and clocks, ending with the two inboxes grown by what `Run` sends |

## Left out

- Option parsing, console input, the main loop and the daemon (`main.cpp`, `daemon.cpp`, `daemon.hpp`): only the order of lifecycle calls matters here.
- Logging, memory printing, `stopTimer.hpp`, and one-line queries such as `getThreadCount`.
- Type erasure (`MessageWrapper`, shared pointers): messages are a tagged datatype.
- `Task` lambdas, post-send callbacks and `waitFor` of `workerBase`: arbitrary user code; the chain is wired without callbacks.
- Exceptions from `run()`, memory exhaustion, and destroying a task object while its thread runs.
- Failure of a start inside `initTestChain`: `Lifecycle` takes every start of the chain to succeed, as `AddTask` and `WorkerProtocol` do not.
- Calling `init` of the ring again after sharing it, and more than one producer or consumer on it.
- Several threads writing the `jthread` member at once: `WorkerProtocol` counts run bodies for any number of callers but does not treat the unsynchronised member itself.
- Upper bounds on scheduling latency: a timed-out wait lasts at least its interval; nothing is said of how late a thread runs.
- Integer widths: counters are unbounded, so an observer run of 2^31 events or more is not covered; ring indices stay below the capacity and cannot overflow.
- Managing.Worker.Join: does not show the body's remaining steps; blocking for ever is a false result, and `Lifecycle` proves step by step that this is when `stopAllThreads` blocks, and that `stopLastThread` never does.
- Observer.ObserverIncomingThread.Run: takes clock readings and interference as rounds; that a timed-out wait lasts its interval is the hypothesis `Timed` of the rate theorems.
- Observer.ObserverIncomingThread.constructor: takes the two senders at once, where the source sets them by `setNext` and `setDirectToProcessing` before the thread starts.
- ChainThreads.ApplicationObserverThread.Run: other threads act on its own inbox while it waits, not on the queues it sends to; `Chain` has that interleaving.
- ChainThreads.PoppedThenLeftIsArrived: for the inboxes of the chain, which have one consumer and are never cleared; `GoneThenLeftIsArrived` has the other cases.
- Messaging.StoppedQueueDrainsInOrder: one draining caller, producers adding between its calls; `Monitor.EmptyReturnMeansAllTaken` has any number of callers.
- Lifecycle.StoppedBodyEndsWithItsIteration: a source is read in one step, so the window in which `request_stop` has set its bit but not yet run a body's callback is absent; `StopTokens` has it, with no bound on the iterations begun in it and none begun after it.
- Lifecycle.ReceiversOutliveSenders: tasks are added once, when new, with senders to listed tasks or themselves; adding a stopped task again, or one that sends to a task only its caller holds, is not covered.
