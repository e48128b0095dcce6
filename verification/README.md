# The uvco coroutine runtime, and its example HTTP server, as a verified model

uvco runs C++20 coroutines on one thread. A coroutine that calls a coroutine starts it at once; the
callee runs until it first suspends and hands back a promise. A coroutine that awaits a promise leaves
its handle in the promise's core, in a channel's ring of waiters, or with the event loop, and gives
control to whatever the scheduler has queued. When something happens, the handle goes into one shared
deque and is resumed from there. Handles are raw pointers: the runtime is right only if no handle ever
outlives its coroutine, no coroutine is resumed twice for one event, and none is forgotten. No single
function shows that this is so; it rests on invariants that span half a dozen files. This project
models those files and proves these invariants for all runs.

## How the model is built

- **Objects that the code updates in place are classes** with the code's fields, and methods with the
  code's branches and loops: `Scheduler`, `PromiseCore`, `PromiseCoreVoid`, `MultiPromiseCore`,
  `SelectSet`, `BoundedQueue`, `Channel`, `WaitPoint`, `TaskSet`, `HttpResponse`. The contract of a
  method states its result and the whole new state through functions of the old state.
- **Runs are sequences of events** over the values of those functions. Every event of a run must be
  enabled when it happens; theorems speak of every run, whatever the coroutines do in between. Bodies
  of coroutines are never fixed.
- **`Runtime` puts the pieces together**: frames with their cores, owners and suspension points, the
  deque, the channels, and the stack of coroutines that are nested in each other by eager starts and by
  the handoff through `Loop::getNext()`. Only the top of the stack acts; but it may destroy, overwrite
  or move any promise that exists, whoever owns it, as `TaskSetImpl::wrap` does with the promises of
  other tasks.
- **The two levels are connected.** `RuntimeMeaning` says what each event of the runtime means for its
  parts: what the scheduler is asked, in program order; what happens to each promise and each generator;
  who runs, where everybody stands, and who owns whom. `RuntimeComposition` proves that every event does
  exactly that. So the runtime is the composition of the machines whose runs `SchedulerRuns`,
  `PromiseRuns`, `GeneratorRuns` and (through `ChannelRefinement`) `ChannelRuns` describe, and their
  theorems hold inside it.

Files, from the bottom up:

| file | contents |
|---|---|
| `Wrappers.dfy` | `Option`, `Result` |
| `BoundedQueue.dfy` | the ring buffer: growth phase, wrap phase, in-place edits |
| `Scheduler.dfy`, `SchedulerRuns.dfy` | the tombstoned deque, and whole runs of it against a definition without deque and tombstones |
| `Handoff.dfy`, `DrainRuns.dfy` | draining with and without symmetric handoff, and against a definition without deque |
| `PromiseCore.dfy`, `PromiseCoreVoid.dfy` | promise cores, and every run of one promise |
| `MultiPromise.dfy` | generators and the handshake with their consumers |
| `SelectSet.dfy` | waiting for several promises |
| `Channel.dfy`, `ChannelRuns.dfy`, `ChannelStream.dfy` | channels, all runs of one channel, and a channel drained by `getAll()` |
| `Runtime.dfy` | the whole runtime as a transition system |
| `RuntimeDestruction.dfy` | recursive destruction |
| `RuntimeInvariant.dfy`, `RuntimeSteps.dfy`, `RuntimeSafety.dfy` | the invariant, and that every step keeps it |
| `RuntimeTheorems.dfy` | what the invariant means for users |
| `RuntimeChannels.dfy`, `ChannelRefinement.dfy` | the channels of the runtime are channels in the sense of `ChannelRuns` |
| `RuntimeOwnership.dfy` | programs for which the ownership hypothesis holds, wholly or in part, by construction |
| `RuntimeMeaning.dfy`, `RuntimeComposition.dfy` | what each event means for the parts of the runtime, and that it does that |
| `RuntimeEnds.dfy` | who dies with a promise and at the end of a coroutine, and what is left |
| `RuntimeHistories.dfy`, `RuntimeStreams.dfy` | whole runs with a record of each part: what awaiters and consumers receive |
| `Hazards.dfy` | runs that break the hypotheses |
| `WaitAny.dfy`, `TaskSet.dfy` | combinators |
| `Text.dfy`, `HttpFraming.dfy`, `HttpMessages.dfy`, `HttpRequests.dfy`, `HttpResponses.dfy` | the example server: reading, printing and parsing headers |

## Hypotheses, and where the code does not do what it promises

The code relies on its users for some things. They are written out as the guards of events
(`Runtime.Callable`, `Runtime.Enabled`), and where possible the guard is shown to be exactly what is
needed:

- *A promise is not awaited while it is awaited, and the members of a select set are distinct.* The
  code asserts the first.
- *What is destroyed is not referred to any more.* The awaiters of promises and generators do not
  deregister when they are destroyed (uvco/promise/promise.h:128, uvco/promise/multipromise.h:216);
  only select sets and channel awaiters do. The guard is `Runtime.Droppable`: no survivor refers to what
  dies, none of it is on the stack of nested coroutines, and none of it waits, by a plain `co_await`,
  for a promise that survives. `RuntimeSafety.DropIsSafeExactly` and `FinishIsSafeExactly` prove that
  dropping a promise, and ending a coroutine, keep the invariant if and only if the guard holds.
  - A coroutine that returns stores its outcome and wakes its waiter before its locals are destroyed;
    one that is left by an exception is unwound first. So the guard is evaluated at different moments,
    and `Unwinding.UnwoundChildIsScheduled` is a reachable world in which returning is safe and
    throwing schedules a destroyed coroutine.
  - `DroppedNext.DroppedNextIsScheduled` is a reachable world in which a dropped call of
    `MultiPromise::next()` is scheduled after its destruction.
  - `RuntimeOwnership.StructuredRunsAreSafe` discharges the guard for two disciplines. If coroutines
    await only promises among their own locals, what remains is that nobody drops a coroutine that is
    on the stack. If they also await promises of coroutines that they live in, as `waitAny`, `waitAll`
    and `next()` do, what remains in addition is that what is dropped or passed on is not awaited from
    outside, that nothing that dies waits outside by a plain `co_await`, and that a promise is moved
    only to a coroutine that lives where it was, or with all that its coroutines await.
- *A promise is not moved into a coroutine that would die with it, nor while a suspended select set
  holds a pointer to it.*
- *A select set that has never been awaited is not destroyed while somebody else awaits one of its
  members.* Its destructor takes away their waiting handles, whoever has registered them
  (uvco/promise/select.h:63-69). `RuntimeSafety.SetDropIsSafeExactly` proves that destroying it keeps the
  invariant if and only if none of its members is awaited.
- *Whoever waits at a channel and has been woken is not destroyed before it runs.* Without it a wake-up
  can be lost: `ChannelRuns.CancelWokenForgetsExactly` says when, `CancelWokenLosesWakeup` is a run. With
  it, a drained scheduler leaves readers only at empty channels and writers only at full ones
  (`ChannelRefinement.DrainedChannelsAreIdle`). Only the theorems about waiting at channels need this.
- *A fresh reader does not take an item that is owed to a woken one.* A call that does so is exactly one
  after which some order of resumptions fails (`ChannelRuns.BypassedExactly`,
  `ResumptionsSucceedExactly`); `BypassFails` is a run. With one producer and one consumer it never
  happens. In a run without such calls every woken coroutine finds its item or its free slot
  (`ChannelRefinement.ResumedFindsItsItem`).
- *A generator has one consumer at a time, who does not die before it.* The code asserts only that a
  generator is not awaited by two coroutines at once. A second consumer may come after the first one has
  been woken, and take the value: then the first one is told that the generator has ended, although it
  goes on. `StolenValue.ValueIsStolen` is a reachable world in which that is about to happen, and
  `RuntimeHistories.NothingLeftExactly` says when it does. Only the theorems of `RuntimeStreams` need this
  hypothesis; that values come in order, each once, holds without it
  (`RuntimeHistories.GeneratorHandsOutInOrder`).
- *Integers.* The counters of `BoundedQueue` are below 2^32, and a `std::vector` has exactly the
  capacity it was asked to reserve. Sizes in `TaskSet` wrap around at 2^64, explicitly.

Other results of the kind "this holds if and only if":

- Draining with symmetric handoff resumes the same coroutines in the same order as draining without it,
  at every moment, if and only if no coroutine starts another one that suspends while something is
  queued (`Handoff.TurnsAgreeExactly`, `Handoff.DrainsAgreeExactly`, `Handoff.HandoffOvertakes`). Both
  ways of draining resume what the rule of `SchedulerRuns` says, at each moment at which they ask for the
  next coroutine (`DrainRuns.DrainServesSurvivors`).
- The end of a task releases those who wait for an empty `TaskSet` if and only if the unfinished stored
  tasks and the leaked ones together are one; or two, while the task that is to be cleaned up next has
  not been stored yet (`TaskSets.EndReleasesExactly`, in all runs). While every task ends after `add`
  has stored it, that is when the last one ends (`TaskSets.OrderlyEndReleasesExactly`). Otherwise the
  release can come too early or not at all, and `TaskSets.EndIsWrongExactly` says when. A single task
  that ends inside `add` releases too early if and only if exactly one stored task is unfinished
  (`TaskSets.EagerEndReleasesEarlyExactly`, `TaskSets.ReleasedEarly`); with nested calls of `add` it can
  happen while two are unfinished (`TaskSets.ReleasedByNestedAdds`), and after a leak the release can
  fail to come although everything is over (`TaskSets.NeverReleased`).
- A task that ends inside `add` is cleaned up later if and only if no other task ends before it is
  stored (`TaskSets.LeakedExactly`, `TaskSets.LeakHappens`); that takes a coroutine that calls `add`
  while control is handed on inside another call of `add`. A set with a leaked task reports to be empty
  only while that task is the only one stored and yet another one has ended inside `add`
  (`TaskSets.LeakedIsEmptyExactly`, `TaskSets.LeakIsHidden`).
- `waitAny` unwraps the ready promises in order, and the first exception ends it: the results that it has
  unwrapped by then are gone. In a run of calls a result is lost if and only if some call finds it ready
  before the first member that has thrown (`WaitAnys.LostExactly`; `WaitAnys.ResultIsLost` is a run). The
  member that has thrown is never consumed, so a call throws if and only if some promise has thrown by
  then (`WaitAnys.CallThrowsExactly`), and no later call ever returns anything
  (`WaitAnys.ThrownMemberKeepsThrowing`).
- What `readHeaders` returns depends on how the bytes arrive if and only if the headers end between
  bytes 8194 and 12288 (`HttpFraming.FramingDependsOnChunkingExactly`), although the limit is named
  8 KB. What has been read behind the headers is thrown away, also on connections that are kept open;
  nothing is lost if and only if the headers end with a chunk (`HttpFraming.LostExactly`).
- A client reads out of a printed response what has been put into it, the body included, if and only if
  the status message contains no line end and the headers are clean (`HttpResponses.ResponseIsReadExactly`).
- `Promise<void>` differs from `Promise<T>`: a fetched exception stays and is rethrown again, and
  `unwrap()` consumes nothing. The contracts of `PromiseCoreVoid` say exactly when the two differ.
- The comment in uvco/promise/select.h:94-98 expects spurious wake-ups of select sets. Since
  `await_resume` cancels the coroutine's other entries, there are none
  (`RuntimeTheorems.NoSpuriousWakeup`); the list of ready members is empty only if somebody else has
  fetched the results. A select set over promises that have all been consumed waits forever
  (`WaitAnys.SuspendedCallIsAnswered`).

## Model

| member | source | states |
|---|---|---|
| BoundedQueues.BoundedQueue.Put | uvco/bounded_queue.h:54-70 | appends to the abstract queue, or reports a full queue and changes nothing; capacity 0 included; the assertion tail <= head and all index accesses hold |
| BoundedQueues.BoundedQueue.Get | uvco/bounded_queue.h:72-80 | takes the oldest element, or reports an empty queue and changes nothing |
| BoundedQueues.BoundedQueue.ForEach | uvco/bounded_queue.h:82-89 | maps exactly the queued elements, in place and in order |
| BoundedQueues.ViewAppend | uvco/bounded_queue.h:62-69 | pushing back while the vector grows, and overwriting the place behind the last element once it is full, both append to the same abstract sequence |
| BoundedQueues.ViewDrop | uvco/bounded_queue.h:76-78 | advancing the tail, also across the end of the vector, drops the oldest element |
| Schedulers.Scheduler.Enqueue | uvco/loop/scheduler.cc:34-39 | one more entry at the back |
| Schedulers.Scheduler.Cancel | uvco/loop/scheduler.cc:44-55 | every entry of the handle becomes null, the others stay in place |
| Schedulers.Scheduler.GetNextInner | uvco/loop/scheduler.cc:65-79 | returns and removes the first entry that is neither null nor done, with everything before it |
| Schedulers.EnqueueAppends | uvco/loop/scheduler.cc:34-39 | on the FIFO of live handles, enqueue appends; nothing happens for a done coroutine |
| Schedulers.CancelRemoves | uvco/loop/scheduler.cc:44-55 | on the FIFO of live handles, cancel filters out one handle and keeps the order of the others |
| Schedulers.NextTakesHead | uvco/loop/scheduler.cc:65-79 | on the FIFO of live handles, getNextInner takes the head, and returns the no-op coroutine exactly when there is none |
| SchedulerRuns.DequeRefinesSurvivors | uvco/loop/scheduler.cc:34-79 | after every run of enqueues, cancels, completions and takes, the next handle is that of the oldest enqueue event that was not cancelled afterwards, is not done and has not been served; so a re-enqueue after a cancel survives |
| SchedulerRuns.ServedInOrder | uvco/loop/scheduler.cc:65-79 | no enqueue event is served twice, and they are served in the order of enqueueing |
| Handoff.TurnsAgreeExactly | uvco/loop/scheduler.cc:13-30 | one turn with handoff and one without lead to the same state if and only if the turn does not start a coroutine that suspends while a live handle is queued |
| Handoff.DrainsAgreeExactly | uvco/loop/scheduler.cc:21-63 | the drains with handoff on and off agree after every number of turns if and only if there is no such turn in the whole drain |
| DrainRuns.DrainServesSurvivors | uvco/loop/scheduler.cc:13-79 | for all bodies, with the handoff on or off: after every number of turns a drain has resumed exactly the handles that the definition without deque serves over the log of all enqueues, cancels, completions and takes in program order, and has the state and the nested coroutines which that implies |
| Handoff.DrainsAgree | uvco/loop/scheduler.cc:21-63 | without such turns, whole drains resume the same handles in the same order with handoff on and off, for all bodies, enqueues and cancels |
| Handoff.HandoffOvertakes | uvco/loop/scheduler.cc:57-63 | a program for which the two drains differ |
| Cores.PromiseCore.SetHandle | uvco/promise/promise_core.h:58-64 | registers the waiter in state init, and otherwise throws and changes nothing |
| Cores.PromiseCore.ResetHandle | uvco/promise/promise_core.h:74-82 | the only way back from waitedOn; afterwards nobody is registered; its assertion holds for every well-formed core |
| Cores.PromiseCore.Resume | uvco/promise/promise_core.h:100-112 | finishes the core and enqueues exactly its waiter |
| Cores.PromiseCore.CancelCoroutine | uvco/promise/promise_core.h:114-121 | cancels the coroutine unless the core is finished |
| Cores.PromiseCore.ReturnValue | uvco/promise/promise.h:315-323 | stores the value and wakes the waiter; a stored exception is kept and nobody is woken |
| Cores.PromiseCore.UnhandledException | uvco/promise/promise.h:344-347 | stores the exception and wakes the waiter |
| Cores.PromiseCore.AwaitResume | uvco/promise/promise.h:147-169 | delivers value or exception once and empties the slot; throws for fetched and for unfulfilled promises |
| Cores.PromiseCore.Unwrap | uvco/promise/promise.h:94-111 | delivers a value once; an exception stays in the slot |
| PromiseRuns.EveryRunDelivers | uvco/promise/promise.h:132-169 | in every run of one promise: registered exactly in state waitedOn, ready only when finished, at most one waiter ever woken; the value is handed out at most once and is what was returned, an exception handed out is the one that was thrown, and until a result is handed out it is in the slot |
| PromiseRuns.FirstTakerGetsTheOutcome | uvco/promise/promise.h:94-169 | in every run: the first co_await after the end gives exactly the value or the exception with which the coroutine has ended, and every later one reports a fetched promise; unwrap does the same, except that it does not use up an exception; before the end there is nothing |
| PromiseRuns.WhoRegistersIsWoken | uvco/promise/promise_core.h:58-112 | whoever registers is what the end of the coroutine puts into the scheduler, unless it has deregistered |
| PromiseRuns.EveryRunGoesForward | uvco/promise/promise_core.h:58-112 | in every run the state only moves forward, except from waitedOn to init by resetHandle |
| PromiseRuns.LaterAwaitsThrow | uvco/promise/promise.h:147-169 | once the value has been handed out, every later await or unwrap throws |
| PromiseRuns.RegisteredIsWoken | uvco/promise/promise_core.h:100-112 | the waiter that is registered when the coroutine ends is the one that is woken |
| VoidCores.PromiseCoreVoid.SetHandle | uvco/promise/promise_core.cc:16-23 | agrees with the value-carrying core |
| VoidCores.PromiseCoreVoid.ResetHandle | uvco/promise/promise_core.cc:50-58 | agrees with the value-carrying core |
| VoidCores.PromiseCoreVoid.Resume | uvco/promise/promise_core.cc:31-41 | agrees with the value-carrying core |
| VoidCores.PromiseCoreVoid.CancelCoroutine | uvco/promise/promise_core.cc:64-71 | cancels the coroutine unless the core is finished |
| VoidCores.PromiseCoreVoid.ReturnVoid | uvco/promise/promise.cc:81-84 | agrees with the value-carrying core |
| VoidCores.PromiseCoreVoid.UnhandledException | uvco/promise/promise.cc:86-89 | agrees with the value-carrying core |
| VoidCores.PromiseCoreVoid.AwaitResume | uvco/promise/promise.cc:33-43 | every co_await rethrows the stored exception, which stays; a return is reported once; the result is the one of the value-carrying promise, and so is the new state if and only if no exception is rethrown |
| VoidCores.PromiseCoreVoid.Unwrap | uvco/promise/promise.cc:71-79 | rethrows the stored exception, or reports the return, and changes nothing; the same result as the value-carrying promise, and the same new state if and only if it throws |
| Generators.MultiPromiseCore.SetHandle | uvco/promise/multipromise.h:42-58 | a finished generator core can be waited for again |
| Generators.MultiPromiseCore.ResumeGenerator | uvco/promise/multipromise.h:65-72 | enqueues the generator if and only if it is suspended at a co_yield |
| Generators.MultiPromiseCore.AwaitSuspend | uvco/promise/multipromise.h:226-236 | registers the consumer and reschedules a parked generator |
| Generators.MultiPromiseCore.AwaitResume | uvco/promise/multipromise.h:243-264 | a value is taken out of the slot, an exception stays, an empty slot means the end |
| Generators.MultiPromiseCore.YieldValue | uvco/promise/multipromise.h:329-349 | the value goes into the empty slot, the consumer is woken, the generator is parked |
| Generators.MultiPromiseCore.ReturnVoid | uvco/promise/multipromise.h:296-299 | terminates the stream and wakes the consumer |
| Generators.MultiPromiseCore.UnhandledException | uvco/promise/multipromise.h:313-317 | terminates the stream with the exception and wakes the consumer |
| Generators.MultiPromiseCore.CancelGenerator | uvco/promise/multipromise.h:89-98 | removes the generator's handle from the scheduler, whatever the state |
| Generators.MultiPromiseCore.CancelCoroutine | uvco/promise/multipromise.h:146-156 | move-assignment's cancellation, which is skipped for finished cores |
| GeneratorRuns.EveryRunShakesHands | uvco/promise/multipromise.h:42-98 | in every run: who may be scheduled, parked, waiting or woken in which state of the core |
| GeneratorRuns.StreamFidelity | uvco/promise/multipromise.h:220-264 | in every run, also after the generator has been destroyed, the yielded values are exactly the received ones followed by the one in the slot, if any; so destroying it loses exactly that one |
| GeneratorRuns.AssertionsHold | uvco/promise/multipromise.h:42-82 | no assertion of the handshake fails in any run; the slot is empty at every co_yield |
| GeneratorRuns.EndIsFinal | uvco/promise/multipromise.h:243-264 | after return every await gives nullopt, after a throw every await rethrows it, and every yielded value has been received |
| GeneratorRuns.FinishedIsNotScheduled | uvco/promise/multipromise.h:65-98 | a core is finished exactly while its generator is parked or over |
| Selects.SelectSet.AwaitReady | uvco/promise/select.h:71-78 | true exactly if some member is ready |
| Selects.SelectSet.AwaitSuspend | uvco/promise/select.h:82-92 | registers with every member that is not stale |
| Selects.SelectSet.CheckPromises | uvco/promise/select.h:115-129 | lists exactly the ready members in index order, and deregisters from the others |
| Selects.SelectSet.AwaitResume | uvco/promise/select.h:101-112 | afterwards the coroutine is registered with no member and has no entry in the scheduler |
| Selects.SelectSet.Destroy | uvco/promise/select.h:63-69 | an unresumed set deregisters from all members, a resumed one changes nothing |
| Channels.Channel.Put | uvco/channel.h:60-78 | accepts the item and wakes the first live reader, or joins the ring of writers, or throws if that is full |
| Channels.Channel.PutResumed | uvco/channel.h:66-77 | the same after a suspension, or the failed check if there is no space |
| Channels.Channel.Get | uvco/channel.h:84-94 | takes the oldest item and wakes the first live writer, or joins the ring of readers, or throws if that is full |
| Channels.Channel.GetResumed | uvco/channel.h:87-93 | the same after a suspension, or the failed check if there is no item |
| Channels.Channel.Awake | uvco/channel.h:122-141 | skips cancelled waiters, wakes at most one |
| Channels.Channel.DestroyAwaiter | uvco/channel.h:147-155 | a destroyed waiter's entry becomes null, the others stay |
| ChannelRuns.EveryRunConserves | uvco/channel.h:60-94 | for every interleaving and all cancellations: accepted items are the taken ones followed by the queued ones; the rings, tombstones included, stay within max_waiters |
| ChannelRuns.WakesInSuspensionOrder | uvco/channel.h:122-168 | waiters are woken in the order of suspension; cancelled ones are skipped |
| ChannelRuns.WakesAtMostOne | uvco/channel.h:122-141 | a turn moves at most one item and wakes at most as many coroutines as it moves items |
| ChannelRuns.EveryRunForgetsNobody | uvco/channel.h:60-141 | while no woken waiter is destroyed: readers wait only if every item is owed to a woken reader, and dually for writers and free slots |
| ChannelRuns.NoLostWakeup | uvco/channel.h:60-141 | once the scheduler has drained, no reader waits on a non-empty channel and no writer on one with space |
| ChannelRuns.CancelWokenForgetsExactly | uvco/channel.h:147-155 | destroying a woken reader forgets another one if and only if one waits and no item is left unowed; and dually for writers and free slots |
| ChannelRuns.CancelWokenLosesWakeup | uvco/channel.h:122-155 | a run in which that happens |
| ChannelRuns.WokenWaiterSucceeds | uvco/channel.h:61-94 | if fresh calls never take what is owed to woken waiters, both checks after a resumption hold in every run |
| ChannelRuns.BypassedExactly | uvco/channel.h:61-94 | a fresh call leaves the owed items and slots in place if and only if it bypasses no woken waiter |
| ChannelRuns.ResumptionsSucceedExactly | uvco/channel.h:66-67 | the checks hold in every order in which the woken waiters may run if and only if there are enough items and slots for them |
| ChannelRuns.OneOfEachNeverBypasses | uvco/channel.h:61-94 | one producer and one consumer in flight never bypass a woken waiter |
| ChannelRuns.BypassFails | uvco/channel.h:84-89 | a run in which a bypassed reader's check fails |
| ChannelStreams.ItemsAreAccountedFor | uvco/channel.h:102-113 | with a getAll() consumer: in every run accepted items are exactly the received ones, then the generator's slot, then the queue; so destroying the generator loses exactly the item in the slot |
| ChannelStreams.PullFailsExactly | uvco/channel.h:102-113 | in every run: the waiting generator of getAll() is scheduled if and only if there is an item for it; its stream ends with an exception if and only if it has to wait at a channel that allows no waiters; a destroyed one is neither scheduled nor in the ring |
| ChannelStreams.EveryRunConnected | uvco/channel.h:102-113 | what leaves the channel is what the generator yields, and both keep their invariants when composed |
| Destruction.RecursiveDestructionErases | uvco/promise/promise_core.h:114-121 | destroying a frame and, frame by frame, what it owns, in any order, erases exactly the least owned-closed set and all its handles, though cancellation is skipped for finished cores |
| Destruction.RecursiveDestructionErasesAll | uvco/promise/promise.h:81-85 | the same for all locals of a coroutine that ends |
| RuntimeInvariant.SuspensionKeeps | uvco/promise/promise.h:138-144 | suspending on promises, generators, select sets, channels or the outside keeps the invariant |
| RuntimeSteps.CompletionKeeps | uvco/promise/promise_core.h:100-112 | yielding, returning and throwing keep the invariant |
| RuntimeSteps.WakingKeeps | uvco/channel.h:122-141 | waking a channel waiter keeps the invariant |
| RuntimeSteps.RunNextKeeps | uvco/loop/scheduler.cc:57-79 | taking a handle and resuming its coroutine, with the clean-up of select sets, keeps the invariant |
| RuntimeSafety.DropIsSafeExactly | uvco/promise/promise.h:81-85 | dropping a promise keeps the invariant if and only if nothing that survives, nor the stack, refers to what dies, and nothing that dies is left behind in a surviving promise |
| RuntimeSafety.DestroyAllIsSafeExactly | uvco/promise/promise.h:81-85 | the same for a set of promises |
| RuntimeSafety.FinishIsSafeExactly | uvco/promise/promise.h:315-347 | the end of a coroutine keeps the invariant if and only if the destruction of its locals may happen when it does: before an exception is stored, after a result is |
| RuntimeSafety.FinishGeneratorIsSafeExactly | uvco/promise/multipromise.h:296-317 | the same for generators |
| RuntimeSafety.SetDropIsSafeExactly | uvco/promise/select.h:63-69 | destroying a select set that has never been awaited keeps the invariant if and only if nobody awaits one of its members |
| RuntimeSafety.StepKeeps | uvco/promise/promise_core.h:58-121 | every event keeps the invariant, whoever destroys, overwrites or moves a promise |
| RuntimeSafety.EveryRunIsSafe | uvco/loop/scheduler.cc:34-79 | the invariant holds in every reachable world |
| RuntimeComposition.StepComposes | uvco/promise/promise_core.h:58-121 | every event does exactly what it means for the parts: the coroutines that exist, their owners, places and nesting; the events of every promise and every generator; the requests to the scheduler, in program order |
| RuntimeEnds.DropBuriesExactly | uvco/promise/promise.h:81-85 | destroying or overwriting a promise destroys exactly the coroutines that live in it; no scheduler entry, core or ring holds a handle of one that is gone; the entries of the others stay, in order |
| RuntimeEnds.EndBuriesExactly | uvco/promise/promise.h:315-347 | the end of a coroutine stores its outcome, destroys exactly the coroutines that live in its locals, and leaves in the scheduler what was there and then the waiter, without the dead |
| RuntimeHistories.EveryRunIsRecorded | uvco/promise/promise_core.h:58-121 | in every run of the runtime, the deque is what the requests have made of it, every promise is where the run of its own events leads to, with the outcome of its coroutine, and so is every generator |
| RuntimeHistories.OldestIsNext | uvco/loop/scheduler.cc:34-79 | in every run of the runtime, the next coroutine is that of the oldest request which has neither been cancelled since nor been served |
| RuntimeHistories.TakerGetsTheOutcome | uvco/promise/promise.h:94-169 | in every run of the runtime, co_await and unwrap give exactly the outcome with which the promise's coroutine has ended, unless it has been taken before, and nothing before the end |
| RuntimeHistories.ResumedGetsTheOutcome | uvco/promise/promise.h:147-169 | a coroutine that has awaited a promise gets that outcome when it runs again, unless somebody else has taken it in between |
| RuntimeHistories.GeneratorHandsOutInOrder | uvco/promise/multipromise.h:226-349 | in every run of the runtime, with any number of consumers: the values of the co_yields are handed out in order, each once, and at most one is still in the slot; only the exception that was thrown is rethrown |
| RuntimeHistories.NothingLeftExactly | uvco/promise/multipromise.h:243-264 | a consumer that runs again is told that there is nothing more, although the generator goes on, if and only if all that was yielded has been handed out |
| RuntimeStreams.EveryGeneratorIsPlayed | uvco/promise/multipromise.h:42-98 | in every run of the runtime in which generators have one consumer at a time, each generator has gone through a run in the sense of GeneratorRuns, with the values of its co_yields, and it and its consumer are where that run leads to |
| RuntimeStreams.ConsumerReceives | uvco/promise/multipromise.h:243-264 | in these runs a consumer that runs again gets the oldest value that has not been received, and when the generator is over and all has been received, its exception or the end |
| RuntimeTheorems.EveryHandleIsSafe | uvco/loop/scheduler.cc:34-79 | in every run each kept handle names a suspended, unfinished, undestroyed frame; outside select sets it is kept once across scheduler, cores and channel rings; and every coroutine that waits for something is kept somewhere |
| RuntimeTheorems.NoWakeupIsLost | uvco/promise/promise_core.h:100-112 | a suspended coroutine is not scheduled if and only if the promise or generator that it awaits, or every member of its select set, has nothing for it yet; at a channel, if and only if nobody has taken it out of the ring, which ChannelRefinement relates to items and space |
| RuntimeTheorems.DrainedMeansIdle | uvco/loop/scheduler.cc:21-30 | when the scheduler has drained, nobody is left whose awaited promise, generator or select set has something for it; who is left at a channel is still in its ring, and by ChannelRefinement.DrainedChannelsAreIdle there is nothing for it there |
| ChannelRefinement.StepShows | uvco/channel.h:60-155 | every step of the runtime, destructions of many coroutines included, is for each channel the call that it makes there, or some cancellations, or nothing |
| ChannelRefinement.ChannelRefines | uvco/channel.h:60-155 | in every run of the runtime in which resumed coroutines turn to their channel first, as put() and get() do, each channel has gone through a run in the sense of ChannelRuns, with exactly the calls that coroutines have made there, with their items and in order, which leads to its present state and its present woken coroutines, and which destroys no woken waiter, or bypasses none, if the whole run does not |
| ChannelRefinement.WaitsOnlyForWhatIsOwed | uvco/channel.h:60-141 | in every run of the runtime that destroys no woken waiter, a reader waits only if every item is owed to a woken one; and dually for writers and free slots |
| ChannelRefinement.DrainedChannelsAreIdle | uvco/loop/scheduler.cc:21-30 | when the scheduler of such a run has drained, readers are left only at empty channels and writers only at full ones |
| ChannelRefinement.ResumedFindsItsItem | uvco/channel.h:66-89 | in every run of the runtime in which fresh calls bypass nobody, both checks after a resumption hold |
| RuntimeTheorems.ResumedIsNowhere | uvco/promise/select.h:101-129 | the coroutine that is resumed is in no scheduler entry, core or ring, even if several members of its select set had finished |
| RuntimeTheorems.NoSpuriousWakeup | uvco/promise/select.h:101-129 | a resumed select set lists, in index order, exactly the members that have finished since and have not been fetched by others; the list is empty only if others have fetched them all |
| RuntimeTheorems.FinishedIsNotScheduled | uvco/promise/multipromise.h:89-98 | a finished core belongs to a parked or ended coroutine without scheduler entry, so both ways of destroying a coroutine do the same |
| RuntimeTheorems.OverwrittenIsGone | uvco/promise/multipromise.h:146-156 | move-assignment leaves no handle of the old generator anywhere |
| RuntimeTheorems.AssertionsHold | uvco/promise/promise_core.h:58-112 | the assertions about cores and generators hold before every event |
| RuntimeTheorems.ResumedFindsItsPromiseFinished | uvco/promise/promise.h:147-169 | a coroutine that has awaited a promise finds it finished, and a result unless somebody else has fetched it; RuntimeHistories.ResumedGetsTheOutcome says which |
| RuntimeOwnership.NobodyRefers | uvco/promise/promise.h:123-128 | where coroutines await only promises of the coroutines that they live in, what dies with promises that nobody outside awaits is not referred to from outside |
| RuntimeOwnership.NearbyDropIsSafeExactly | uvco/promise/promise.h:81-128 | such a drop is safe if and only if none of those that die waits outside by a plain co_await |
| RuntimeOwnership.StructuredRunsAreSafe | uvco/promise/promise.h:81-128 | the runs of programs that await only their own promises, or also those of the coroutines that they live in, are runs in which all destructions are safe |
| StolenValue.ValueIsStolen | uvco/promise/multipromise.h:243-264 | a reachable world in which a second consumer has taken the value for which the first one has been woken |
| DroppedNext.DroppedNextIsScheduled | uvco/promise/multipromise.h:167 | a reachable world in which a dropped call of next() leaves its handle behind, which is then scheduled |
| Unwinding.UnwoundChildIsScheduled | uvco/promise/promise.h:344-347 | a reachable world in which a coroutine may return, but an exception would schedule its destroyed child |
| WaitAnys.Collect | uvco/combinators.h:49-52 | unwraps the ready promises in order, until one has thrown |
| WaitAnys.CallConsumesExactly | uvco/combinators.h:49-52 | a call throws if and only if some ready member has thrown, and then what the first of them has thrown; the members that it consumes are exactly the ready ones before that |
| WaitAnys.Resumed | uvco/combinators.h:47-53 | the results of the ready members, or the first exception; nobody stays registered, and the members are left as by CallConsumesExactly |
| WaitAnys.WaitAnyReturnsEachResultOnce | uvco/combinators.h:41-54 | in every run over k promises, whether they return or throw: no result is returned twice, or both returned and lost; each is the value its promise finished with; at most k calls return, none an empty list, each in the order of the promises; and what a promise has finished with is still there if and only if it has been neither returned nor lost |
| WaitAnys.LastCallReturnsTheRest | uvco/combinators.h:41-54 | once all have finished, the next call that returns or throws completes the results if and only if none has thrown |
| WaitAnys.SuspendedCallIsScheduledExactly | uvco/combinators.h:47 | in every run the promises have put a coroutine into the scheduler, and it has not run yet, if and only if its call has suspended and some promise is ready; in particular nothing is left behind by a call that has been answered |
| WaitAnys.SuspendedCallIsAnswered | uvco/combinators.h:47 | a suspended call can be answered if and only if some promise has not been consumed |
| WaitAnys.CallThrowsExactly | uvco/combinators.h:49-52 | in every run a call throws, and returns nothing, if and only if some promise has finished with an exception by then; it throws that of the first such member |
| WaitAnys.ThrownMemberKeepsThrowing | uvco/combinators.h:49-52 | from then on, in every continuation, each call throws without suspending, and nothing is ever returned again |
| WaitAnys.LostExactly | uvco/combinators.h:49-52 | in every run a result is lost if and only if some call finds it ready before the first member that has thrown |
| WaitAnys.ResultIsLost | uvco/combinators.h:49-52 | a run in which a value is lost and two calls throw |
| WaitPoints.WaitPoint.ReleaseOne | uvco/combinators.cc:60-66 | schedules the longest waiting coroutine, if any |
| WaitPoints.WaitPoint.ReleaseAll | uvco/combinators.cc:68-72 | schedules all waiting coroutines in the order of their arrival |
| TaskSets.TaskSet.Empty | uvco/combinators.cc:96 | true exactly if there are as many stored tasks as tasks to clean up, as long as there are at least as many; otherwise the subtraction wraps around |
| TaskSets.TaskSet.OnEmpty | uvco/combinators.cc:98-103 | waits exactly if the set is not empty |
| TaskSets.TaskSet.BeginAdd | uvco/combinators.cc:91 | hands out a fresh id |
| TaskSets.TaskSet.Store | uvco/combinators.cc:92 | stores the wrapper after it has run up to its first suspension |
| TaskSets.TaskSet.End | uvco/combinators.cc:138-151 | releases the waiters if this looks like the last task, frees the wrappers that ended before, and marks this one for clean-up |
| TaskSets.TaskSetAccounts | uvco/combinators.cc:90-152 | in every orderly run: the ended wrappers that are still stored are those marked for clean-up, at most one; no subtraction wraps around; empty() holds if and only if no task is unfinished; nobody waits then |
| TaskSets.OrderlyEndReleasesExactly | uvco/combinators.cc:135-151 | in every orderly run waiters are released exactly when the last unfinished task ends, and the running wrapper is never freed |
| TaskSets.EndReleasesExactly | uvco/combinators.cc:135-151 | in all runs the end of a wrapper releases the waiters if and only if the unfinished stored tasks and the leaked ones are one, or two while the wrapper that is marked for clean-up has not been stored |
| TaskSets.ReleasedInOrder | uvco/combinators.cc:98-151 | in all runs, the coroutines that had to wait for an empty set are those that have been released, followed by those that still wait: each is released once, in the order in which they came |
| TaskSets.EndIsWrongExactly | uvco/combinators.cc:135-140 | in all runs: exactly when a release is too early, and exactly when it does not come although the last task ends |
| TaskSets.EagerEndReleasesEarlyExactly | uvco/combinators.cc:90-94 | if no other wrapper has ended inside add() before, one that ends there and is stored next releases waiters too early if and only if exactly one stored task is unfinished |
| TaskSets.ReleasedByNestedAdds | uvco/combinators.cc:90-94 | a run with nested calls of add() that releases a waiter while two tasks are unfinished |
| TaskSets.NeverReleased | uvco/combinators.cc:135-151 | after the leak of LeakHappens, a continuation in which a waiter is not released although everything is over |
| TaskSets.ReleasedEarly | uvco/combinators.cc:135-140 | a run in which that happens |
| TaskSets.LeakedExactly | uvco/combinators.cc:92 | whatever happens between the end of a wrapper and its storing, it is cleaned up if and only if no other wrapper ends in between |
| TaskSets.LeakHappens | uvco/combinators.cc:90-152 | a run in which all tasks are over and the set is not empty |
| TaskSets.LeakedForever | uvco/combinators.cc:142-146 | a leaked task stays stored in every continuation |
| TaskSets.LeakedIsEmptyExactly | uvco/combinators.cc:96 | with a leaked task, empty() holds if and only if that is the only one stored and another wrapper has ended before it is stored |
| TaskSets.LeakedIsNeverEmpty | uvco/combinators.cc:96 | so it never holds again while no further wrapper ends inside add() |
| TaskSets.LeakIsHidden | uvco/combinators.cc:96 | a continuation in which it does |
| HttpFraming.ReadHeaders | uvco/examples/http_server.cc:60-78 | returns the bytes up to the first blank line; never more than 12288; at most 8193 reads |
| HttpFraming.FramedIs | uvco/examples/http_server.cc:65-77 | the headers are returned if and only if they end before the size limit is noticed |
| HttpFraming.ShortHeadersAreFound | uvco/examples/http_server.cc:65-77 | headers that end within 8193 bytes are returned however the bytes arrive |
| HttpFraming.LongHeadersAreRefused | uvco/examples/http_server.cc:65-77 | headers that end after byte 12288, or never, are refused however the bytes arrive |
| HttpFraming.FramingDependsOnChunkingExactly | uvco/examples/http_server.cc:65-77 | the result depends on how the bytes arrive if and only if the headers end in between |
| HttpFraming.HeadersAreReceivedExactly | uvco/examples/http_server.cc:65-77 | headers are received however they arrive if and only if they end within 8193 bytes |
| HttpFraming.LostExactly | uvco/examples/http_server.cc:73-77 | what has been read and is thrown away are the bytes from the end of the headers to the end of their last chunk; none, if and only if the headers end with a chunk |
| HttpMessages.HttpResponse.ToString | uvco/examples/http_server.cc:23-35 | prints status line, headers and body, after adding a Content-Length header, on every call |
| HttpMessages.NumberSpells | uvco/examples/http_server.cc:26 | a number is printed as its decimal digits, without leading zeros, after a minus sign if it is negative |
| HttpResponses.StatusIsReadExactly | uvco/examples/http_server.cc:26-27 | in whatever is printed, the status code stands between the first two spaces, and what follows up to the first line end is the status message if and only if that contains no line end |
| HttpResponses.ResponseIsReadExactly | uvco/examples/http_server.cc:23-35 | version, code, message, headers, length and body are read out of the printed response if and only if the message contains no line end and the headers are clean |
| HttpMessages.DigitsDenote | uvco/examples/http_server.cc:24 | the printed length denotes the length of the body, without leading zeros |
| HttpMessages.ParseHeaders | uvco/examples/http_server.cc:103-122 | collects, line by line, what stands before and after the first ": "; blank lines and lines without it are skipped, and so is what follows the last line end |
| HttpMessages.ParsedIsClean | uvco/examples/http_server.cc:103-122 | whatever is parsed from whatever input has names without ": " and line ends, and values without line ends |
| HttpMessages.ParsedLinesAre | uvco/examples/http_server.cc:103-122 | whatever lines a block consists of: there is one header for each line with ": ", in order, split at the first one; other lines, and what follows the last line end, count for nothing |
| HttpMessages.HeadersRoundTripExactly | uvco/examples/http_server.cc:28-32 | parsing inverts printing for exactly the lists of such headers |
| HttpMessages.ResponseHeadersRoundTripExactly | uvco/examples/http_server.cc:23-35 | the same for the headers of a response with the Content-Length header that toString adds |
| HttpMessages.ParseRequest | uvco/examples/http_server.cc:124-146 | the request line up to the first line end, then the headers; nothing if there is no line end or the line is malformed |
| HttpRequests.ParsesExactly | uvco/examples/http_server.cc:80-146 | a section is accepted if and only if it begins with a printed well-formed request line and a line end; then the request has that line and the headers of what follows |
| HttpRequests.ParsedRequestIsWellFormed | uvco/examples/http_server.cc:80-146 | whatever request is parsed has non-empty parts, a method and a path without spaces, and clean headers |
| HttpRequests.RequestRoundTripExactly | uvco/examples/http_server.cc:80-146 | a request is recovered from its printed form if and only if it is well-formed in this sense |
| HttpRequests.HeadersEnd | uvco/examples/http_server.cc:74-77 | the first blank line in a printed well-formed request, whatever follows it, is the one at its end |
| HttpRequests.RequestIsReceivedExactly | uvco/examples/http_server.cc:60-78 | a printed well-formed request, followed by anything, is returned whole however its bytes arrive, if and only if it has at most 8193 bytes |

## Left out

- libuv and the awaiters over it (streams, UDP, files, timers, name resolution, async work): one event, the enqueueing of a suspended coroutine from outside, stands for all of them.
- `Loop::run` and `uv_stop`: when libuv is polled is not modelled; the forwarding functions of uvco/loop/loop.cc are those of the scheduler.
- The accept loop, curl, pqxx, thread-local storage and threads: foreign libraries and real parallelism.
- Cancelling a pending `WaitPoint::wait()`: its awaiter does not deregister, like those of promises.
- `race`, `raceIgnore`, `waitAll` and the `yield` helpers: compositions of what is modelled, with nothing of their own to prove.
- Destroying a channel on which coroutines wait, and destroying coroutines that are on the stack of nested coroutines.
- Moves, copies and allocation of C++ values; debug output; lifetime tracking.
- Routing, handlers, keep-alive and the writing of responses; read errors other than the end of the stream.
- `Promise<void>` inside `Runtime`: all promises carry values there; `VoidCores` says where the two kinds of core differ, which is never in who is registered where.
- A promise's core is identified with the frame of its coroutine; a promise object that has been moved from is no longer represented.
- RuntimeSafety.EveryRunIsSafe: assumes of every destruction that the destroyed coroutines are not referred to any more, as `Runtime.Enabled` spells out, because the code does not check it; that this is exactly what is needed, and how far it can be discharged, is said above.
- RuntimeTheorems.NoWakeupIsLost: says of a coroutine at a channel only whether it is still in the ring; the theorems of `ChannelRefinement` say what that means, for channels that start empty and runs in which a resumed coroutine turns to its channel first.
- TaskSets.TaskSetAccounts: covers runs in which wrappers end only after `add` has stored them; all runs are the subject of `EndReleasesExactly` and the theorems after it.
- Cores.PromiseCore.ReturnValue: takes over the assertion that no value is in the slot as a precondition; `PromiseRuns.EveryRunDelivers` starts from the fact that a coroutine ends once.
- TaskSets.TaskSet.BeginAdd: the counter of ids does not wrap around.
