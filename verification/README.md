# Verification model of the server framework's concurrency and data core

This project models, in Dafny, the parts of the C++ server framework whose correctness cannot be read
off one function body, and proves what those parts promise over every run and every input:

- **Read/write gate** (`Gate.dfy`, `GateSystem.dfy`, `GateInvariant.dfy`, `GateTheorems.dfy`): one FIFO
  queue, reader slots and a writer slot, a pump under the lock, hand-off to the pool outside it, layers
  running in place in a slot already held, refused hand-offs, `Drain`, and the executor's stop sequence.
  `Gate.dfy` holds the object and its critical sections; `GateSystem.dfy` lets any number of threads run those sections in any
  order (one step per critical section or atomic operation); `GateInvariant.dfy` proves one inductive
  invariant; `GateTheorems.dfy` states what follows for every run.
- **Thread pool** (`ThreadPool.dfy`): the deque, the idle count, the "notify on empty, plus
  min(backlog, idle)" wake-up policy, workers that spin before they sleep, and the draining stop.
- **Promises** (`PromiseResults.dfy`, `PromiseState.dfy`, `GateReentry.dfy`, `Chains.dfy`, `Gather.dfy`,
  `PostBound.dfy`): the one-way switch and its handler list; `ASYNC_GATE` requests that suspend and re-run a
  layer; whole trees of first / then / catch / finally / then-promise layers, refined to a small pure
  evaluator under every schedule, with refused dispatches and posts that the gate loses; the four
  combinators; and how many gate tasks and how much stack a chain costs.
- **Coroutines** (`Coroutine.dfy`): resumption points, await, await-all with its atomic group counters.
- **Modules** (`StartOrder.dfy`, `StartOrderLaws.dfy`, `Lifecycle.dfy`): the start order (Kahn's algorithm
  with duplicate edges and a cycle fallback) and the lifecycle operations with rollback.
- **Data** (`Framing.dfy`, `ExampleProtocol.dfy`, `Codec.dfy`, `FileStore.dfy`): stream framing and the
  example protocol, the binary writer and reader, and the multi-tenant store.

`Basics.dfy` holds what several of them share.

Objects whose methods change fields are classes; each method is proved against a function of the old
state, and the laws are proved about that function. Concurrent parts are transition systems: a run is a
sequence of steps, each step is one critical section or one atomic operation, and every theorem is about
every run. Memory is sequentially consistent. User code (handlers, module callbacks, awaited promises)
is an arbitrary outcome.

## Where the code and its documentation differ

The model follows the code.

- `ModuleManager.h` and the comment in `ComputeStartOrder` promise registration order inside a dependency
  level. `LevelOrderCanBreak` is an input where it fails; `LevelOrderIff` is the exact condition.
- `StopAll` stops in reverse registration order, not in reverse start order. `StopOrderIff` says when that
  still stops dependents before the modules they need; `StopOrderCanBreak` brings up two modules,
  registered dependent first, that it stops the wrong way round.
- `BinaryReader.h` promises that a failed read leaves the position unchanged. `FailKeepsPositionIff` is the
  exact condition: a byte string whose length prefix is readable and whose body is short breaks it, and
  `FailCanMovePosition` is such an input.
- Closing and then draining the gate is documented to lose nothing. A submitter that passed the closed check
  before `Close` can be refused by the stopping pool, and the refused hand-off gives its slot back without
  pumping. `SafeToCloseIff` is the exact condition at the moment of closing: no continuation loses a task if
  and only if every thread between its check and its enqueue is inside a gate task, or the gate is not idle
  and has no other worker to drain it. `LateSubmittersAreLost` is a run that also strands a queued task.
- The comment at `PromiseCore.h:134-147` says that a layer never stays pending: a dispatch that fails settles
  it. A post that the gate accepts and loses later settles nothing (`LostPostLeavesPending`).
  `SettledIffEvaluated` says exactly which layers are settled at the end, lost posts included.
- A `finally` layer can change the chain's result, by a throwing handler or by the framework's own rejection.
  `FinallyInRuns` says exactly when it does not; `FinallyCanChangeTheResult` is a run.
- The inline depth limit is there to bound the stack, but skipped layers settle their successors by direct
  recursion. `StackBoundIff` says when the stack stays within a bound, `NoSkipsNoOverflow` that 65 is one
  when nothing is skipped, and `SkippedLayersNest` gives the chains that exceed it.
- The example protocol's length field is 32 bits wide and wraps for huge payloads; `PacketRoundTripIff`
  covers all lengths.

## Model

| member | source | states |
|---|---|---|
| `ReadWriteGate.CReadWriteGate.PumpLocked` | Common/Async/ReadWriteGate.cpp:229-268 | the pump loop changes queue, counters and dispatch list exactly as the function `Pump` says |
| `ReadWriteGate.CReadWriteGate.SubmitLocked` | Common/Async/ReadWriteGate.cpp:96-100 | enqueue at the back, then pump, in one critical section |
| `ReadWriteGate.CReadWriteGate.OnTaskExitLocked` | Common/Async/ReadWriteGate.cpp:276-289 | slot back, then pump, in one critical section; drain waiters are notified exactly if there are any |
| `ReadWriteGate.CReadWriteGate.DropLocked` | Common/Async/ReadWriteGate.cpp:316-320 | a refused hand-off gives its slot back and pumps nobody |
| `ReadWriteGate.PumpSplits` | Common/Async/ReadWriteGate.cpp:229-268 | admitted tasks followed by the rest are the old queue: nothing lost or reordered; the pump stops only at a blocked head |
| `ReadWriteGate.PumpAdmitsLongestPrefix` | Common/Async/ReadWriteGate.cpp:221-268 | the pump admits exactly the longest queue prefix whose tasks may hold slots together with the current holders, and moves the counters by exactly those |
| `GateInvariant.StepInv` | Common/Async/ReadWriteGate.cpp:58-131 | every step of every thread keeps the one invariant behind the theorems below |
| `GateTheorems.EnqueueIsSubmitLocked` | Common/Async/ReadWriteGate.cpp:93-103 | the system's enqueue step is the object's critical section |
| `GateTheorems.TaskExitIsOnTaskExitLocked` | Common/Async/ReadWriteGate.cpp:276-293 | the system's exit step is the object's critical section |
| `GateTheorems.PoolRefuseIsDropLocked` | Common/Async/ReadWriteGate.cpp:316-320 | the system's refused hand-off is the object's critical section, and wakes the drain waiters exactly if there are any |
| `GateTheorems.MutualExclusion` | Common/Async/ReadWriteGate.cpp:229-268 | in every reachable state two bodies running inside different tasks, posted or in place, are both reads; readers respect a non-zero limit |
| `GateTheorems.CountersAreHolders` | Common/Async/ReadWriteGate.cpp:156-206 | the counters equal the tasks of each kind that are admitted and neither exited nor dropped, throws included, so returning a slot never underflows |
| `GateTheorems.NonOvertaking` | Common/Async/ReadWriteGate.cpp:97-103 | of two tasks, one of them a write, the later one gets a slot only after the earlier one exited or was dropped |
| `GateTheorems.InlineOvertakesNobody` | Common/Async/ReadWriteGate.cpp:118-131 | no task submitted before a layer running in place was started is still waiting; at most 64 nest |
| `GateTheorems.InPlaceIff` | Common/Async/ReadWriteGate.cpp:118-131 | in every reachable state a gated layer may start in a running body exactly when that body's task holds a slot of the same kind, no submitted task is waiting for one, and fewer than 64 layers are nested |
| `GateTheorems.InlineReturnUndoes` | Common/Async/AsyncExecutor.h:178-192 | a layer that starts in place and returns leaves the nest of layers and the gate as they were |
| `GateTheorems.PoolIsQueue` | Common/Async/ReadWriteGate.cpp:305-322 | in every run, the tasks begun, in order, and those still waiting in the pool are those handed over, in order |
| `GateTheorems.HeadWaitsForHolder` | Common/Async/ReadWriteGate.cpp:229-293 | a waiting head waits for a slot that a live task holds, unless a refused hand-off gave a slot back since the last pump; however far the stop has come |
| `GateTheorems.NoSleeperWhenIdle` | Common/Async/ReadWriteGate.cpp:58-68 | no `Drain` waiter sleeps while the gate is idle, in any interleaving |
| `GateTheorems.DrainReturnsWhenIdle` | Common/Async/ReadWriteGate.cpp:58-68 | in every run a `Drain` returns exactly when it looks and finds the gate idle, and no step of anybody else lets it return |
| `GateTheorems.WorkStepDecreases` | Common/Async/ReadWriteGate.cpp:276-293 | every work step brings the gate nearer to idle |
| `GateTheorems.WorkIsBounded` | Common/Async/ReadWriteGate.cpp:276-293 | without new submissions a run does a bounded amount of work |
| `GateTheorems.EveryTaskRunsOnce` | Common/Async/ReadWriteGate.cpp:72-105 | with an accepting pool and no submission in flight, every way to go on working ends, and ends only with the gate idle and each accepted task run exactly once |
| `GateTheorems.AtMostOnce` | Common/Async/ReadWriteGate.cpp:156-168 | no task body is ever started twice; a dropped one never starts |
| `GateTheorems.StopLosesNothing` | Common/Async/AsyncExecutor.cpp:133-146 | if no submission could be bypassed when the gate closed, every accepted task has run exactly once when the drain is over, and ever after |
| `GateTheorems.SafeToCloseIff` | Common/Async/AsyncExecutor.cpp:133-146 | in every reachable state: closing the gate there loses no accepted task, whatever happens next, if and only if no thread between its check and its enqueue can be bypassed by the drain |
| `GateTheorems.BypassedIsLost` | Common/Async/ReadWriteGate.cpp:305-322 | from any state with a submission that can be bypassed, a continuation in which an accepted task is dropped |
| `GateTheorems.LateSubmittersAreLost` | Common/Async/ReadWriteGate.cpp:305-322 | a run in which one accepted task is dropped and another stays queued in front of free slots with no work step left |
| `GateTheorems.StoppedIsQuiet` | Common/Async/AsyncExecutor.cpp:133-146 | from the end of `Stop` on, in every continuation, no task waits in the pool and no body runs |
| `ThreadPool.CThreadPool.Submit` | Common/Thread/ThreadPool.cpp:153-186 | accepted exactly while running and not stopping; how many notifications it owes |
| `ThreadPool.CThreadPool.WorkerLook` | Common/Thread/ThreadPool.cpp:257-302 | a worker's locked section changes deque, counters and its next move as the function `Look` says |
| `ThreadPool.CountersExact` | Common/Thread/ThreadPool.cpp:257-302 | with the mutex free, the pending counter is the deque's length and the idle counter the number of workers in the idle section |
| `ThreadPool.NoLostWakeup` | Common/Thread/ThreadPool.cpp:153-186 | tasks never wait while all workers sleep and no notification is owed |
| `ThreadPool.BurstIsCovered` | Common/Thread/ThreadPool.cpp:170-184 | while any worker sleeps, the whole backlog is covered by awake workers and notifications still owed |
| `ThreadPool.SubmitWakes` | Common/Thread/ThreadPool.cpp:153-186 | in every reachable state a submission makes one call if nothing was waiting, and else one for each waiting task as far as there are idle workers |
| `ThreadPool.PoolComesToRest` | Common/Thread/ThreadPool.cpp:257-302 | without new submissions every continuation is bounded, and it is over exactly when all workers sleep with no task waiting and no call owed; then every accepted task has been run |
| `ThreadPool.StartedInOrder` | Common/Thread/ThreadPool.cpp:293-307 | tasks start in submission order; a started one is finished, or on exactly one worker and not finished |
| `ThreadPool.StartsNext` | Common/Thread/ThreadPool.cpp:293-307 | a step that puts a task on a worker starts the first task never started before, so none is started twice |
| `ThreadPool.StopDrains` | Common/Thread/ThreadPool.cpp:191-212 | the join succeeds only when every accepted task has been run to its end |
| `ThreadPool.StopMakesProgress` | Common/Thread/ThreadPool.cpp:191-212 | after the notification, every worker step brings the join nearer and one is always possible until all are gone |
| `PromiseState.CPromiseState.Settle` | Common/Async/PromiseState.h:68-103 | only the first settle publishes; it calls exactly the stored handlers, in order |
| `PromiseState.CPromiseState.RegisterLocked` | Common/Async/PromiseState.h:413-446 | stored while pending, handed back with the published result afterwards |
| `PromiseState.PushAppends` | Common/Async/PromiseState.h:420-435 | wherever it is stored, a handler goes behind all earlier ones |
| `PromiseState.SettledForGood` | Common/Async/PromiseState.h:68-86 | no step of any thread changes a published result |
| `PromiseState.CalledOnceInOrder` | Common/Async/PromiseState.h:68-103 | in every interleaving no handler is called twice, each gets the published result, early ones in registration order |
| `PromiseState.WhoCalls` | Common/Async/PromiseState.h:448-471 | handlers are called by the settling thread, from a task queue, or, for a notice that no executor takes, by the thread that registered it; registering calls no layer handler |
| `PromiseState.EveryHandlerDelivered` | Common/Async/PromiseState.h:413-471 | at rest a registration was called exactly if it was neither refused, which no notice is, nor lost by the gate, which only handlers of gated layers are |
| `GateReentry.CGateCallScope.EnterGate` | Common/Async/GateGuard.h:135-174 | a request goes on exactly when it is direct or in its slot; otherwise it records the suspension |
| `GateReentry.SuspendsIff` | Common/Async/GateGuard.h:135-174 | a run is suspended exactly when some request does not pass in its slot |
| `GateReentry.RequestedIsAsked` | Common/Async/GateGuard.h:170-173 | the kind a suspended run is posted again for is one that failed |
| `GateReentry.SecondRunSuspendsIffMixed` | Common/Async/PromiseLayer.h:102-125 | after one suspension the second run is suspended exactly when the body asks for both kinds, whatever the first slot |
| `GateReentry.CompletesInRequestedSlot` | Common/Async/GateGuard.h:125-129 | a run that is not suspended is in the slot of every kind it asks for |
| `Chains.RunRefinesEvaluator` | Common/Async/Promise.h:847-923 | in every interleaving each settled layer has the evaluator's value and its user code ended exactly as often as the evaluator says; a refused dispatch counts as the fixed rejection, a lost post as no value |
| `Chains.EvaluatorKeepsPromises` | Common/Async/Promise.h:847-923 | then and factories run over a success and pass a rejection on, catch the other way round, first and finally run always; user code that runs ends once and what it returns or throws is the result (finally: only what it throws; a factory: the result of its promise); asking for both kinds, a refusal and a lost post have the outcomes the framework fixes |
| `Chains.RunsKeepPromises` | Common/Async/PromiseLayer.h:72-130 | the same for every settled layer of every run, with its real result, its real upstream result and the real number of times its code ended |
| `Chains.FinallyIsTransparentIff` | Common/Async/PromiseLayer.h:72-130 | for every finally layer, refused or suspended twice ones included: its value is its upstream's exactly when its handler ran and returned or threw that very rejection, or the framework's own rejection was what came anyway |
| `Chains.FinallyInRuns` | Common/Async/PromiseLayer.h:72-130 | the same for the two settled layers of any run, in every interleaving |
| `Chains.FinallyCanChangeTheResult` | Common/Async/PromiseLayer.h:88-100 | a run in which a throwing finally handler turns a fulfilled chain into a rejected one |
| `Chains.BodiesBounded` | Common/Async/PromiseLayer.h:72-130 | for every layer: user code ends at most once, starts at most once if it asks for no slot and at most twice if it does, and ends in every slot it asked for; if it asked for none, in a slot of the layer's kind |
| `Chains.ScheduleIndependent` | Common/Async/Promise.h:847-923 | two runs with the same refusals and external results agree on every layer both settled |
| `Chains.RunsAreBounded` | Common/Async/PromiseLayer.h:102-125 | a run of a program of n layers makes at most 6n steps, re-entries included |
| `Chains.SettledIffEvaluated` | Common/Async/PromiseCore.h:134-147 | with everything appended and no framework step left, exactly the layers with an evaluator's value are settled, lost posts included; user code ended as often as the evaluator says in pending layers, too |
| `Chains.NothingLostNothingPending` | Common/Async/PromiseCore.h:134-147 | with no post lost and every external layer settled, every layer has an evaluator's value |
| `Chains.CompleteRunsSettle` | Common/Async/PromiseCore.h:134-147 | both for whole runs, with the bound on their length |
| `Chains.LostPostLeavesPending` | Common/Async/ReadWriteGate.cpp:305-322 | a run in which one lost post leaves a whole chain pending for good |
| `Chains.LostIsGated` | Common/Async/ReadWriteGate.cpp:305-322 | in every run only layers that go through the gate are lost, and their user code never ended |
| `Chains.LatePostCanBeLost` | Common/Async/PromiseState.h:448-462 | in every reachable state, a gated layer appended behind a settled one can be accepted and lost |
| `Gather.CGatherState.OnChildSettled` | Common/Async/Combine.h:93-168 | the branches of the code are the function `Arrive` |
| `Gather.AfterMeans` | Common/Async/Combine.h:93-168 | the counters mean what they should after every arrival sequence |
| `Gather.OutcomeMeans` | Common/Async/Combine.h:56-62 | one rule for no children and for some: when the aggregate is fulfilled, and otherwise with which rejection |
| `Gather.ClosingCall` | Common/Async/Combine.h:113-156 | an arrival calls exactly if it is the deciding one, with the outcome of every completion |
| `Gather.SettlesExactlyOnce` | Common/Async/Combine.h:93-168 | of n arrivals exactly one makes a call, the first deciding one, with the fold's outcome; later ones change nothing |
| `Gather.DecidedIffDetermined` | Common/Async/Combine.h:113-156 | for all, race and any, that moment is the earliest at which the arrivals determine the outcome |
| `PostBound.CChainRunner.SettleLayer` | Common/Async/PromiseState.h:88-102 | settling runs the next layers on the same stack up to the first one that must be posted |
| `PostBound.CChainRunner.Dispatch` | Common/Async/AsyncExecutor.h:235-244 | in place, one deeper, exactly below depth 64 for a direct layer or one of the slot's kind, else posted; the depth is restored |
| `PostBound.CChainRunner.RunAll` | Common/Async/AsyncExecutor.h:178-244 | every layer that runs runs once, in order; the tasks are those of `StartsMean`, their number the number of posts; the largest stack of nested settle calls is what `PeakFrom` says; at most 64 nested bodies; each task leaves depth 0 |
| `PostBound.EndIff` | Common/Async/AsyncExecutor.h:208-224 | where a task ends: all its bodies are direct or of the kind of its first, there are at most 65, and the layer the next task starts with is of another gated kind or would be the 66th body; exactly one place satisfies that |
| `PostBound.StartsMean` | Common/Async/AsyncExecutor.h:235-244 | a chain is cut into such tasks, one behind the other, from its first layer to its end |
| `PostBound.InlineIsInPlace` | Common/Async/AsyncExecutor.h:208-224 | for a gated kind the test is the gate's own with nobody waiting, below depth 64 |
| `PostBound.UniformChainCost` | Common/Async/AsyncExecutor.h:178-192 | a chain of one kind with R running layers, skipped ones in between, costs R / 65 tasks, rounded up |
| `PostBound.FulfilledChainCost` | Common/Async/AsyncExecutor.h:178-192 | N fulfilled layers of one kind cost N / 65 tasks, rounded up |
| `PostBound.TasksAtLeast` | Common/Async/AsyncExecutor.h:178-192 | no mixture of kinds needs fewer |
| `PostBound.StackBoundIff` | Common/Async/Promise.h:860-864 | the stack stays within a bound exactly when no task settles more skipped layers than the bound leaves beside its running ones |
| `PostBound.StackWithinSkips` | Common/Async/AsyncExecutor.h:178-192 | the stack is at most 65 plus the number of skipped layers |
| `PostBound.NoSkipsNoOverflow` | Common/Async/AsyncExecutor.h:178-192 | where every layer runs, the stack is at most 65 |
| `PostBound.SkippedLayersNest` | Common/Async/Promise.h:860-864 | for every n a chain of n + 1 layers, all but the first skipped, whose stack is n + 1 in its only task: beyond 65 from n = 65 on |
| `Coroutine.CCoroutine.EnterBody` | Common/Coroutine/Coroutine.h:593-606 | the switch and the check behind it: continue at the label, or settle with the termination result |
| `Coroutine.CAwaitAllGroup.OnAwaitDone` | Common/Coroutine/Coroutine.h:522-540 | an undisturbed callback does to the group what its atomic steps do |
| `Coroutine.StepInv` | Common/Coroutine/Coroutine.h:229-270 | every atomic operation of every callback keeps the coroutine's invariant |
| `Coroutine.OneBodyAtATime` | Common/Coroutine/Coroutine.h:458-473 | executions of the body never overlap, and no callback can act while one is inside a segment |
| `Coroutine.ResumedOnceAfterTheLast` | Common/Coroutine/Coroutine.h:522-540 | every await is resumed exactly once, and only after the last of its promises |
| `Coroutine.WrittenBeforeRead` | Common/Coroutine/Coroutine.h:524-537 | the last callback reads the first rejection only after the winner of the swap wrote it |
| `Coroutine.SegmentsInOrder` | Common/Coroutine/Coroutine.h:593-629 | segments run in order, and only past awaits all of whose promises were fulfilled |
| `Coroutine.SettlesOnce` | Common/Coroutine/Coroutine.h:287-302 | the coroutine settles at most once: with its own outcome, the swap winner's rejection of the first rejected await, or the stop rejection after a refused dispatch |
| `Coroutine.FirstSwapStays` | Common/Coroutine/Coroutine.h:526-530 | who won the swap never changes |
| `Coroutine.NeverStuck` | Common/Coroutine/Coroutine.h:428-447 | an unsettled coroutine can go on, or waits for a promise that has not settled |
| `StartOrder.BuildGraph` | ServerCore/Module/ModuleManager.cpp:527-553 | in-degrees count resolved dependencies; a successor list holds each other module as often as that one declares an interface of which this one is the first registered holder |
| `StartOrder.FirstWithIff` | ServerCore/Module/ModuleManager.cpp:529-537 | module i provides an interface exactly if it is registered under it, no earlier one is, and the interface is not 0 |
| `StartOrder.NeedsMeans` | ServerCore/Module/ModuleManager.cpp:541-552 | module v needs p, other than itself, as often as v declares an interface of which p is the first holder |
| `StartOrder.ReleaseSuccessors` | ServerCore/Module/ModuleManager.cpp:572-584 | the inner loop changes in-degrees and queue as the function `Drop` says |
| `StartOrder.GuardNeverFails` | ServerCore/Module/ModuleManager.cpp:576-576 | the in-degree guard is always true |
| `StartOrder.EmittedIffAcyclic` | ServerCore/Module/ModuleManager.cpp:566-585 | the queue phase emits exactly the modules from which no provider chain comes around |
| `StartOrder.ComputeStartOrder` | ServerCore/Module/ModuleManager.cpp:525-595 | for the providers of `NeedsMeans`: a permutation; the acyclic modules first, each after all its providers, sorted by (last provider's position, registration index); the others behind, in registration order |
| `StartOrderLaws.StartOrderUnique` | ServerCore/Module/ModuleManager.cpp:525-595 | that description has exactly one solution |
| `StartOrderLaws.DuplicatesDoNotMatter` | ServerCore/Module/ModuleManager.cpp:542-552 | repeated or reordered dependencies give the same order |
| `StartOrderLaws.NoDependencies` | ServerCore/Module/ModuleManager.cpp:521-522 | without dependencies the order is registration order |
| `StartOrderLaws.LevelOrderIff` | ServerCore/Module/ModuleManager.h:131-132 | registration order inside each level holds exactly when no earlier registered module has a top provider registered behind all top providers of a later one |
| `StartOrderLaws.LevelsExist` | ServerCore/Module/ModuleManager.h:131-132 | every sorted part has levels, so the condition above always applies |
| `StartOrderLaws.LevelOrderCanBreak` | ServerCore/Module/ModuleManager.cpp:554-585 | four modules for which it fails |
| `Lifecycle.CModuleManager.InitializeAll` | ServerCore/Module/ModuleManager.cpp:297-319 | initializes in start order; a failure rolls back; every call is one the lifecycle allows |
| `Lifecycle.CModuleManager.StartAll` | ServerCore/Module/ModuleManager.cpp:326-346 | the same for starting |
| `Lifecycle.CModuleManager.StopAll` | ServerCore/Module/ModuleManager.cpp:349-361 | stops the started modules, last registered first |
| `Lifecycle.CModuleManager.ShutdownAll` | ServerCore/Module/ModuleManager.cpp:364-376 | shuts down whatever is neither created nor shut down |
| `Lifecycle.FailedStartRollsBack` | ServerCore/Module/ModuleManager.cpp:338-416 | after a failed StartAll every module that was up is shut down; a started one got one Stop and then one Shutdown, the failing one a Shutdown only |
| `Lifecycle.FailedInitRollsBack` | ServerCore/Module/ModuleManager.cpp:311-390 | after a failed InitializeAll none is Initialized; the failing module stays Created and is not shut down |
| `Lifecycle.SuccessMovesAll` | ServerCore/Module/ModuleManager.cpp:326-346 | a successful pass moves every waiting module by one state and no other |
| `Lifecycle.ProvidersComeFirst` | ServerCore/Module/ModuleManager.cpp:297-317 | when an acyclic module is called, none of its providers is still waiting |
| `Lifecycle.StatesOnlyMoveForward` | ServerCore/Module/ModuleManager.cpp:297-416 | over any sequence of operations and failures every call is legal and no state moves back |
| `Lifecycle.LegalOrder` | ServerCore/Module/ModuleManager.cpp:297-416 | hence no module is called after its shutdown, no transition happens twice, and a stop follows a successful start |
| `Lifecycle.SweepLog` | ServerCore/Module/ModuleManager.cpp:379-416 | a reverse pass calls exactly the modules in the given states, last registered first |
| `Lifecycle.SweepStates` | ServerCore/Module/ModuleManager.cpp:349-416 | and moves exactly those |
| `Lifecycle.StopOrderIff` | ServerCore/Module/ModuleManager.cpp:349-361 | StopAll stops dependents before their providers exactly when started providers are registered before their dependents |
| `Lifecycle.StopOrderCanBreak` | ServerCore/Module/ModuleManager.cpp:349-361 | two modules, initialized and started in their start order, of which the provider is stopped first |
| `Framing.CMessageRouter.OnData` | ServerCore/Message/MessageRouter.cpp:107-162 | buffer plus chunk is cut; messages dispatched and rest stored as `Cut` says; it throws exactly if the extractor claims more than it was given; without an extractor everything is kept; other connections untouched; an empty chunk does nothing |
| `Framing.ConsumeIff` | ServerCore/Message/MessageRouter.cpp:126-149 | cutting is exactly this: messages one behind the other from the front on; what waits for more bytes is kept, and nothing behind a bad header, an empty message or one that claims too much |
| `Framing.CloseStartsOver` | ServerCore/Message/MessageRouter.cpp:165-169 | after a close the connection is as a new one: what comes later is cut as if nothing had been received before, and what was dispatched stays |
| `Framing.ChunksDoNotMatter` | ServerCore/Message/MessageRouter.cpp:107-162 | any split of a clean stream gives the messages and the rest of the whole stream |
| `Framing.DispatchedStays` | ServerCore/Message/MessageRouter.cpp:139-144 | a bad header never changes what was dispatched before it, whatever the split |
| `Framing.ConnectionsAreIsolated` | ServerCore/Message/MessageRouter.cpp:107-169 | over any sequence of calls, each connection sees what it would see alone |
| `ExampleProtocol.ParsersAgree` | ServerExample/Protocol/ExampleProtocol.cpp:19-127 | the extractor and `ParsePacket` agree on every input |
| `ExampleProtocol.WireFormat` | ServerExample/Protocol/ExampleProtocol.cpp:61-71 | the length in network order, cut to 32 bits, then the command, then the payload |
| `ExampleProtocol.ParseMeans` | ServerExample/Protocol/ExampleProtocol.cpp:19-52 | each verdict in terms of the bytes: lengths 1 to 2^20 are valid, and what a valid packet holds |
| `ExampleProtocol.ExtractFits` | ServerExample/Protocol/ExampleProtocol.cpp:90-127 | the extractor consumes only bytes it was given and never revises a verdict |
| `ExampleProtocol.PacketRoundTripIff` | ServerExample/Protocol/ExampleProtocol.cpp:61-71 | a built packet is read back as it was exactly when its payload is at most 2^20 - 1 bytes |
| `ExampleProtocol.StreamRoundTrip` | ServerExample/Protocol/ExampleProtocol.cpp:61-127 | packets followed by a partial one are cut into exactly those packets and that rest |
| `ExampleProtocol.AnySplitRoundTrip` | ServerCore/Message/MessageRouter.cpp:107-162 | the same for any split into chunks |
| `ExampleProtocol.SplitMattersIff` | ServerCore/Message/MessageRouter.cpp:139-144 | joining a first piece with what follows makes no difference exactly when the piece has no bad header |
| `Codec.CBinaryWriter.Write` | Common/Serialization/BinaryWriter.cpp:13-69 | each write appends the bytes of `WrittenFormat` |
| `Codec.CBinaryReader.Read` | Common/Serialization/BinaryReader.cpp:32-154 | each read moves the cursor, fails and latches as `ReadField` says, which `NumberFormat`, `BytesFormat` and `TooShort` put into numbers |
| `Codec.WrittenFormat` | Common/Serialization/BinaryWriter.cpp:13-63 | which bytes stand for a field: 1, 2, 4 or 8 bytes, low byte first; a boolean 1 or 0; a byte string behind its length cut to 32 bits |
| `Codec.InTypeMeans` | Common/Serialization/BinaryWriter.cpp:13-63 | the values of each field type in numbers |
| `Codec.NumberFormat` | Common/Serialization/BinaryReader.cpp:32-128 | which number or boolean a reader gives for the bytes in front of it |
| `Codec.BytesFormat` | Common/Serialization/BinaryReader.cpp:130-148 | which byte string, and that a short body fails behind the length |
| `Codec.TooShort` | Common/Serialization/BinaryReader.cpp:19-29 | with fewer than 1, 2, 4, 8, 1 or 4 bytes left a read fails where it is |
| `Codec.NumberSplit` | Common/Serialization/BinaryWriter.cpp:28-47 | the low bytes and what is shifted out make up the number |
| `Codec.ListRoundTrip` | Common/Serialization/BinaryReader.cpp:19-154 | a list of fields is read back as it was written, wherever it stands, and the reader ends exactly behind it |
| `Codec.WholeRoundTrip` | Common/Serialization/BinaryReader.cpp:19-154 | in particular at the end of exactly the written bytes |
| `Codec.StrictPrefixFails` | Common/Serialization/BinaryReader.cpp:19-29 | on every strict prefix some read fails, all before it are right, all after it fail, and the position stays inside |
| `Codec.BytesRoundTripIff` | Common/Serialization/BinaryWriter.cpp:56-63 | a byte string comes back exactly when it is shorter than 2^32 |
| `Codec.FailKeepsPositionIff` | Common/Serialization/BinaryReader.cpp:130-148 | a failed read keeps the position exactly unless a byte string's prefix was readable |
| `Codec.FailCanMovePosition` | Common/Serialization/BinaryReader.cpp:130-148 | a fresh reader whose failed read ends at position 4 |
| `FileStore.CFileStore.SaveText` | Common/Storage/CFileStore.cpp:57-92 | succeeds exactly if tenant and text are not empty and, by the table, one more item of this size is within each non-zero limit; then exactly this item is in, with the next number, and the statistics agree; else nothing changes |
| `FileStore.CFileStore.SaveFile` | Common/Storage/CFileStore.cpp:94-130 | the same for files, with the default file name |
| `FileStore.CFileStore.Insert` | Common/Storage/CFileStore.cpp:64-91 | the block the two share: quota check against the table, table, statistics and sequence number |
| `FileStore.CFileStore.Remove` | Common/Storage/CFileStore.cpp:244-273 | succeeds exactly on an item of this tenant and removes exactly it; statistics keep agreeing |
| `FileStore.CFileStore.ListSince` | Common/Storage/CFileStore.cpp:212-242 | exactly the tenant's items behind the cursor, in ascending order |
| `FileStore.CFileStore.Count` | Common/Storage/CFileStore.cpp:275-280 | the count over the table |
| `FileStore.CFileStore.TotalBytes` | Common/Storage/CFileStore.cpp:282-287 | the byte sum over the table |
| `FileStore.CFileStore.Clear` | Common/Storage/CFileStore.cpp:289-295 | everything goes except the sequence number |
| `FileStore.SumSplit` | Common/Storage/CFileStore.cpp:88-90 | the sums behind the statistics do not depend on the table's order |
| `FileStore.ClampsNeverAct` | Common/Storage/CFileStore.cpp:260-262 | the guards against going below zero never act |
| `FileStore.SavedWithinLimits` | Common/Storage/CFileStore.cpp:73-78 | a successful save leaves the tenant within the limits passed; a refused one changes nothing |
| `FileStore.SaveSucceedsIff` | Common/Storage/CFileStore.cpp:59-78 | when a save has to succeed, by the table alone; 0 is no limit |
| `FileStore.TenantsAreIsolated` | Common/Storage/CFileStore.h:43-45 | saving and removing leave another tenant's items, counts, sums and stored statistics entry as they were |
| `FileStore.CursorMissesNothing` | Common/Storage/CFileStore.cpp:212-295 | a polling client gets every item at most once, in order, and after a poll has been given all its tenant has, across Clear |
| `FileStore.ListingUnique` | Common/Storage/CFileStore.cpp:236-241 | the store determines the listing |

## Left out

- Sockets, timers, logging, configuration, traces and diagnostics: I/O, or output only.
- Timeouts (`AwaitFor`, the `WithTimeout` manager calls), real time and memory orders: steps are sequentially
  consistent and waits are unbounded.
- The fast path that reads the executor's stopped flag before the gate: the gate's own closed flag is the
  authority and is modelled.
- Reference counting of modules and weak pointers: the model's objects live as long as they are used.
- A coroutine task that was accepted and is later dropped by a stopping pool: `Coroutine` assumes that an
  accepted dispatch runs; a dispatch refused at the call is modelled. `Chains` and `PromiseState` do model
  lost posts; when the gate loses one is the subject of `GateTheorems`, and in those two modules any post
  through the gate may be lost.
- The kind under which each coroutine segment passes the gate: which slot it gets is the gate's subject.
- Two threads stopping the same pool at once, and a restart of the pool while `Stop` is joining; the two flags
  `Stop` resets after the join change in one step.
- Layers of chains are values in a table, not heap objects reached through closures: aliasing of handles is
  not captured. The object that holds one layer's result and handlers is a class (`PromiseState`).
- Settlement of one layer and the release of its handlers is one step in `Chains`; the order of the handler
  calls and the races inside it are the subject of `PromiseState`.
- The group and termination fields of coroutines are values in the transition system; the classes in
  `Coroutine` cover the calls made by one thread.
- Registering and removing message handlers, and the lookup of the handlers of a type: `Dispatch` is the
  event that a message was handed over.
- Null output pointers of the reader, which fail or skip a value; the model always takes the value.
- Choosing a random id in the store: an id is some fresh one. `List`, ordered by the clock, and the plain
  getters.
- 64-bit wrap-around of byte sums and sequence numbers in the store.
- `CBuffer`, the event dispatcher, metrics, interface maps and the example's business flows: thin.
