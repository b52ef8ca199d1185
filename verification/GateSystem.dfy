/**
 The admission protocol as a transition system: threads that submit, pool workers that run task
 bodies (with layers running in place inside a held slot), hand-off to the pool outside the lock,
 refused hand-offs, drain waiters and the executor's stop sequence.  One step is one critical
 section or one atomic operation of the source; any interleaving of steps is a run.
 */
module GateSystem {
  import opened Basics
  import opened ReadWriteGate

  /** A layer running in place; `seen` (ghost) counts the submissions made when its check passed. */
  datatype Layer = Layer(kind: TaskKind, seen: nat)

  datatype Phase =
    | Queued                                // in the gate's deque
    | Admitted(thread: nat)                 // slot taken; in the dispatch buffer of `thread`
    | InPool                                // accepted by the thread pool
    | Running(on: nat, layers: seq<Layer>)  // body running, with the layers running inside it
    | Returned(on: nat)                     // body ended (normally or by a throw), slot still held
    | Exited                                // slot given back
    | Dropped                               // refused by the pool; slot given back
  {
    predicate Holds() {
      Admitted? || InPool? || Running? || Returned?
    }

    predicate Gone() {
      Exited? || Dropped?
    }
  }

  /**
   A task; its number is its place in the submission order.  `work` bounds the in-place layers its
   body will still start (bodies terminate); `runs` counts how often the body was started.
   */
  datatype Task = Task(kind: TaskKind, phase: Phase, work: nat, runs: nat)

  /** Where a thread is inside the gate's own code. */
  datatype Call =
    | NoCall
    | Submitting(kind: TaskKind, work: nat, sawRunning: bool)  // past the closed check, not enqueued
    | Dispatching(hand: seq<nat>)                              // in `DispatchToPool`, these are left

  /** `run` is the gate task whose frame is on the thread. */
  datatype Thread = Thread(run: int, call: Call)

  datatype PoolMode = Up | Stopping | Down

  /** The executor's stop sequence: close, mark, drain, stop the pool. */
  datatype StopAt = Open | Closed | Drained | StoppingPool | Stopped

  datatype State = State(
    max: nat,
    workers: nat,
    vars: GateVars,
    closed: bool,
    drainWaiters: nat,
    sleeping: set<nat>,
    woken: set<nat>,
    pool: seq<nat>,
    mode: PoolMode,
    stop: StopAt,
    tasks: seq<Task>,
    threads: seq<Thread>,
    stale: bool,     // a slot came back by a refused hand-off and nobody pumped since
    clean: bool      // no submission could be bypassed by the drain when the gate closed
  )

  const NoTask: int := -1

  ghost predicate Init(s: State) {
    && s.vars == GateVars([], Slots(0, false))
    && !s.closed && s.drainWaiters == 0 && s.sleeping == {} && s.woken == {}
    && s.pool == [] && s.mode == Up && s.stop == Open
    && s.tasks == [] && !s.stale && s.clean
    && s.workers <= |s.threads|
    && forall t | 0 <= t < |s.threads| :: s.threads[t] == Thread(NoTask, NoCall)
  }

  datatype Step =
    | CheckOpen(t: nat, kind: TaskKind, work: nat)  // Submit reads the closed flag: open
    | CheckRunning(t: nat)                          // Submit reads the pool's running flag: running
    | Refuse(t: nat)                                // Submit reads the running flag: not running
    | Enqueue(t: nat)                               // Submit's critical section
    | PoolAccept(t: nat)                            // one hand-off accepted
    | PoolRefuse(t: nat)                            // one hand-off refused: slot back, no pump
    | DispatchDone(t: nat)                          // the dispatch loop ends
    | WorkerTake(t: nat)                            // a worker pops the pool's queue
    | InlineStart(t: nat, kind: TaskKind)           // a layer is allowed to run in place
    | InlineReturn(t: nat)                          // it returns
    | BodyReturn(t: nat)                            // the task body returns
    | BodyThrow(t: nat)                             // the task body throws through its layers
    | TaskExit(t: nat)                              // OnTaskExit's critical section
    | DrainEnter(d: nat)                            // Drain's first critical section
    | DrainSpurious(d: nat)                         // the condition variable wakes for no reason
    | DrainRecheck(d: nat)                          // a woken waiter looks again
    | StopClose                                     // Stop: close the gate
    | StopDrained                                   // Stop: Drain returns
    | StopPool                                      // Stop: the pool refuses from here on
    | StopJoined                                    // Stop: the workers are gone

  predicate ThreadOk(s: State, t: nat) {
    t < |s.threads|
  }

  /** The thread may execute user code: outside any gate task, or inside a running body. */
  predicate InUserCode(s: State, t: nat) {
    && ThreadOk(s, t) && s.threads[t].call.NoCall?
    && (s.threads[t].run == NoTask || RunningOn(s, t))
  }

  predicate RunningOn(s: State, t: nat) {
    && ThreadOk(s, t) && 0 <= s.threads[t].run < |s.tasks|
    && s.tasks[s.threads[t].run].phase.Running?
  }

  predicate HasHand(s: State, t: nat) {
    && ThreadOk(s, t) && s.threads[t].call.Dispatching? && s.threads[t].call.hand != []
    && s.threads[t].call.hand[0] < |s.tasks|
  }

  predicate Enabled(s: State, step: Step) {
    match step
    case CheckOpen(t, kind, work) => InUserCode(s, t) && !s.closed && !kind.Direct?
    case CheckRunning(t) => ThreadOk(s, t) && s.threads[t].call.Submitting?
      && !s.threads[t].call.sawRunning && s.mode != Down
    case Refuse(t) => ThreadOk(s, t) && s.threads[t].call.Submitting? && !s.threads[t].call.sawRunning && s.mode == Down
    case Enqueue(t) => ThreadOk(s, t) && s.threads[t].call.Submitting? && s.threads[t].call.sawRunning
    case PoolAccept(t) => HasHand(s, t) && s.mode == Up
    case PoolRefuse(t) => HasHand(s, t) && s.mode != Up
    case DispatchDone(t) => ThreadOk(s, t) && s.threads[t].call == Dispatching([])
    case WorkerTake(t) =>
      && t < s.workers && ThreadOk(s, t) && s.threads[t] == Thread(NoTask, NoCall)
      && s.pool != [] && s.pool[0] < |s.tasks|
    case InlineStart(t, kind) =>
      && RunningOn(s, t) && s.threads[t].call.NoCall?
      && var task := s.tasks[s.threads[t].run];
         && task.work > 0 && |task.phase.layers| < MaxInlineDepth
         && (kind.Direct? || s.vars.InPlaceOk(Some(task.kind), kind))
    case InlineReturn(t) =>
      RunningOn(s, t) && s.threads[t].call.NoCall? && s.tasks[s.threads[t].run].phase.layers != []
    case BodyReturn(t) =>
      RunningOn(s, t) && s.threads[t].call.NoCall? && s.tasks[s.threads[t].run].phase.layers == []
    case BodyThrow(t) => RunningOn(s, t) && s.threads[t].call.NoCall?
    case TaskExit(t) =>
      && ThreadOk(s, t) && 0 <= s.threads[t].run < |s.tasks|
      && s.tasks[s.threads[t].run].phase.Returned? && s.threads[t].call.NoCall?
    case DrainEnter(d) => d !in s.sleeping && d !in s.woken
    case DrainSpurious(d) => d in s.sleeping
    case DrainRecheck(d) => d in s.woken && s.drainWaiters > 0
    case StopClose => s.stop == Open
    case StopDrained => s.stop == Closed && s.vars.Idle()
    case StopPool => s.stop == Drained
    case StopJoined =>
      && s.stop == StoppingPool && s.pool == []
      && forall t | 0 <= t < |s.threads| && t < s.workers :: s.threads[t] == Thread(NoTask, NoCall)
  }

  /** Some worker is not this thread. */
  predicate OtherWorker(s: State, t: nat) {
    if t < s.workers then s.workers > 1 else s.workers > 0
  }

  /**
   The thread is between `Submit`'s check and its enqueue, and draining need not wait for it: it is
   inside no gate task, and the gate is idle already or some other worker can finish its work.
   */
  predicate Bypassable(s: State, t: nat) {
    && ThreadOk(s, t) && s.threads[t].call.Submitting? && s.threads[t].run == NoTask
    && (s.vars.Idle() || OtherWorker(s, t))
  }

  // ---- the effect of one step ----

  function SetPhase(s: State, i: nat, p: Phase): State
    requires i < |s.tasks|
  {
    s.(tasks := s.tasks[i := s.tasks[i].(phase := p)])
  }

  function SetCall(s: State, t: nat, c: Call): State
    requires t < |s.threads|
  {
    s.(threads := s.threads[t := s.threads[t].(call := c)])
  }

  function SetRun(s: State, t: nat, run: int): State
    requires t < |s.threads|
  {
    s.(threads := s.threads[t := s.threads[t].(run := run)])
  }

  /** Under the lock, thread `t` moves the queue's head into its dispatch buffer. */
  function AdmitHead(s: State, t: nat): State
    requires t < |s.threads| && s.threads[t].call.Dispatching?
    requires s.vars.queue != [] && s.vars.queue[0].id < |s.tasks|
  {
    var i := s.vars.queue[0].id;
    SetCall(SetPhase(s, i, Admitted(t)), t, Dispatching(s.threads[t].call.hand + [i])).(vars := s.vars.AdmitHead())
  }

  /** The pump on the whole state: admit while the head may enter. */
  function PumpState(s: State, t: nat): State
    requires t < |s.threads| && s.threads[t].call.Dispatching?
    decreases |s.vars.queue|
  {
    if s.vars.Stuck(s.max) || s.vars.queue[0].id >= |s.tasks| then s.(stale := false)
    else PumpState(AdmitHead(s, t), t)
  }

  /** `notify_all`, skipped when nobody is registered. */
  function NotifyDrain(s: State): State {
    if s.drainWaiters != 0 then s.(woken := s.woken + s.sleeping, sleeping := {}) else s
  }

  /** The running task of thread `t`. */
  function TaskOf(s: State, t: nat): nat
    requires ThreadOk(s, t) && 0 <= s.threads[t].run
  {
    s.threads[t].run
  }

  function Apply(s: State, step: Step): State
    requires Enabled(s, step)
  {
    match step
    case CheckOpen(t, kind, work) => SetCall(s, t, Submitting(kind, work, false))
    case CheckRunning(t) => SetCall(s, t, s.threads[t].call.(sawRunning := true))
    case Refuse(t) => SetCall(s, t, NoCall)
    case Enqueue(t) =>
      var c := s.threads[t].call;
      var s1 := s.(tasks := s.tasks + [Task(c.kind, Queued, c.work, 0)],
                   vars := s.vars.(queue := s.vars.queue + [Entry(|s.tasks|, c.kind)]));
      PumpState(SetCall(s1, t, Dispatching([])), t)
    case PoolAccept(t) =>
      var hand := s.threads[t].call.hand;
      SetCall(SetPhase(s, hand[0], InPool), t, Dispatching(hand[1..])).(pool := s.pool + [hand[0]])
    case PoolRefuse(t) =>
      var hand := s.threads[t].call.hand;
      var s1 := SetCall(SetPhase(s, hand[0], Dropped), t, Dispatching(hand[1..]));
      NotifyDrain(s1.(vars := s.vars.GiveBack(s.tasks[hand[0]].kind), stale := true))
    case DispatchDone(t) => SetCall(s, t, NoCall)
    case WorkerTake(t) =>
      var i := s.pool[0];
      var task := s.tasks[i];
      SetRun(s, t, i).(tasks := s.tasks[i := task.(phase := Running(t, []), runs := task.runs + 1)],
                       pool := s.pool[1..])
    case InlineStart(t, kind) =>
      var i := TaskOf(s, t);
      var task := s.tasks[i];
      s.(tasks := s.tasks[i := task.(phase := Running(t, task.phase.layers + [Layer(kind, |s.tasks|)]),
                                     work := task.work - 1)])
    case InlineReturn(t) =>
      var layers := s.tasks[TaskOf(s, t)].phase.layers;
      SetPhase(s, TaskOf(s, t), Running(t, layers[..|layers| - 1]))
    case BodyReturn(t) => SetPhase(s, TaskOf(s, t), Returned(t))
    case BodyThrow(t) => SetPhase(s, TaskOf(s, t), Returned(t))
    case TaskExit(t) =>
      var i := TaskOf(s, t);
      var s1 := SetCall(SetRun(SetPhase(s, i, Exited), t, NoTask), t, Dispatching([]));
      NotifyDrain(PumpState(s1.(vars := s.vars.GiveBack(s.tasks[i].kind)), t))
    case DrainEnter(d) =>
      if s.vars.Idle() then s else s.(sleeping := s.sleeping + {d}, drainWaiters := s.drainWaiters + 1)
    case DrainSpurious(d) => s.(sleeping := s.sleeping - {d}, woken := s.woken + {d})
    case DrainRecheck(d) =>
      if s.vars.Idle() then s.(woken := s.woken - {d}, drainWaiters := s.drainWaiters - 1)
      else s.(woken := s.woken - {d}, sleeping := s.sleeping + {d})
    case StopClose =>
      s.(closed := true, stop := Closed, clean := forall t | 0 <= t < |s.threads| :: !Bypassable(s, t))
    case StopDrained => s.(stop := Drained)
    case StopPool => s.(mode := Stopping, stop := StoppingPool)
    case StopJoined => s.(mode := Down, stop := Stopped)
  }
}
