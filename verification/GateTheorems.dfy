/**
 What every run of the gate guarantees: mutual exclusion with layers running in place, FIFO without
 overtaking, no idle sleeper, progress, and a stop that loses nothing.  The last lemmas show a run
 in which the stop contract is broken and what it costs.
 */
module GateTheorems {
  import opened Basics
  import opened ReadWriteGate
  import opened GateSystem
  import opened GateInvariant

  predicate Valid(s: State, steps: seq<Step>)
    decreases |steps|
  {
    steps == [] || (Enabled(s, steps[0]) && Valid(Apply(s, steps[0]), steps[1..]))
  }

  function After(s: State, steps: seq<Step>): State
    requires Valid(s, steps)
    decreases |steps|
  {
    if steps == [] then s else After(Apply(s, steps[0]), steps[1..])
  }

  lemma {:induction false} RunKeepsInv(s: State, steps: seq<Step>)
    requires Inv(s) && Valid(s, steps)
    ensures Inv(After(s, steps))
    decreases |steps|
  {
    if steps != [] {
      StepInv(s, steps[0]);
      RunKeepsInv(Apply(s, steps[0]), steps[1..]);
    }
  }

  /** Every state a run reaches satisfies the invariant. */
  lemma ReachableInv(s: State, steps: seq<Step>)
    requires Init(s) && Valid(s, steps)
    ensures Inv(After(s, steps))
  {
    InitInv(s);
    RunKeepsInv(s, steps);
  }

  // ---- the steps are the gate object's critical sections ----

  /** A pump that starts with an empty dispatch buffer. */
  lemma PumpFromEmpty(s: State, t: nat)
    requires t < |s.threads| && s.threads[t].call == Dispatching([])
    requires forall j | 0 <= j < |s.vars.queue| :: s.vars.queue[j].id < |s.tasks|
    ensures var s' := PumpState(s, t);
            && s'.vars == Pump(s.vars, s.max).0
            && t < |s'.threads| && s'.threads[t].call == Dispatching(Ids(Pump(s.vars, s.max).1))
  {
    PumpRefines(s, t);
    assert [] + Ids(Pump(s.vars, s.max).1) == Ids(Pump(s.vars, s.max).1);
  }

  lemma IdsInRange(s: State)
    requires QueueOk(s)
    ensures forall j | 0 <= j < |s.vars.queue| :: s.vars.queue[j].id < |s.tasks|
  {}

  /** `Enqueue` does to the gate what `CReadWriteGate.SubmitLocked` does, and keeps what it returns. */
  lemma EnqueueIsSubmitLocked(s: State, t: nat)
    requires Inv(s) && Enabled(s, Enqueue(t))
    ensures var r := Pump(GateVars(s.vars.queue + [Entry(|s.tasks|, s.threads[t].call.kind)], s.vars.slots), s.max);
            var s' := Apply(s, Enqueue(t));
            && s'.vars == r.0
            && t < |s'.threads| && s'.threads[t].call == Dispatching(Ids(r.1))
  {
    IdsInRange(s);
    EnqueueIsPump(s, t);
  }

  lemma EnqueueIsPump(s: State, t: nat)
    requires Enabled(s, Enqueue(t)) && forall j | 0 <= j < |s.vars.queue| :: s.vars.queue[j].id < |s.tasks|
    ensures var r := Pump(GateVars(s.vars.queue + [Entry(|s.tasks|, s.threads[t].call.kind)], s.vars.slots), s.max);
            var s' := Apply(s, Enqueue(t));
            && s'.vars == r.0
            && t < |s'.threads| && s'.threads[t].call == Dispatching(Ids(r.1))
  {
    PumpFromEmpty(BeforeSubmitPump(s, t), t);
  }

  /** `TaskExit` does to the gate what `CReadWriteGate.OnTaskExitLocked` does. */
  lemma TaskExitIsOnTaskExitLocked(s: State, t: nat)
    requires Inv(s) && Enabled(s, TaskExit(t))
    ensures var r := Pump(s.vars.GiveBack(s.tasks[s.threads[t].run].kind), s.max);
            var s' := Apply(s, TaskExit(t));
            && s'.vars == r.0
            && t < |s'.threads| && s'.threads[t].call == Dispatching(Ids(r.1))
  {
    IdsInRange(s);
    TaskExitIsPump(s, t);
  }

  lemma TaskExitIsPump(s: State, t: nat)
    requires Enabled(s, TaskExit(t)) && forall j | 0 <= j < |s.vars.queue| :: s.vars.queue[j].id < |s.tasks|
    ensures var r := Pump(s.vars.GiveBack(s.tasks[s.threads[t].run].kind), s.max);
            var s' := Apply(s, TaskExit(t));
            && s'.vars == r.0
            && t < |s'.threads| && s'.threads[t].call == Dispatching(Ids(r.1))
  {
    PumpFromEmpty(BeforeExitPump(s, t), t);
  }

  /** `PoolRefuse` does to the gate what `CReadWriteGate.DropLocked` does, and wakes whom it says to wake. */
  lemma PoolRefuseIsDropLocked(s: State, t: nat)
    requires Enabled(s, PoolRefuse(t))
    ensures var s' := Apply(s, PoolRefuse(t));
            && s'.vars == s.vars.GiveBack(s.tasks[s.threads[t].call.hand[0]].kind)
            && (s.drainWaiters != 0 ==> s'.sleeping == {} && s'.woken == s.woken + s.sleeping)
            && (s.drainWaiters == 0 ==> s'.sleeping == s.sleeping && s'.woken == s.woken)
  {
  }

  // ---- mutual exclusion ----

  /** Some body of `kind` is executing inside task `i`: its own, or a layer running in place in it. */
  ghost predicate BodyLive(s: State, i: nat, kind: TaskKind) {
    && i < |s.tasks| && s.tasks[i].phase.Running? && !kind.Direct?
    && (kind == s.tasks[i].kind || exists l | l in s.tasks[i].phase.layers :: l.kind == kind)
  }

  /**
   Two bodies executing inside different tasks are both reads, whatever runs in place in them;
   and the running readers respect a non-zero limit.
   */
  lemma MutualExclusion(s: State, steps: seq<Step>, i: nat, j: nat, ki: TaskKind, kj: TaskKind)
    requires Init(s) && Valid(s, steps)
    requires i != j && BodyLive(After(s, steps), i, ki) && BodyLive(After(s, steps), j, kj)
    ensures ki == kj == Read
    ensures s.max > 0 ==> Holders(After(s, steps).tasks, Read) <= s.max
  {
    ReachableInv(s, steps);
    RunConstants(s, steps);
    var e := After(s, steps);
    assert ki == e.tasks[i].kind && kj == e.tasks[j].kind;
    HolderCounted(e.tasks, i, ki);
    HolderCounted(e.tasks, j, kj);
    if ki == kj {
      TwoHoldersCounted(e.tasks, if i < j then i else j, if i < j then j else i, ki);
    }
  }

  lemma StepConstants(s: State, step: Step)
    requires Inv(s) && Enabled(s, step)
    ensures Apply(s, step).max == s.max && Apply(s, step).workers == s.workers
  {
    if step.Enqueue? || step.TaskExit? {
      PumpSteps(s, step);
    }
  }

  lemma {:induction false} RunConstants(s: State, steps: seq<Step>)
    requires Inv(s) && Valid(s, steps)
    ensures After(s, steps).max == s.max && After(s, steps).workers == s.workers
    decreases |steps|
  {
    if steps != [] {
      StepInv(s, steps[0]);
      StepConstants(s, steps[0]);
      RunConstants(Apply(s, steps[0]), steps[1..]);
    }
  }

  /** The counters are exactly the slot holders, so giving a slot back never underflows. */
  lemma CountersAreHolders(s: State, steps: seq<Step>)
    requires Init(s) && Valid(s, steps)
    ensures var e := After(s, steps);
            && e.vars.slots.readers == Holders(e.tasks, Read)
            && (e.vars.slots.writer <==> Holders(e.tasks, Write) == 1)
            && (forall i | 0 <= i < |e.tasks| && e.tasks[i].phase.Holds() ::
                  if e.tasks[i].kind.Read? then e.vars.slots.readers > 0 else e.vars.slots.writer)
  {
    ReachableInv(s, steps);
    var e := After(s, steps);
    forall i | 0 <= i < |e.tasks| && e.tasks[i].phase.Holds()
      ensures if e.tasks[i].kind.Read? then e.vars.slots.readers > 0 else e.vars.slots.writer
    {
      HolderCounted(e.tasks, i, e.tasks[i].kind);
    }
  }

  // ---- fairness ----

  /**
   If `i` was enqueued before `j` and one of them is a write, then `j` has a slot, let alone a
   running body, only when `i` has given its slot back or was dropped.
   */
  lemma NonOvertaking(s: State, steps: seq<Step>, i: nat, j: nat)
    requires Init(s) && Valid(s, steps)
    requires i < j < |After(s, steps).tasks|
    requires After(s, steps).tasks[i].kind.Write? || After(s, steps).tasks[j].kind.Write?
    requires !After(s, steps).tasks[j].phase.Queued?
    ensures After(s, steps).tasks[i].phase.Gone()
  {
    ReachableInv(s, steps);
  }

  /**
   A layer running in place overtakes nobody: none of the tasks submitted before its check is still
   waiting, and at most 64 such layers are nested.
   */
  lemma InlineOvertakesNobody(s: State, steps: seq<Step>, i: nat, l: Layer, k: nat)
    requires Init(s) && Valid(s, steps)
    requires i < |After(s, steps).tasks| && After(s, steps).tasks[i].phase.Running?
    requires l in After(s, steps).tasks[i].phase.layers && !l.kind.Direct?
    requires k < l.seen && k < |After(s, steps).tasks|
    ensures !After(s, steps).tasks[k].phase.Queued?
    ensures |After(s, steps).tasks[i].phase.layers| <= 64
  {
    ReachableInv(s, steps);
  }

  // ---- the pool is a queue ----

  /** The task a worker begins in this step, if there is one. */
  function Begins(s: State, step: Step): seq<int>
    requires Enabled(s, step)
  {
    if step.WorkerTake? then [Apply(s, step).threads[step.t].run] else []
  }

  /** The task handed over to the pool in this step, if there is one. */
  function HandsOver(s: State, step: Step): seq<int>
    requires Enabled(s, step)
  {
    if step.PoolAccept? then [s.threads[step.t].call.hand[0]] else []
  }

  /** The tasks workers began along a run, in order. */
  function Begun(s: State, steps: seq<Step>): seq<int>
    requires Valid(s, steps)
    decreases |steps|
  {
    if steps == [] then [] else Begins(s, steps[0]) + Begun(Apply(s, steps[0]), steps[1..])
  }

  /** The tasks handed over to the pool along a run, in order. */
  function HandedOver(s: State, steps: seq<Step>): seq<int>
    requires Valid(s, steps)
    decreases |steps|
  {
    if steps == [] then [] else HandsOver(s, steps[0]) + HandedOver(Apply(s, steps[0]), steps[1..])
  }

  function Numbers(tasks: seq<nat>): (r: seq<int>)
    ensures |r| == |tasks| && forall j | 0 <= j < |r| :: r[j] == tasks[j]
  {
    seq(|tasks|, j requires 0 <= j < |tasks| => tasks[j])
  }

  /** What one step does to the pool. */
  lemma PoolStep(s: State, step: Step)
    requires Core(s) && CallsOk(s) && Enabled(s, step)
    ensures Numbers(s.pool) + HandsOver(s, step) == Begins(s, step) + Numbers(Apply(s, step).pool)
  {
    if step.WorkerTake? || step.PoolAccept? {
      PoolMoves(s, step);
    } else {
      PoolStays(s, step);
      assert Numbers(s.pool) + [] == [] + Numbers(s.pool);
    }
  }

  lemma PoolMoves(s: State, step: Step)
    requires Enabled(s, step) && (step.WorkerTake? || step.PoolAccept?)
    ensures Numbers(s.pool) + HandsOver(s, step) == Begins(s, step) + Numbers(Apply(s, step).pool)
  {
    if step.WorkerTake? {
      assert Apply(s, step).pool == s.pool[1..] && Begins(s, step) == [s.pool[0]];
    } else {
      assert Apply(s, step).pool == s.pool + [s.threads[step.t].call.hand[0]];
    }
  }

  lemma PoolStays(s: State, step: Step)
    requires Core(s) && CallsOk(s) && Enabled(s, step) && !step.WorkerTake? && !step.PoolAccept?
    ensures Apply(s, step).pool == s.pool
  {
    if step.Enqueue? || step.TaskExit? {
      PumpKeepsPool(s, step);
    }
  }

  lemma PumpKeepsPool(s: State, step: Step)
    requires Core(s) && CallsOk(s) && Enabled(s, step) && (step.Enqueue? || step.TaskExit?)
    ensures Apply(s, step).pool == s.pool
  {
    if step.Enqueue? {
      EnqueueVars(s, step.t);
    } else {
      TaskExitVars(s, step.t);
    }
  }

  /** First handed over, first begun: tasks are begun in the order in which they were handed over. */
  lemma PoolIsQueue(s: State, steps: seq<Step>)
    requires Init(s) && Valid(s, steps)
    ensures Begun(s, steps) + Numbers(After(s, steps).pool) == HandedOver(s, steps)
  {
    InitInv(s);
    PoolFlows(s, steps);
    assert Numbers(s.pool) + HandedOver(s, steps) == HandedOver(s, steps);
  }

  lemma {:induction false} PoolFlows(s: State, steps: seq<Step>)
    requires Inv(s) && Valid(s, steps)
    ensures Begun(s, steps) + Numbers(After(s, steps).pool) == Numbers(s.pool) + HandedOver(s, steps)
    decreases |steps|, 1
  {
    if steps == [] {
      assert [] + Numbers(s.pool) == Numbers(s.pool) + [];
    } else {
      PoolFlowsOn(s, steps[0], steps[1..]);
    }
  }

  lemma {:induction false} PoolFlowsOn(s: State, step: Step, later: seq<Step>)
    requires Inv(s) && Enabled(s, step) && Valid(Apply(s, step), later)
    ensures Begins(s, step) + Begun(Apply(s, step), later) + Numbers(After(Apply(s, step), later).pool) ==
            Numbers(s.pool) + (HandsOver(s, step) + HandedOver(Apply(s, step), later))
    decreases |later| + 1, 0
  {
    var s' := Apply(s, step);
    StepInv(s, step);
    PoolStep(s, step);
    PoolFlows(s', later);
    Joined(Begins(s, step), HandsOver(s, step), Numbers(s.pool), Numbers(s'.pool),
           Begun(s', later), HandedOver(s', later), Numbers(After(s', later).pool));
  }

  lemma Joined(took: seq<int>, gave: seq<int>, pool: seq<int>, pool': seq<int>, begun: seq<int>, handed: seq<int>,
      last: seq<int>)
    requires pool + gave == took + pool' && begun + last == pool' + handed
    ensures took + begun + last == pool + (gave + handed)
  {
    assert took + begun + last == took + (pool' + handed);
    assert pool + (gave + handed) == took + pool' + handed;
  }

  /** A layer that starts in place and returns leaves the layers around it as they were. */
  lemma InlineReturnUndoes(s: State, t: nat, kind: TaskKind)
    requires Enabled(s, InlineStart(t, kind))
    ensures var s1 := Apply(s, InlineStart(t, kind));
            && Enabled(s1, InlineReturn(t))
            && var s2 := Apply(s1, InlineReturn(t));
               var i := s.threads[t].run;
               i < |s2.tasks| && s2.tasks[i].phase == Running(t, s.tasks[i].phase.layers) && s2.vars == s.vars
  {
    var phase := s.tasks[s.threads[t].run].phase;
    var more := phase.layers + [Layer(kind, |s.tasks|)];
    assert more[..|more| - 1] == phase.layers;
  }

  /**
   In place is refused to no layer without need: a gated layer may start in a running body exactly when
   the body's task holds a slot of the same kind already, no submitted task is waiting for one, and fewer
   than 64 layers are nested.
   */
  lemma InPlaceIff(s: State, steps: seq<Step>, t: nat, kind: TaskKind)
    requires Init(s) && Valid(s, steps) && !kind.Direct?
    requires RunningOn(After(s, steps), t) && After(s, steps).threads[t].call.NoCall?
    requires After(s, steps).tasks[After(s, steps).threads[t].run].work > 0
    ensures var e := After(s, steps);
            var task := e.tasks[e.threads[t].run];
            Enabled(e, InlineStart(t, kind))
            <==> task.kind == kind && task.phase.Holds() && |task.phase.layers| < 64
                 && forall i | 0 <= i < |e.tasks| :: !e.tasks[i].phase.Queued?
  {
    ReachableInv(s, steps);
    var e := After(s, steps);
    assert e.vars.queue != [] ==> e.tasks[Head(e)].phase.Queued?;
  }

  /**
   A waiting head always waits for a slot that a live task holds, unless a refused hand-off gave a slot
   back since the last pump; no matter how far `Stop` has come.
   */
  lemma HeadWaitsForHolder(s: State, steps: seq<Step>)
    requires Init(s) && Valid(s, steps)
    requires !After(s, steps).stale && After(s, steps).vars.queue != []
    ensures !After(s, steps).vars.slots.CanEnter(After(s, steps).max, After(s, steps).vars.queue[0].kind)
    ensures exists i | 0 <= i < |After(s, steps).tasks| :: After(s, steps).tasks[i].phase.Holds()
  {
    ReachableInv(s, steps);
    var e := After(s, steps);
    if forall i | 0 <= i < |e.tasks| :: !e.tasks[i].phase.Holds() {
      NoHolders(e.tasks, Read);
      NoHolders(e.tasks, Write);
      assert false;
    }
  }

  lemma {:induction false} NoHolders(tasks: seq<Task>, kind: TaskKind)
    requires forall i | 0 <= i < |tasks| :: !tasks[i].phase.Holds()
    ensures Holders(tasks, kind) == 0
    decreases |tasks|
  {
    if tasks != [] {
      NoHolders(tasks[..|tasks| - 1], kind);
    }
  }

  /** Nobody sleeps in `Drain` while the gate is idle, in any interleaving. */
  lemma NoSleeperWhenIdle(s: State, steps: seq<Step>)
    requires Init(s) && Valid(s, steps)
    requires After(s, steps).vars.Idle()
    ensures After(s, steps).sleeping == {}
    ensures After(s, steps).drainWaiters == |After(s, steps).woken|
  {
    ReachableInv(s, steps);
  }

  ghost predicate InDrain(s: State, d: nat) {
    d in s.sleeping || d in s.woken
  }

  /** `Drain` returns exactly when it finds the gate idle: at once, or when a woken waiter looks again. */
  lemma DrainReturnsWhenIdle(s: State, steps: seq<Step>, step: Step, d: nat)
    requires Init(s) && Valid(s, steps) && Enabled(After(s, steps), step)
    ensures var e, e' := After(s, steps), Apply(After(s, steps), step);
            && (InDrain(e, d) && !InDrain(e', d) ==> step == DrainRecheck(d) && e.vars.Idle())
            && (step == DrainEnter(d) || step == DrainRecheck(d) ==> (InDrain(e', d) <==> !e.vars.Idle()))
  {
    ReachableInv(s, steps);
    DrainStep(After(s, steps), step, d);
  }

  lemma DrainStep(s: State, step: Step, d: nat)
    requires Inv(s) && Enabled(s, step)
    ensures InDrain(s, d) && !InDrain(Apply(s, step), d) ==> step == DrainRecheck(d) && s.vars.Idle()
    ensures step == DrainEnter(d) || step == DrainRecheck(d) ==> (InDrain(Apply(s, step), d) <==> !s.vars.Idle())
  {
    if step.DrainEnter? || step.DrainRecheck? {
      DrainerLooks(s, step, d);
    } else {
      DrainersStay(s, step, d);
    }
  }

  lemma DrainerLooks(s: State, step: Step, d: nat)
    requires Enabled(s, step) && (step.DrainEnter? || step.DrainRecheck?) && s.sleeping * s.woken == {}
    ensures InDrain(s, d) && !InDrain(Apply(s, step), d) ==> step == DrainRecheck(d) && s.vars.Idle()
    ensures step.d == d ==> (InDrain(Apply(s, step), d) <==> !s.vars.Idle())
  {
    assert d in s.woken && d in s.sleeping ==> d in s.sleeping * s.woken;
  }

  lemma DrainersStay(s: State, step: Step, d: nat)
    requires Core(s) && CallsOk(s) && Enabled(s, step) && !step.DrainEnter? && !step.DrainRecheck?
    ensures InDrain(s, d) ==> InDrain(Apply(s, step), d)
  {
    if step.Enqueue? || step.TaskExit? {
      PumpKeepsDrainers(s, step, d);
    }
  }

  lemma PumpKeepsDrainers(s: State, step: Step, d: nat)
    requires Core(s) && CallsOk(s) && Enabled(s, step) && (step.Enqueue? || step.TaskExit?)
    ensures InDrain(s, d) ==> InDrain(Apply(s, step), d)
  {
    if step.Enqueue? {
      EnqueueVars(s, step.t);
    } else {
      TaskExitVars(s, step.t);
    }
  }

  // ---- progress ----

  /** The steps that advance accepted tasks; everything else is submission, waiting or stopping. */
  predicate WorkStep(step: Step) {
    || step.PoolAccept? || step.PoolRefuse? || step.DispatchDone? || step.WorkerTake? || step.InlineStart?
    || step.InlineReturn? || step.BodyReturn? || step.BodyThrow? || step.TaskExit?
  }

  function Weight(task: Task): nat {
    match task.phase
    case Queued => 6 + 2 * task.work
    case Admitted(_) => 5 + 2 * task.work
    case InPool => 4 + 2 * task.work
    case Running(_, layers) => 3 + 2 * task.work + |layers|
    case Returned(_) => 2
    case Exited => 0
    case Dropped => 0
  }

  function TaskWeights(tasks: seq<Task>): nat {
    if tasks == [] then 0 else TaskWeights(tasks[..|tasks| - 1]) + Weight(tasks[|tasks| - 1])
  }

  function Busy(threads: seq<Thread>): nat {
    if threads == [] then 0
    else Busy(threads[..|threads| - 1]) + if threads[|threads| - 1].call.Dispatching? then 1 else 0
  }

  /** How much work is left, over-approximated. */
  function Measure(s: State): nat {
    TaskWeights(s.tasks) + Busy(s.threads)
  }

  lemma {:induction false} WeightsUpdate(tasks: seq<Task>, i: nat, x: Task)
    requires i < |tasks|
    ensures TaskWeights(tasks[i := x]) == TaskWeights(tasks) - Weight(tasks[i]) + Weight(x)
    decreases |tasks|
  {
    var last := |tasks| - 1;
    if i == last {
      assert tasks[i := x][..last] == tasks[..last];
    } else {
      assert tasks[i := x][..last] == tasks[..last][i := x];
      WeightsUpdate(tasks[..last], i, x);
    }
  }

  lemma {:induction false} WeightsMonotone(a: seq<Task>, b: seq<Task>)
    requires |a| == |b| && forall i | 0 <= i < |a| :: Weight(b[i]) <= Weight(a[i])
    ensures TaskWeights(b) <= TaskWeights(a)
    decreases |a|
  {
    if a != [] {
      WeightsMonotone(a[..|a| - 1], b[..|b| - 1]);
    }
  }

  lemma {:induction false} BusyUpdate(threads: seq<Thread>, t: nat, x: Thread)
    requires t < |threads|
    ensures Busy(threads[t := x]) ==
      Busy(threads) - (if threads[t].call.Dispatching? then 1 else 0) + (if x.call.Dispatching? then 1 else 0)
    decreases |threads|
  {
    var last := |threads| - 1;
    if t == last {
      assert threads[t := x][..last] == threads[..last];
    } else {
      assert threads[t := x][..last] == threads[..last][t := x];
      BusyUpdate(threads[..last], t, x);
    }
  }

  /** One task and one thread change. */
  lemma LocalMeasure(s: State, s': State, i: nat, t: nat)
    requires i < |s.tasks| && t < |s.threads|
    requires |s'.tasks| == |s.tasks| && s'.tasks == s.tasks[i := s'.tasks[i]]
    requires |s'.threads| == |s.threads| && s'.threads == s.threads[t := s'.threads[t]]
    requires Weight(s'.tasks[i]) + (if s'.threads[t].call.Dispatching? then 1 else 0)
           < Weight(s.tasks[i]) + (if s.threads[t].call.Dispatching? then 1 else 0)
    ensures Measure(s') < Measure(s)
  {
    WeightsUpdate(s.tasks, i, s'.tasks[i]);
    BusyUpdate(s.threads, t, s'.threads[t]);
  }

  lemma PumpMeasure(b: State, e: State, t: nat)
    requires PumpFrame(b, e, t) && b.threads[t].call.Dispatching?
    ensures Measure(e) <= Measure(b)
  {
    WeightsMonotone(b.tasks, e.tasks);
    BusyUpdate(b.threads, t, e.threads[t]);
    assert e.threads == b.threads[t := e.threads[t]];
  }

  lemma BeforeExitMeasure(s: State, t: nat)
    requires Enabled(s, TaskExit(t))
    ensures Measure(BeforeExitPump(s, t)) < Measure(s)
  {
    LocalMeasure(s, BeforeExitPump(s, t), TaskOf(s, t), t);
  }

  lemma ExitMeasure(s: State, t: nat)
    requires Inv(s) && Enabled(s, TaskExit(t))
    ensures Measure(Apply(s, TaskExit(t))) < Measure(s)
  {
    TaskExitStep(s, t);
    var b := BeforeExitPump(s, t);
    PumpKeepsFrame(b, t);
    BeforeExitMeasure(s, t);
    PumpMeasure(b, PumpState(b, t), t);
  }

  lemma HandMeasure(s: State, step: Step)
    requires Enabled(s, step) && (step.PoolAccept? || step.PoolRefuse?)
    requires s.tasks[s.threads[step.t].call.hand[0]].phase.Admitted?
    ensures Measure(Apply(s, step)) < Measure(s)
  {
    LocalMeasure(s, Apply(s, step), s.threads[step.t].call.hand[0], step.t);
  }

  lemma RunMeasure(s: State, step: Step)
    requires Enabled(s, step) && (step.WorkerTake? || BodyStep(step))
    requires step.WorkerTake? ==> s.tasks[s.pool[0]].phase.InPool?
    ensures Measure(Apply(s, step)) < Measure(s)
  {
    LocalMeasure(s, Apply(s, step), if step.WorkerTake? then s.pool[0] else TaskOf(s, step.t), step.t);
  }

  lemma DoneMeasure(s: State, t: nat)
    requires Enabled(s, DispatchDone(t))
    ensures Measure(Apply(s, DispatchDone(t))) < Measure(s)
  {
    BusyUpdate(s.threads, t, Apply(s, DispatchDone(t)).threads[t]);
  }

  /** Every work step brings the gate nearer to idle. */
  lemma WorkStepDecreases(s: State, step: Step)
    requires Inv(s) && Enabled(s, step) && WorkStep(step)
    ensures Measure(Apply(s, step)) < Measure(s)
  {
    if step.TaskExit? {
      ExitMeasure(s, step.t);
    } else if step.PoolAccept? || step.PoolRefuse? {
      HandMeasure(s, step);
    } else if step.DispatchDone? {
      DoneMeasure(s, step.t);
    } else {
      RunMeasure(s, step);
    }
  }

  /** Without new submissions a run does a bounded amount of work. */
  lemma {:induction false} WorkIsBounded(s: State, steps: seq<Step>)
    requires Inv(s) && Valid(s, steps) && forall k | 0 <= k < |steps| :: WorkStep(steps[k])
    ensures |steps| <= Measure(s)
    decreases |steps|
  {
    if steps != [] {
      WorkStepDecreases(s, steps[0]);
      StepInv(s, steps[0]);
      WorkIsBounded(Apply(s, steps[0]), steps[1..]);
    }
  }

  ghost predicate CanWork(s: State) {
    exists step :: WorkStep(step) && Enabled(s, step)
  }

  /** With a worker and no submission in flight, either work can go on or every task is finished. */
  lemma NoDeadlock(s: State)
    requires Inv(s) && s.workers >= 1 && s.mode == Up && NobodySubmits(s) && !CanWork(s)
    ensures AllExited(s) && s.vars.Idle()
    ensures forall i | 0 <= i < |s.tasks| :: s.tasks[i].runs == 1
  {
    forall t | 0 <= t < |s.threads|
      ensures s.threads[t] == Thread(NoTask, NoCall)
    {
      if s.threads[t] != Thread(NoTask, NoCall) {
        NoStuckThread(s, t);
        assert false;
      }
    }
    if s.pool != [] {
      assert WorkStep(WorkerTake(0)) && Enabled(s, WorkerTake(0));
      assert false;
    }
    RestingIsIdle(s);
    IdleMeansAllExited(s);
  }

  /** With no thread in a task or a dispatch loop and an empty pool, nothing is left to wait for. */
  lemma RestingIsIdle(s: State)
    requires Core(s) && HeadOk(s) && !s.stale && s.pool == []
    requires forall t | 0 <= t < |s.threads| :: s.threads[t].run == NoTask && !s.threads[t].call.Dispatching?
    ensures s.vars.Idle()
  {
    assert forall i | 0 <= i < |s.tasks| :: !s.tasks[i].phase.Holds();
    NoHolders(s.tasks, Read);
    NoHolders(s.tasks, Write);
  }

  lemma NoStuckThread(s: State, t: nat)
    requires Core(s) && t < |s.threads| && s.threads[t] != Thread(NoTask, NoCall) && !s.threads[t].call.Submitting?
    ensures CanWork(s)
  {
    var call := s.threads[t].call;
    if call.Dispatching? {
      var step := if call.hand == [] then DispatchDone(t) else if s.mode == Up then PoolAccept(t) else PoolRefuse(t);
      assert WorkStep(step) && Enabled(s, step);
    } else {
      var step := if s.tasks[s.threads[t].run].phase.Returned? then TaskExit(t) else BodyThrow(t);
      assert WorkStep(step) && Enabled(s, step);
    }
  }

  /**
   Progress: from any reachable state in which the pool accepts and nobody is inside `Submit`, every
   way to go on working ends after at most `Measure` steps, and it ends only with the gate idle and
   each accepted task run exactly once.
   */
  lemma EveryTaskRunsOnce(s: State, steps: seq<Step>, work: seq<Step>)
    requires Init(s) && Valid(s, steps) && s.workers >= 1
    requires After(s, steps).mode == Up && NobodySubmits(After(s, steps))
    requires Valid(After(s, steps), work) && forall k | 0 <= k < |work| :: WorkStep(work[k])
    ensures |work| <= Measure(After(s, steps))
    ensures !CanWork(After(After(s, steps), work)) ==>
              var e := After(After(s, steps), work);
              e.vars.Idle() && forall i | 0 <= i < |e.tasks| :: e.tasks[i].phase.Exited? && e.tasks[i].runs == 1
  {
    ReachableInv(s, steps);
    RunConstants(s, steps);
    var m := After(s, steps);
    WorkIsBounded(m, work);
    WorkKeepsQuiet(m, work);
    RunConstants(m, work);
    if !CanWork(After(m, work)) {
      NoDeadlock(After(m, work));
    }
  }

  lemma {:induction false} WorkKeepsQuiet(s: State, work: seq<Step>)
    requires Inv(s) && Valid(s, work) && NobodySubmits(s) && forall k | 0 <= k < |work| :: WorkStep(work[k])
    ensures Inv(After(s, work)) && NobodySubmits(After(s, work)) && After(s, work).mode == s.mode
    decreases |work|
  {
    if work != [] {
      StepInv(s, work[0]);
      QuietStep(s, work[0]);
      WorkKeepsQuiet(Apply(s, work[0]), work[1..]);
    }
  }

  lemma QuietStep(s: State, step: Step)
    requires Inv(s) && Enabled(s, step) && WorkStep(step) && NobodySubmits(s)
    ensures NobodySubmits(Apply(s, step)) && Apply(s, step).mode == s.mode
  {
    if step.TaskExit? {
      PumpSteps(s, step);
      PumpStepThreads(s, step);
    } else {
      QuietPlainStep(s, step);
    }
  }

  lemma QuietPlainStep(s: State, step: Step)
    requires Enabled(s, step) && WorkStep(step) && !step.TaskExit? && NobodySubmits(s)
    ensures NobodySubmits(Apply(s, step)) && Apply(s, step).mode == s.mode
  {
  }

  /** No task body is ever started twice, and a dropped one never starts. */
  lemma AtMostOnce(s: State, steps: seq<Step>, i: nat)
    requires Init(s) && Valid(s, steps) && i < |After(s, steps).tasks|
    ensures After(s, steps).tasks[i].runs <= 1
    ensures After(s, steps).tasks[i].phase.Dropped? ==> After(s, steps).tasks[i].runs == 0
    ensures After(s, steps).tasks[i].phase.Exited? ==> After(s, steps).tasks[i].runs == 1
  {
    ReachableInv(s, steps);
  }

  // ---- stopping ----

  /**
   If no submission could be bypassed when `Stop` closed the gate, then once the gate is drained (and ever
   after) every accepted task has run exactly once.
   */
  lemma StopLosesNothing(s: State, steps: seq<Step>)
    requires Init(s) && Valid(s, steps)
    requires After(s, steps).clean && After(s, steps).stop in {Drained, StoppingPool, Stopped}
    ensures Lossless(After(s, steps))
    ensures After(s, steps).vars.queue == []
    ensures forall i | 0 <= i < |After(s, steps).tasks| ::
              After(s, steps).tasks[i].phase.Exited? && After(s, steps).tasks[i].runs == 1
  {
    ReachableInv(s, steps);
  }

  /** No accepted task has been dropped, and after the drain each has run exactly once. */
  ghost predicate Lossless(s: State) {
    && !SomeDropped(s)
    && (s.stop in {Drained, StoppingPool, Stopped} ==>
          AllExited(s) && forall i | 0 <= i < |s.tasks| :: s.tasks[i].runs == 1)
  }

  /** Whatever happens after a `Stop` that closes the gate here, no accepted task is lost. */
  ghost predicate SafeToClose(s: State)
    requires s.stop == Open
  {
    forall more | Valid(Apply(s, StopClose), more) :: Lossless(After(Apply(s, StopClose), more))
  }

  lemma {:induction false} RunAppend(s: State, a: seq<Step>, b: seq<Step>)
    requires Valid(s, a) && Valid(After(s, a), b)
    ensures Valid(s, a + b) && After(s, a + b) == After(After(s, a), b)
    decreases |a|
  {
    if a == [] {
      assert a + b == b;
    } else {
      assert (a + b)[1..] == a[1..] + b;
      RunAppend(Apply(s, a[0]), a[1..], b);
    }
  }

  lemma RunOne(s: State, step: Step)
    requires Enabled(s, step)
    ensures Valid(s, [step]) && After(s, [step]) == Apply(s, step)
  {
  }

  // ---- after the stop ----

  ghost predicate WorkersIdle(s: State) {
    forall t | 0 <= t < |s.threads| && t < s.workers :: s.threads[t] == Thread(NoTask, NoCall)
  }

  ghost predicate StoppedOk(s: State) {
    s.stop == Stopped ==> s.pool == [] && WorkersIdle(s)
  }

  /** Once `Stop` is through, nothing waits in the pool and no body runs, for ever. */
  lemma StoppedIsQuiet(s: State, steps: seq<Step>)
    requires Init(s) && Valid(s, steps) && After(s, steps).stop == Stopped
    ensures After(s, steps).pool == []
    ensures forall i | 0 <= i < |After(s, steps).tasks| ::
              var p := After(s, steps).tasks[i].phase; !p.InPool? && !p.Running? && !p.Returned?
  {
    InitInv(s);
    RunKeepsStopped(s, steps);
  }

  lemma {:induction false} RunKeepsStopped(s: State, steps: seq<Step>)
    requires Inv(s) && StoppedOk(s) && Valid(s, steps)
    ensures Inv(After(s, steps)) && StoppedOk(After(s, steps))
    decreases |steps|
  {
    if steps != [] {
      StepInv(s, steps[0]);
      StepKeepsStopped(s, steps[0]);
      RunKeepsStopped(Apply(s, steps[0]), steps[1..]);
    }
  }

  lemma StepKeepsStopped(s: State, step: Step)
    requires Inv(s) && StoppedOk(s) && Enabled(s, step)
    ensures StoppedOk(Apply(s, step))
  {
    if Stops(step) {
      StopStepKeepsStopped(s, step);
    } else {
      StopFields(s, step);
      if s.stop == Stopped && (step.Enqueue? || step.TaskExit?) {
        PumpKeepsStopped(s, step);
      } else if s.stop == Stopped {
        PlainKeepsStopped(s, step);
      }
    }
  }

  lemma StopStepKeepsStopped(s: State, step: Step)
    requires Enabled(s, step) && Stops(step)
    ensures StoppedOk(Apply(s, step))
  {
  }

  lemma PumpKeepsStopped(s: State, step: Step)
    requires Core(s) && CallsOk(s) && Enabled(s, step) && (step.Enqueue? || step.TaskExit?)
    requires s.pool == [] && WorkersIdle(s)
    ensures Apply(s, step).pool == [] && Apply(s, step).workers == s.workers && WorkersIdle(Apply(s, step))
  {
    PumpSteps(s, step);
    PumpKeepsPool(s, step);
    PumpStepThreads(s, step);
    assert s.threads[step.t] != Thread(NoTask, NoCall);
  }

  lemma PlainKeepsStopped(s: State, step: Step)
    requires s.mode == Down && s.closed && s.pool == [] && WorkersIdle(s) && RunOk(s) && s.stop == Stopped
    requires Enabled(s, step) && !step.Enqueue? && !step.TaskExit?
    ensures Apply(s, step).pool == [] && WorkersIdle(Apply(s, step))
  {
  }

  // ---- exactly when a stop is safe ----

  lemma {:induction false} ClosedStays(s: State, more: seq<Step>)
    requires Inv(s) && s.closed && Valid(s, more)
    ensures Inv(After(s, more)) && After(s, more).closed && After(s, more).clean == s.clean
    decreases |more|
  {
    if more != [] {
      StepInv(s, more[0]);
      StopFields(s, more[0]);
      ClosedStays(Apply(s, more[0]), more[1..]);
    }
  }

  /** The drain of everybody but thread t: work steps, and the submissions of other threads. */
  predicate AroundStep(step: Step, t: nat) {
    WorkStep(step) || ((step.CheckRunning? || step.Enqueue?) && step.t != t)
  }

  /** What a submission will still cost once its task is enqueued. */
  function SubmitWeight(thread: Thread): nat {
    match thread.call
    case Submitting(_, work, sawRunning) => 2 * work + if sawRunning then 8 else 9
    case _ => 0
  }

  function Submissions(threads: seq<Thread>): nat {
    if threads == [] then 0 else Submissions(threads[..|threads| - 1]) + SubmitWeight(threads[|threads| - 1])
  }

  lemma {:induction false} SubmissionsUpdate(threads: seq<Thread>, t: nat, x: Thread)
    requires t < |threads|
    ensures Submissions(threads[t := x]) == Submissions(threads) - SubmitWeight(threads[t]) + SubmitWeight(x)
    decreases |threads|
  {
    var last := |threads| - 1;
    if t == last {
      assert threads[t := x][..last] == threads[..last];
    } else {
      assert threads[t := x][..last] == threads[..last][t := x];
      SubmissionsUpdate(threads[..last], t, x);
    }
  }

  function AroundMeasure(s: State): nat {
    Measure(s) + Submissions(s.threads)
  }

  /** A thread that is inside a submission takes no part in work steps; every step moves one thread only. */
  ghost predicate OnlyThread(s: State, s': State, u: nat) {
    && u < |s.threads| == |s'.threads|
    && s'.threads == s.threads[u := s'.threads[u]]
  }

  lemma WorkMovesOne(s: State, step: Step)
    requires Core(s) && CallsOk(s) && Enabled(s, step) && WorkStep(step)
    ensures OnlyThread(s, Apply(s, step), step.t)
    ensures !s.threads[step.t].call.Submitting? && !Apply(s, step).threads[step.t].call.Submitting?
  {
    if step.TaskExit? {
      PumpStepThreads(s, step);
      assert Apply(s, step).threads == s.threads[step.t := Apply(s, step).threads[step.t]];
    } else if BodyStep(step) {
      BodyStepMoves(s, step);
    } else if step.DispatchDone? {
      CallSameTasks(s, step);
    } else {
      HandSteps(s, step);
    }
  }

  lemma WorkAround(s: State, step: Step)
    requires Inv(s) && Enabled(s, step) && WorkStep(step)
    ensures AroundMeasure(Apply(s, step)) < AroundMeasure(s)
  {
    WorkStepDecreases(s, step);
    WorkMovesOne(s, step);
    SubmissionsUpdate(s.threads, step.t, Apply(s, step).threads[step.t]);
  }

  lemma CheckAround(s: State, u: nat)
    requires Enabled(s, CheckRunning(u))
    ensures OnlyThread(s, Apply(s, CheckRunning(u)), u)
    ensures AroundMeasure(Apply(s, CheckRunning(u))) < AroundMeasure(s)
  {
    var x := Apply(s, CheckRunning(u)).threads[u];
    SubmissionsUpdate(s.threads, u, x);
    BusyUpdate(s.threads, u, x);
  }

  lemma {:induction false} WeightsAppend(tasks: seq<Task>, x: Task)
    ensures TaskWeights(tasks + [x]) == TaskWeights(tasks) + Weight(x)
  {
    assert (tasks + [x])[..|tasks|] == tasks;
  }

  lemma BeforeSubmitAround(s: State, u: nat)
    requires Enabled(s, Enqueue(u))
    ensures var b := BeforeSubmitPump(s, u);
            OnlyThread(s, b, u) && AroundMeasure(b) < AroundMeasure(s)
  {
    var b := BeforeSubmitPump(s, u);
    var c := s.threads[u].call;
    WeightsAppend(s.tasks, Task(c.kind, Queued, c.work, 0));
    SubmissionsUpdate(s.threads, u, b.threads[u]);
    BusyUpdate(s.threads, u, b.threads[u]);
  }

  lemma EnqueueAround(s: State, u: nat)
    requires Inv(s) && Enabled(s, Enqueue(u))
    ensures OnlyThread(s, Apply(s, Enqueue(u)), u)
    ensures AroundMeasure(Apply(s, Enqueue(u))) < AroundMeasure(s)
  {
    EnqueueStep(s, u);
    PumpKeepsFrame(BeforeSubmitPump(s, u), u);
    BeforeSubmitAround(s, u);
    PumpAround(s, BeforeSubmitPump(s, u), Apply(s, Enqueue(u)), u);
  }

  lemma PumpAround(s: State, b: State, e: State, u: nat)
    requires OnlyThread(s, b, u) && PumpFrame(b, e, u) && b.threads[u].call.Dispatching?
    ensures OnlyThread(s, e, u) && AroundMeasure(e) <= AroundMeasure(b)
  {
    PumpMeasure(b, e, u);
    assert e.threads == b.threads[u := e.threads[u]];
    SubmissionsUpdate(b.threads, u, e.threads[u]);
  }

  lemma AroundDecreases(s: State, step: Step, t: nat)
    requires Inv(s) && Enabled(s, step) && AroundStep(step, t) && t < |s.threads| && s.threads[t].call.Submitting?
    ensures AroundMeasure(Apply(s, step)) < AroundMeasure(s)
    ensures t < |Apply(s, step).threads| && Apply(s, step).threads[t] == s.threads[t]
  {
    if step.CheckRunning? {
      CheckAround(s, step.t);
    } else if step.Enqueue? {
      EnqueueAround(s, step.t);
    } else {
      WorkAround(s, step);
      WorkMovesOne(s, step);
    }
  }

  /** While the gate is not idle, somebody else can go on. */
  lemma SomeAroundStep(s: State, t: nat) returns (step: Step)
    requires Inv(s) && s.mode == Up && t < |s.threads| && s.threads[t].call.Submitting? && s.threads[t].run == NoTask
    requires OtherWorker(s, t) && !s.vars.Idle()
    ensures Enabled(s, step) && AroundStep(step, t)
  {
    if u: nat :| u < |s.threads| && u != t && s.threads[u].call.Submitting? {
      return if s.threads[u].call.sawRunning then Enqueue(u) else CheckRunning(u);
    }
    if u: nat :| u < |s.threads| && u != t && s.threads[u] != Thread(NoTask, NoCall) {
      NoStuckThread(s, u);
      step :| WorkStep(step) && Enabled(s, step);
      return;
    }
    var w := if t == 0 then 1 else 0;
    assert w < s.workers && s.threads[w] == Thread(NoTask, NoCall);
    if s.pool != [] {
      return WorkerTake(w);
    }
    RestingIsIdle(s);
    assert false;
  }

  /** The gate drains around a submission that is inside no gate task. */
  lemma {:induction false} DrainAround(s: State, t: nat) returns (steps: seq<Step>)
    requires Inv(s) && s.stop == Closed && t < |s.threads| && s.threads[t].call.Submitting?
    requires s.threads[t].run == NoTask
    requires s.vars.Idle() || OtherWorker(s, t)
    ensures Valid(s, steps)
    ensures var e := After(s, steps);
            Inv(e) && e.vars.Idle() && e.stop == Closed && t < |e.threads|
             && e.threads[t] == s.threads[t] && |e.tasks| >= |s.tasks|
    decreases AroundMeasure(s)
  {
    if s.vars.Idle() {
      steps := [];
    } else {
      var step := SomeAroundStep(s, t);
      AroundDecreases(s, step, t);
      StepInv(s, step);
      StopFields(s, step);
      TasksGrow(s, step);
      var rest := DrainAround(Apply(s, step), t);
      steps := [step] + rest;
    }
  }

  lemma TasksGrow(s: State, step: Step)
    requires Core(s) && CallsOk(s) && Enabled(s, step)
    ensures |Apply(s, step).tasks| >= |s.tasks|
  {
    if step.Enqueue? || step.TaskExit? {
      PumpStepTasks(s, step);
    }
  }

  /** In an idle gate a new task is admitted at once. */
  lemma IdleAdmits(g: GateVars, max: nat, e: Entry)
    requires g.Idle() && !e.kind.Direct?
    ensures Pump(GateVars(g.queue + [e], g.slots), max).1 == [e]
  {
    var h := GateVars(g.queue + [e], g.slots);
    assert h.queue == [e] && !h.Stuck(max);
    assert h.AdmitHead().queue == [];
  }

  lemma RunThen(s: State, a: seq<Step>, step: Step)
    requires Valid(s, a) && Enabled(After(s, a), step)
    ensures Valid(s, a + [step]) && After(s, a + [step]) == Apply(After(s, a), step)
  {
    RunOne(After(s, a), step);
    RunAppend(s, a, [step]);
  }

  /** `Stop` goes on as far as the pool's refusal; no thread notices. */
  lemma StopUpToRefusal(s: State) returns (steps: seq<Step>)
    requires Inv(s) && s.stop == Closed && s.vars.Idle()
    ensures Valid(s, steps)
    ensures var e := After(s, steps);
            Inv(e) && e.mode == Stopping && e.vars == s.vars && e.threads == s.threads
  {
    StepInv(s, StopDrained);
    StepInv(Apply(s, StopDrained), StopPool);
    RunOne(s, StopDrained);
    RunThen(s, [StopDrained], StopPool);
    steps := [StopDrained] + [StopPool];
  }

  /** A submission that arrives between the drain and the pool's stop: its task is dropped. */
  lemma LateIsDropped(s: State, t: nat) returns (steps: seq<Step>)
    requires Inv(s) && s.stop == Closed && s.vars.Idle()
    requires t < |s.threads| && s.threads[t].call.Submitting? && s.threads[t].run == NoTask
    ensures Valid(s, steps) && SomeDropped(After(s, steps))
  {
    steps := StopUpToRefusal(s);
    var e := After(s, steps);
    if !e.threads[t].call.sawRunning {
      StepInv(e, CheckRunning(t));
      RunThen(s, steps, CheckRunning(t));
      steps := steps + [CheckRunning(t)];
    }
    var dropped := EnqueueIsDropped(After(s, steps), t);
    RunAppend(s, steps, dropped);
    steps := steps + dropped;
  }

  lemma EnqueueIsDropped(s: State, t: nat) returns (steps: seq<Step>)
    requires Inv(s) && s.mode == Stopping && s.vars.Idle() && Enabled(s, Enqueue(t))
    ensures Valid(s, steps) && SomeDropped(After(s, steps))
  {
    var s1 := Apply(s, Enqueue(t));
    EnqueueAdmits(s, t);
    StepCore(s, Enqueue(t));
    StopFields(s, Enqueue(t));
    RefusalDrops(s1, t);
    RunOne(s, Enqueue(t));
    RunThen(s, [Enqueue(t)], PoolRefuse(t));
    steps := [Enqueue(t)] + [PoolRefuse(t)];
  }

  lemma EnqueueAdmits(s: State, t: nat)
    requires Inv(s) && s.vars.Idle() && Enabled(s, Enqueue(t))
    ensures var s1 := Apply(s, Enqueue(t)); t < |s1.threads| && s1.threads[t].call == Dispatching([|s.tasks|])
  {
    var e := Entry(|s.tasks|, s.threads[t].call.kind);
    EnqueueIsSubmitLocked(s, t);
    IdleAdmits(s.vars, s.max, e);
    assert Ids([e]) == [e.id] + Ids([e][1..]);
  }

  lemma RefusalDrops(s: State, t: nat)
    requires HandsHold(s) && s.mode == Stopping && ThreadOk(s, t) && s.threads[t].call.Dispatching?
    requires s.threads[t].call.hand != []
    ensures Enabled(s, PoolRefuse(t)) && SomeDropped(Apply(s, PoolRefuse(t)))
  {
    var i := s.threads[t].call.hand[0];
    assert i < |s.tasks| && Apply(s, PoolRefuse(t)).tasks[i].phase.Dropped?;
  }

  /** If a submission can be bypassed, it can be lost. */
  lemma BypassedIsLost(s: State, t: nat) returns (more: seq<Step>)
    requires Inv(s) && s.stop == Open && Bypassable(s, t)
    ensures Valid(Apply(s, StopClose), more) && SomeDropped(After(Apply(s, StopClose), more))
  {
    var s1 := Apply(s, StopClose);
    StepInv(s, StopClose);
    var drain := DrainAround(s1, t);
    var late := LateIsDropped(After(s1, drain), t);
    RunAppend(s1, drain, late);
    more := drain + late;
  }

  /**
   Exactly when a stop is safe: in every reachable state, closing the gate loses no accepted task,
   whatever happens next, if and only if no submission can be bypassed by the drain, that is, each thread
   between `Submit`'s check and its enqueue is inside a gate task, or keeps the only worker from
   draining a gate that is not idle.
   */
  lemma SafeToCloseIff(s: State, steps: seq<Step>)
    requires Init(s) && Valid(s, steps) && After(s, steps).stop == Open
    ensures SafeToClose(After(s, steps)) <==> NoneBypassable(After(s, steps))
  {
    ReachableInv(s, steps);
    var e := After(s, steps);
    if NoneBypassable(e) {
      forall more | Valid(Apply(e, StopClose), more)
        ensures Lossless(After(Apply(e, StopClose), more))
      {
        StepInv(e, StopClose);
        ClosedStays(Apply(e, StopClose), more);
        CleanIsLossless(After(Apply(e, StopClose), more));
      }
    } else {
      var t :| 0 <= t < |e.threads| && Bypassable(e, t);
      var more := BypassedIsLost(e, t);
      assert !Lossless(After(Apply(e, StopClose), more));
    }
  }

  lemma CleanIsLossless(s: State)
    requires Inv(s) && s.closed && s.clean
    ensures Lossless(s)
  {
  }

  function TwoThreads(): State {
    State(0, 1, GateVars([], Slots(0, false)), false, 0, {}, {}, [], Up, Open, [],
          [Thread(NoTask, NoCall), Thread(NoTask, NoCall)], false, true)
  }

  /** Both threads have passed `Submit`'s checks; then `Stop` runs up to the pool's refusal. */
  function BothChecked(): State {
    var c := Thread(NoTask, Submitting(Write, 0, true));
    TwoThreads().(threads := [c, c])
  }

  function StoppedAround(): State {
    BothChecked().(closed := true, clean := false, stop := StoppingPool, mode := Stopping)
  }

  lemma ReachBothChecked() returns (steps: seq<Step>)
    ensures Valid(TwoThreads(), steps) && After(TwoThreads(), steps) == BothChecked()
  {
    var s1 := Apply(TwoThreads(), CheckOpen(0, Write, 0));
    var s2 := Apply(s1, CheckRunning(0));
    var s3 := Apply(s2, CheckOpen(1, Write, 0));
    var s4 := Apply(s3, CheckRunning(1));
    RunOne(TwoThreads(), CheckOpen(0, Write, 0));
    RunOne(s1, CheckRunning(0));
    RunOne(s2, CheckOpen(1, Write, 0));
    RunOne(s3, CheckRunning(1));
    steps := [CheckOpen(0, Write, 0)];
    RunAppend(TwoThreads(), steps, [CheckRunning(0)]);
    steps := steps + [CheckRunning(0)];
    RunAppend(TwoThreads(), steps, [CheckOpen(1, Write, 0)]);
    steps := steps + [CheckOpen(1, Write, 0)];
    RunAppend(TwoThreads(), steps, [CheckRunning(1)]);
    steps := steps + [CheckRunning(1)];
    assert s4.threads == BothChecked().threads;
  }

  lemma ReachStopped() returns (steps: seq<Step>)
    ensures Valid(BothChecked(), steps) && After(BothChecked(), steps) == StoppedAround()
  {
    var s1 := Apply(BothChecked(), StopClose);
    assert Bypassable(BothChecked(), 0);
    var s2 := Apply(s1, StopDrained);
    RunOne(BothChecked(), StopClose);
    RunOne(s1, StopDrained);
    RunOne(s2, StopPool);
    steps := [StopClose];
    RunAppend(BothChecked(), steps, [StopDrained]);
    steps := steps + [StopDrained];
    RunAppend(BothChecked(), steps, [StopPool]);
    steps := steps + [StopPool];
  }

  /** The end: task 0 dropped, task 1 waiting in front of free slots. */
  function Stranded(): State {
    StoppedAround().(
      vars := GateVars([Entry(1, Write)], Slots(0, false)),
      tasks := [Task(Write, Dropped, 0, 0), Task(Write, Queued, 0, 0)],
      threads := TwoThreads().threads,
      stale := true)
  }

  lemma FirstEnqueue()
    ensures Enabled(StoppedAround(), Enqueue(0))
    ensures Apply(StoppedAround(), Enqueue(0)) ==
      StoppedAround().(vars := GateVars([], Slots(0, true)), tasks := [Task(Write, Admitted(0), 0, 0)],
                       threads := [Thread(NoTask, Dispatching([0])), Thread(NoTask, Submitting(Write, 0, true))])
  {
    var b := BeforeSubmitPump(StoppedAround(), 0);
    assert !b.vars.Stuck(b.max);
    var a := AdmitHead(b, 0);
    assert a.vars == GateVars([], Slots(0, true));
    assert b.threads[0].call.hand + [0] == [0];
    assert a.threads == [Thread(NoTask, Dispatching([0])), Thread(NoTask, Submitting(Write, 0, true))];
    assert PumpState(b, 0) == PumpState(a, 0) == a.(stale := false);
  }

  lemma SecondEnqueue(s: State)
    requires s == StoppedAround().(vars := GateVars([], Slots(0, true)), tasks := [Task(Write, Admitted(0), 0, 0)],
                       threads := [Thread(NoTask, Dispatching([0])), Thread(NoTask, Submitting(Write, 0, true))])
    ensures Enabled(s, Enqueue(1))
    ensures Apply(s, Enqueue(1)) ==
      s.(vars := GateVars([Entry(1, Write)], Slots(0, true)),
         tasks := [Task(Write, Admitted(0), 0, 0), Task(Write, Queued, 0, 0)],
         threads := [Thread(NoTask, Dispatching([0])), Thread(NoTask, Dispatching([]))])
  {
    var b := BeforeSubmitPump(s, 1);
    assert b.vars.Stuck(b.max);
  }

  lemma ReachStranded() returns (steps: seq<Step>)
    ensures Valid(StoppedAround(), steps) && After(StoppedAround(), steps) == Stranded()
  {
    var s0 := StoppedAround();
    FirstEnqueue();
    var s1 := Apply(s0, Enqueue(0));
    SecondEnqueue(s1);
    var s2 := Apply(s1, Enqueue(1));
    var s3 := Apply(s2, PoolRefuse(0));
    assert [0][1..] == [];
    assert s3.threads == [Thread(NoTask, Dispatching([])), Thread(NoTask, Dispatching([]))];
    var s4 := Apply(s3, DispatchDone(0));
    var s5 := Apply(s4, DispatchDone(1));
    assert s5.threads == TwoThreads().threads;
    assert s5.tasks == Stranded().tasks;
    RunOne(s0, Enqueue(0));
    RunOne(s1, Enqueue(1));
    RunOne(s2, PoolRefuse(0));
    RunOne(s3, DispatchDone(0));
    RunOne(s4, DispatchDone(1));
    steps := [Enqueue(0)];
    RunAppend(s0, steps, [Enqueue(1)]);
    steps := steps + [Enqueue(1)];
    RunAppend(s0, steps, [PoolRefuse(0)]);
    steps := steps + [PoolRefuse(0)];
    RunAppend(s0, steps, [DispatchDone(0)]);
    steps := steps + [DispatchDone(0)];
    RunAppend(s0, steps, [DispatchDone(1)]);
    steps := steps + [DispatchDone(1)];
  }

  /** With every thread outside the gate and an empty pool there is no work to do. */
  lemma IdleThreadsRest(s: State)
    requires s.pool == [] && forall t | 0 <= t < |s.threads| :: s.threads[t] == Thread(NoTask, NoCall)
    ensures !CanWork(s)
  {
    forall step | WorkStep(step)
      ensures !Enabled(s, step)
    {
      if step.t < |s.threads| {
        assert s.threads[step.t] == Thread(NoTask, NoCall);
      }
    }
  }

  lemma RunAppend3(s: State, a: seq<Step>, b: seq<Step>, c: seq<Step>)
    requires Valid(s, a) && Valid(After(s, a), b) && Valid(After(After(s, a), b), c)
    ensures Valid(s, a + b + c) && After(s, a + b + c) == After(After(After(s, a), b), c)
  {
    RunAppend(s, a, b);
    RunAppend(s, a + b, c);
  }

  /**
   The hypothesis is needed: in this run one accepted task is dropped and another stays queued in
   front of free slots, because the refused hand-off returns its slot without pumping.  No work
   step is left, so a later `Drain` would wait forever.
   */
  lemma LateSubmittersAreLost() returns (steps: seq<Step>)
    ensures Init(TwoThreads()) && Valid(TwoThreads(), steps)
    ensures var e := After(TwoThreads(), steps);
            && !e.clean && |e.tasks| == 2
            && e.tasks[0].phase.Dropped? && e.tasks[0].runs == 0
            && e.tasks[1].phase.Queued? && e.vars.slots.Free() && !e.vars.Idle() && !CanWork(e)
  {
    var a := ReachBothChecked();
    var b := ReachStopped();
    var c := ReachStranded();
    RunAppend3(TwoThreads(), a, b, c);
    IdleThreadsRest(Stranded());
    steps := a + b + c;
  }
}
