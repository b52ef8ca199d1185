/**
 One invariant for the gate in every interleaving: the queue and the counters, the hand-off buffers, the
 pool and the workers, layers running in place, drain waiters and the stop sequence.  The lemmas show,
 step by step and part by part, that each step keeps it.
 */
module GateInvariant {
  import opened Basics
  import opened ReadWriteGate
  import opened GateSystem

  /** The number of tasks the pump has taken off the queue so far. */
  function Head(s: State): int {
    |s.tasks| - |s.vars.queue|
  }

  /** The tasks of one kind that hold a slot. */
  function Holders(tasks: seq<Task>, kind: TaskKind): nat {
    if tasks == [] then 0
    else
      var last := tasks[|tasks| - 1];
      Holders(tasks[..|tasks| - 1], kind) + if last.kind == kind && last.phase.Holds() then 1 else 0
  }

  /** The deque holds exactly the not yet admitted tasks, in submission order. */
  ghost predicate QueueOk(s: State) {
    && |s.vars.queue| <= |s.tasks|
    && (forall j | 0 <= j < |s.vars.queue| :: s.vars.queue[j] == Entry(Head(s) + j, s.tasks[Head(s) + j].kind))
    && (forall i | 0 <= i < |s.tasks| :: s.tasks[i].phase.Queued? <==> i >= Head(s))
    && (forall i | 0 <= i < |s.tasks| :: !s.tasks[i].kind.Direct?)
  }

  /** The counters are the numbers of slot holders, and the holders may coexist. */
  ghost predicate SlotsOk(s: State) {
    && s.vars.slots.readers == Holders(s.tasks, Read)
    && (if s.vars.slots.writer then 1 else 0) == Holders(s.tasks, Write)
    && (s.vars.slots.writer ==> s.vars.slots.readers == 0)
    && (s.max > 0 ==> s.vars.slots.readers <= s.max)
  }

  /** Of two tasks, one a write, the later one is admitted only when the earlier one is gone. */
  ghost predicate OrderOk(s: State) {
    forall i, j | 0 <= i < j < |s.tasks| && !s.tasks[j].phase.Queued?
                   && (s.tasks[i].kind.Write? || s.tasks[j].kind.Write?)
      :: s.tasks[i].phase.Gone()
  }

  /** A thread in the dispatch loop holds different tasks, each admitted for it. */
  ghost predicate HandsHold(s: State) {
    forall t | 0 <= t < |s.threads| && s.threads[t].call.Dispatching? ::
      && (forall j | 0 <= j < |s.threads[t].call.hand| ::
            s.threads[t].call.hand[j] < |s.tasks| && s.tasks[s.threads[t].call.hand[j]].phase == Admitted(t))
      && (forall j, k | 0 <= j < k < |s.threads[t].call.hand| :: s.threads[t].call.hand[j] != s.threads[t].call.hand[k])
  }

  /** An admitted task is in the hand of its thread. */
  ghost predicate AdmittedHeld(s: State) {
    forall i | 0 <= i < |s.tasks| && s.tasks[i].phase.Admitted? ::
      && s.tasks[i].phase.thread < |s.threads|
      && s.threads[s.tasks[i].phase.thread].call.Dispatching?
      && i in s.threads[s.tasks[i].phase.thread].call.hand
  }

  ghost predicate HandsOk(s: State) {
    HandsHold(s) && AdmittedHeld(s)
  }

  ghost predicate PoolOk(s: State) {
    && (forall j | 0 <= j < |s.pool| :: s.pool[j] < |s.tasks| && s.tasks[s.pool[j]].phase.InPool?)
    && (forall j, k | 0 <= j < k < |s.pool| :: s.pool[j] != s.pool[k])
    && (forall i | 0 <= i < |s.tasks| && s.tasks[i].phase.InPool? :: i in s.pool)
  }

  ghost predicate RunOk(s: State) {
    && s.workers <= |s.threads|
    && (forall t | 0 <= t < |s.threads| && s.threads[t].run != NoTask ::
          && 0 <= s.threads[t].run < |s.tasks|
          && var p := s.tasks[s.threads[t].run].phase;
             (p.Running? || p.Returned?) && p.on == t)
    && (forall i | 0 <= i < |s.tasks| && (s.tasks[i].phase.Running? || s.tasks[i].phase.Returned?) ::
          s.tasks[i].phase.on < s.workers && s.threads[s.tasks[i].phase.on].run == i)
    && (forall i | 0 <= i < |s.tasks| && s.tasks[i].phase.Returned? :: s.threads[s.tasks[i].phase.on].call.NoCall?)
  }

  /** Layers run in place only in a slot of their own kind, overtook nobody, and nest at most 64 deep. */
  ghost predicate LayersOk(s: State) {
    forall i | 0 <= i < |s.tasks| && s.tasks[i].phase.Running? ::
      && |s.tasks[i].phase.layers| <= MaxInlineDepth
      && forall l | l in s.tasks[i].phase.layers && !l.kind.Direct? :: l.kind == s.tasks[i].kind && l.seen <= Head(s)
  }

  ghost predicate RunsOk(s: State) {
    forall i | 0 <= i < |s.tasks| ::
      var p := s.tasks[i].phase;
      s.tasks[i].runs == if p.Running? || p.Returned? || p.Exited? then 1 else 0
  }

  ghost predicate Core(s: State) {
    QueueOk(s) && SlotsOk(s) && OrderOk(s) && HandsOk(s) && PoolOk(s) && RunOk(s) && LayersOk(s) && RunsOk(s)
  }

  // ---- counting holders ----

  lemma {:induction false} HoldersUpdate(tasks: seq<Task>, i: nat, x: Task, kind: TaskKind)
    requires i < |tasks|
    ensures Holders(tasks[i := x], kind) ==
      Holders(tasks, kind)
      - (if tasks[i].kind == kind && tasks[i].phase.Holds() then 1 else 0)
      + (if x.kind == kind && x.phase.Holds() then 1 else 0)
    decreases |tasks|
  {
    var last := |tasks| - 1;
    if i == last {
      assert tasks[i := x][..last] == tasks[..last];
    } else {
      assert tasks[i := x][..last] == tasks[..last][i := x];
      HoldersUpdate(tasks[..last], i, x, kind);
    }
  }

  lemma {:induction false} HolderCounted(tasks: seq<Task>, i: nat, kind: TaskKind)
    requires i < |tasks| && tasks[i].kind == kind && tasks[i].phase.Holds()
    ensures Holders(tasks, kind) >= 1
    decreases |tasks|
  {
    if i < |tasks| - 1 {
      HolderCounted(tasks[..|tasks| - 1], i, kind);
    }
  }

  lemma {:induction false} TwoHoldersCounted(tasks: seq<Task>, i: nat, j: nat, kind: TaskKind)
    requires i < j < |tasks|
    requires tasks[i].kind == kind && tasks[i].phase.Holds()
    requires tasks[j].kind == kind && tasks[j].phase.Holds()
    ensures Holders(tasks, kind) >= 2
    decreases |tasks|
  {
    if j < |tasks| - 1 {
      TwoHoldersCounted(tasks[..|tasks| - 1], i, j, kind);
    } else {
      HolderCounted(tasks[..|tasks| - 1], i, kind);
    }
  }

  lemma {:induction false} NoHolder(tasks: seq<Task>, kind: TaskKind)
    requires Holders(tasks, kind) == 0
    ensures forall i | 0 <= i < |tasks| && tasks[i].kind == kind :: !tasks[i].phase.Holds()
    decreases |tasks|
  {
    if tasks != [] {
      NoHolder(tasks[..|tasks| - 1], kind);
    }
  }

  // ---- one admission ----

  /** What `AdmitHead` needs of the thread that pumps. */
  ghost predicate MayPump(s: State, t: nat) {
    && Core(s) && t < |s.threads| && s.threads[t].call.Dispatching?
    && (s.threads[t].run == NoTask || RunningOn(s, t))
  }

  /** The pump may admit the head for thread t. */
  predicate Admits(s: State, t: nat) {
    t < |s.threads| && s.threads[t].call.Dispatching? && !s.vars.Stuck(s.max) && s.vars.queue[0].id < |s.tasks|
  }

  lemma AdmitHeadQueue(s: State, t: nat)
    requires QueueOk(s) && Admits(s, t)
    ensures QueueOk(AdmitHead(s, t)) && Head(AdmitHead(s, t)) == Head(s) + 1
  {
    assert s.vars.queue[0].id == Head(s);
  }

  lemma AdmitHeadSlots(s: State, t: nat)
    requires QueueOk(s) && SlotsOk(s) && Admits(s, t)
    ensures SlotsOk(AdmitHead(s, t))
  {
    var i := s.vars.queue[0].id;
    var x := s.tasks[i].(phase := Admitted(t));
    HoldersUpdate(s.tasks, i, x, Read);
    HoldersUpdate(s.tasks, i, x, Write);
    assert s.vars.queue[0].kind == s.tasks[i].kind;
  }

  /** This is where FIFO order and the slot test together rule out overtaking. */
  lemma AdmitHeadOrder(s: State, t: nat)
    requires QueueOk(s) && SlotsOk(s) && OrderOk(s) && Admits(s, t)
    ensures OrderOk(AdmitHead(s, t))
  {
    var s' := AdmitHead(s, t);
    var h := s.vars.queue[0].id;
    assert h == Head(s) && s.vars.queue[0].kind == s.tasks[h].kind;
    forall i, j | 0 <= i < j < |s'.tasks| && !s'.tasks[j].phase.Queued?
                   && (s'.tasks[i].kind.Write? || s'.tasks[j].kind.Write?)
      ensures s'.tasks[i].phase.Gone()
    {
      if j == h {
        assert !s.tasks[i].phase.Queued?;
        if s.tasks[i].phase.Holds() {
          HolderCounted(s.tasks, i, s.tasks[i].kind);
          assert false;
        }
      } else {
        assert j < h;
      }
    }
  }

  lemma AdmitHeadHolds(s: State, t: nat)
    requires QueueOk(s) && HandsHold(s) && Admits(s, t)
    ensures HandsHold(AdmitHead(s, t))
  {
    var h := s.vars.queue[0].id;
    assert h == Head(s) && s.tasks[h].phase.Queued?;
    var s' := AdmitHead(s, t);
    forall u | 0 <= u < |s'.threads| && s'.threads[u].call.Dispatching?
      ensures forall j | 0 <= j < |s'.threads[u].call.hand| ::
                s'.threads[u].call.hand[j] < |s'.tasks| && s'.tasks[s'.threads[u].call.hand[j]].phase == Admitted(u)
    {
      var hand := s.threads[u].call.hand;
      assert forall j | 0 <= j < |hand| :: hand[j] != h;
    }
  }

  lemma AdmitHeadHeld(s: State, t: nat)
    requires AdmittedHeld(s) && Admits(s, t)
    ensures AdmittedHeld(AdmitHead(s, t))
  {
    var s' := AdmitHead(s, t);
    var h := s.vars.queue[0].id;
    assert s'.threads[t].call.hand[|s.threads[t].call.hand|] == h;
    forall i | 0 <= i < |s'.tasks| && s'.tasks[i].phase.Admitted?
      ensures s'.tasks[i].phase.thread < |s'.threads|
      ensures s'.threads[s'.tasks[i].phase.thread].call.Dispatching?
      ensures i in s'.threads[s'.tasks[i].phase.thread].call.hand
    {
      if i != h {
        assert i in s.threads[s.tasks[i].phase.thread].call.hand;
      }
    }
  }

  lemma AdmitHeadPlaces(s: State, t: nat)
    requires QueueOk(s) && PoolOk(s) && RunsOk(s) && Admits(s, t)
    ensures PoolOk(AdmitHead(s, t)) && RunsOk(AdmitHead(s, t))
  {
    assert s.vars.queue[0].id == Head(s) && s.tasks[Head(s)].phase.Queued?;
  }

  lemma AdmitHeadRun(s: State, t: nat)
    requires QueueOk(s) && RunOk(s) && LayersOk(s) && Admits(s, t)
    requires s.threads[t].run == NoTask || RunningOn(s, t)
    ensures RunOk(AdmitHead(s, t)) && LayersOk(AdmitHead(s, t))
    ensures AdmitHead(s, t).threads[t].run == NoTask || RunningOn(AdmitHead(s, t), t)
  {
    assert s.vars.queue[0].id == Head(s) && s.tasks[Head(s)].phase.Queued?;
  }

  lemma AdmitHeadKeeps(s: State, t: nat)
    requires MayPump(s, t) && !s.vars.Stuck(s.max)
    ensures MayPump(AdmitHead(s, t), t)
    ensures AdmitHead(s, t).vars == s.vars.AdmitHead()
  {
    assert s.vars.queue[0].id == Head(s);
    AdmitHeadQueue(s, t);
    AdmitHeadSlots(s, t);
    AdmitHeadOrder(s, t);
    AdmitHeadHolds(s, t);
    AdmitHeadHeld(s, t);
    AdmitHeadPlaces(s, t);
    AdmitHeadRun(s, t);
  }

  /** What the pump leaves alone. */
  ghost predicate PumpFrame(s: State, s': State, t: nat) {
    && t < |s.threads| == |s'.threads| && |s'.tasks| == |s.tasks|
    && s'.threads[t].run == s.threads[t].run && s'.threads[t].call.Dispatching?
    && (forall u | 0 <= u < |s.threads| && u != t :: s'.threads[u] == s.threads[u])
    && (forall i | 0 <= i < |s.tasks| ::
          s'.tasks[i] == s.tasks[i] || (s.tasks[i].phase.Queued? && s'.tasks[i] == s.tasks[i].(phase := Admitted(t))))
    && s' == s.(vars := s'.vars, tasks := s'.tasks, threads := s'.threads, stale := false)
  }

  function Ids(es: seq<Entry>): seq<nat> {
    if es == [] then [] else [es[0].id] + Ids(es[1..])
  }

  lemma {:induction false} PumpKeepsCore(s: State, t: nat)
    requires MayPump(s, t)
    ensures MayPump(PumpState(s, t), t)
    decreases |s.vars.queue|
  {
    if s.vars.Stuck(s.max) {
      SameCoreKeeps(s, s.(stale := false));
    } else {
      assert s.vars.queue[0].id == Head(s);
      AdmitHeadKeeps(s, t);
      PumpKeepsCore(AdmitHead(s, t), t);
    }
  }

  /** The core invariant speaks only of these fields. */
  ghost predicate SameCore(s: State, s': State) {
    && s'.vars == s.vars && s'.tasks == s.tasks && s'.threads == s.threads
    && s'.pool == s.pool && s'.max == s.max && s'.workers == s.workers
  }

  lemma SameCoreQueue(s: State, s': State)
    requires SameCore(s, s') && QueueOk(s) && SlotsOk(s) && OrderOk(s) && LayersOk(s) && RunsOk(s)
    ensures QueueOk(s') && SlotsOk(s') && OrderOk(s') && LayersOk(s') && RunsOk(s')
  {
  }

  lemma SameCorePlaces(s: State, s': State)
    requires SameCore(s, s') && HandsOk(s) && PoolOk(s) && RunOk(s)
    ensures HandsOk(s') && PoolOk(s') && RunOk(s')
  {
  }

  lemma SameCoreKeeps(s: State, s': State)
    requires SameCore(s, s') && Core(s)
    ensures Core(s')
  {
    SameCoreQueue(s, s');
    SameCorePlaces(s, s');
  }

  lemma AdmitHeadFrame(s: State, t: nat)
    requires t < |s.threads| && s.threads[t].call.Dispatching?
    requires s.vars.queue != [] && s.vars.queue[0].id < |s.tasks| && s.tasks[s.vars.queue[0].id].phase.Queued?
    ensures PumpFrame(s.(stale := false), AdmitHead(s, t).(stale := false), t)
  {
  }

  lemma PumpFrameTrans(s: State, s1: State, s2: State, t: nat)
    requires PumpFrame(s, s1, t) && PumpFrame(s1, s2, t)
    ensures PumpFrame(s, s2, t)
  {
    forall i | 0 <= i < |s.tasks|
      ensures s2.tasks[i] == s.tasks[i] ||
              (s.tasks[i].phase.Queued? && s2.tasks[i] == s.tasks[i].(phase := Admitted(t)))
    {
      assert s1.tasks[i] == s.tasks[i] || s1.tasks[i] == s.tasks[i].(phase := Admitted(t));
    }
  }

  lemma {:induction false} PumpKeepsFrame(s: State, t: nat)
    requires MayPump(s, t)
    ensures PumpFrame(s, PumpState(s, t), t)
    decreases |s.vars.queue|
  {
    if !s.vars.Stuck(s.max) {
      assert s.vars.queue[0].id == Head(s);
      var s1 := AdmitHead(s, t);
      AdmitHeadKeeps(s, t);
      PumpKeepsFrame(s1, t);
      AdmitHeadFrame(s, t);
      PumpFrameTrans(s, s1.(stale := false), PumpState(s1, t), t);
    }
  }

  lemma IdsCons(e: Entry, es: seq<Entry>)
    ensures Ids([e] + es) == [e.id] + Ids(es)
  {
    assert ([e] + es)[1..] == es;
  }

  /**
   On the whole state the pump does to the gate's variables exactly what `Pump` does, and the
   pumping thread ends up holding exactly the admitted tasks, in submission order.
   */
  lemma {:induction false} PumpRefines(s: State, t: nat)
    requires t < |s.threads| && s.threads[t].call.Dispatching?
    requires forall j | 0 <= j < |s.vars.queue| :: s.vars.queue[j].id < |s.tasks|
    ensures var s' := PumpState(s, t);
            && s'.vars == Pump(s.vars, s.max).0
            && s'.vars.Stuck(s.max)
            && t < |s'.threads| && s'.threads[t].call.Dispatching?
            && s'.threads[t].call.hand == s.threads[t].call.hand + Ids(Pump(s.vars, s.max).1)
    decreases |s.vars.queue|
  {
    if !s.vars.Stuck(s.max) {
      var s1 := AdmitHead(s, t);
      PumpRefines(s1, t);
      IdsCons(s.vars.queue[0], Pump(s1.vars, s.max).1);
      assert s1.threads[t].call.hand == s.threads[t].call.hand + [s.vars.queue[0].id];
    }
  }

  // ---- the other steps keep the core invariant ----

  lemma {:induction false} HoldersAppend(tasks: seq<Task>, x: Task, kind: TaskKind)
    ensures Holders(tasks + [x], kind) == Holders(tasks, kind) + if x.kind == kind && x.phase.Holds() then 1 else 0
  {
    assert (tasks + [x])[..|tasks|] == tasks;
  }

  /** `Submit`'s critical section up to the pump. */
  function BeforeSubmitPump(s: State, t: nat): State
    requires Enabled(s, Enqueue(t))
  {
    var c := s.threads[t].call;
    SetCall(s.(tasks := s.tasks + [Task(c.kind, Queued, c.work, 0)],
               vars := s.vars.(queue := s.vars.queue + [Entry(|s.tasks|, c.kind)])), t, Dispatching([]))
  }

  lemma EnqueueQueue(s: State, t: nat)
    requires QueueOk(s) && OrderOk(s) && Enabled(s, Enqueue(t)) && !s.threads[t].call.kind.Direct?
    ensures var s' := BeforeSubmitPump(s, t); QueueOk(s') && OrderOk(s') && Head(s') == Head(s)
  {
  }

  lemma EnqueueSlots(s: State, t: nat)
    requires SlotsOk(s) && Enabled(s, Enqueue(t))
    ensures SlotsOk(BeforeSubmitPump(s, t))
  {
    var x := Task(s.threads[t].call.kind, Queued, s.threads[t].call.work, 0);
    HoldersAppend(s.tasks, x, Read);
    HoldersAppend(s.tasks, x, Write);
  }

  lemma EnqueuePlaces(s: State, t: nat)
    requires HandsOk(s) && PoolOk(s) && RunsOk(s) && Enabled(s, Enqueue(t))
    ensures var s' := BeforeSubmitPump(s, t); HandsOk(s') && PoolOk(s') && RunsOk(s')
  {
  }

  lemma EnqueueRun(s: State, t: nat)
    requires RunOk(s) && LayersOk(s) && Enabled(s, Enqueue(t))
    requires s.threads[t].run == NoTask || RunningOn(s, t)
    ensures var s' := BeforeSubmitPump(s, t);
            RunOk(s') && LayersOk(s') && (s'.threads[t].run == NoTask || RunningOn(s', t))
  {
  }

  lemma EnqueueCore(s: State, t: nat)
    requires Core(s) && Enabled(s, Enqueue(t)) && !s.threads[t].call.kind.Direct?
    requires s.threads[t].run == NoTask || RunningOn(s, t)
    ensures MayPump(BeforeSubmitPump(s, t), t)
  {
    EnqueueQueue(s, t);
    EnqueueSlots(s, t);
    EnqueuePlaces(s, t);
    EnqueueRun(s, t);
  }

  /** `s'` differs from `s` in the phase of holder `i`, and in the slot it gives back if it leaves. */
  ghost predicate Moved(s: State, i: nat, x: Task, s': State) {
    && i < |s.tasks| && s.tasks[i].phase.Holds() && !x.phase.Queued? && x.kind == s.tasks[i].kind
    && (x.phase.Holds() || x.phase.Gone())
    && s'.tasks == s.tasks[i := x] && s'.vars.queue == s.vars.queue && s'.max == s.max
    && s'.vars.slots == if x.phase.Holds() then s.vars.slots else s.vars.slots.Return(x.kind)
  }

  lemma MoveQueue(s: State, i: nat, x: Task, s': State)
    requires QueueOk(s) && OrderOk(s) && Moved(s, i, x, s')
    ensures QueueOk(s') && OrderOk(s') && Head(s') == Head(s)
  {
  }

  lemma MoveSlots(s: State, i: nat, x: Task, s': State)
    requires SlotsOk(s) && Moved(s, i, x, s') && !x.kind.Direct?
    ensures SlotsOk(s')
    ensures !x.phase.Holds() && x.kind.Read? ==> s.vars.slots.readers > 0
    ensures !x.phase.Holds() && x.kind.Write? ==> s.vars.slots.writer
  {
    HoldersUpdate(s.tasks, i, x, Read);
    HoldersUpdate(s.tasks, i, x, Write);
    HolderCounted(s.tasks, i, x.kind);
  }

  /** A phase change among holders, or a slot given back: queue, order and counters. */
  lemma MoveCore(s: State, i: nat, x: Task, s': State)
    requires Core(s) && Moved(s, i, x, s')
    ensures QueueOk(s') && SlotsOk(s') && OrderOk(s') && Head(s') == Head(s)
  {
    MoveQueue(s, i, x, s');
    MoveSlots(s, i, x, s');
  }

  lemma PoolAcceptCore(s: State, t: nat)
    requires Core(s) && Enabled(s, PoolAccept(t))
    ensures Core(Apply(s, PoolAccept(t)))
  {
    var s' := Apply(s, PoolAccept(t));
    var i := s.threads[t].call.hand[0];
    assert s.tasks[i].phase == Admitted(t);
    MoveCore(s, i, s.tasks[i].(phase := InPool), s');
    HandShrinks(s, t, s');
    PoolAcceptPlaces(s, t);
    HandStepRun(s, t, s');
    HandStepLayers(s, t, s');
  }

  lemma PoolAcceptPlaces(s: State, t: nat)
    requires PoolOk(s) && Enabled(s, PoolAccept(t)) && s.tasks[s.threads[t].call.hand[0]].phase.Admitted?
    ensures PoolOk(Apply(s, PoolAccept(t)))
  {
    var s' := Apply(s, PoolAccept(t));
    var i := s.threads[t].call.hand[0];
    assert s'.pool[|s.pool|] == i;
    forall k | 0 <= k < |s'.tasks| && s'.tasks[k].phase.InPool?
      ensures k in s'.pool
    {
      if k != i {
        assert k in s.pool;
      }
    }
  }

  /** A thread in its dispatch loop moves an admitted task out of its hand. */
  ghost predicate HandStep(s: State, t: nat, s': State) {
    && HasHand(s, t) && s.tasks[s.threads[t].call.hand[0]].phase.Admitted?
    && var i := s.threads[t].call.hand[0];
       && |s'.tasks| == |s.tasks| && s'.tasks == s.tasks[i := s'.tasks[i]]
       && (s'.tasks[i].phase.InPool? || s'.tasks[i].phase.Dropped?) && s'.tasks[i].runs == s.tasks[i].runs
       && s'.threads == s.threads[t := s.threads[t].(call := Dispatching(s.threads[t].call.hand[1..]))]
       && s'.workers == s.workers && s'.vars.queue == s.vars.queue
  }

  lemma HandStepRun(s: State, t: nat, s': State)
    requires RunOk(s) && HandStep(s, t, s')
    ensures RunOk(s')
  {
  }

  lemma HandStepLayers(s: State, t: nat, s': State)
    requires LayersOk(s) && RunsOk(s) && HandStep(s, t, s')
    ensures LayersOk(s') && RunsOk(s')
  {
  }

  /** The dispatch loop takes its first task out of the hand. */
  lemma HandShrinksHeld(s: State, t: nat, s': State)
    requires HandsOk(s) && HasHand(s, t)
    requires |s'.tasks| == |s.tasks| && !s'.tasks[s.threads[t].call.hand[0]].phase.Admitted?
    requires forall k | 0 <= k < |s.tasks| && k != s.threads[t].call.hand[0] :: s'.tasks[k] == s.tasks[k]
    requires s'.threads == s.threads[t := s.threads[t].(call := Dispatching(s.threads[t].call.hand[1..]))]
    ensures AdmittedHeld(s')
  {
    var hand := s.threads[t].call.hand;
    assert s.tasks[hand[0]].phase == Admitted(t);
    forall i | 0 <= i < |s'.tasks| && s'.tasks[i].phase.Admitted?
      ensures s'.tasks[i].phase.thread < |s'.threads|
      ensures s'.threads[s'.tasks[i].phase.thread].call.Dispatching?
      ensures i in s'.threads[s'.tasks[i].phase.thread].call.hand
    {
      assert i in s.threads[s.tasks[i].phase.thread].call.hand;
      if s.tasks[i].phase.thread == t {
        var j :| 0 <= j < |hand| && hand[j] == i;
        assert hand[1..][j - 1] == i;
      }
    }
  }

  lemma HandShrinksHolds(s: State, t: nat, s': State)
    requires HandsHold(s) && HasHand(s, t)
    requires |s'.tasks| == |s.tasks| && !s'.tasks[s.threads[t].call.hand[0]].phase.Admitted?
    requires forall k | 0 <= k < |s.tasks| && k != s.threads[t].call.hand[0] :: s'.tasks[k] == s.tasks[k]
    requires s'.threads == s.threads[t := s.threads[t].(call := Dispatching(s.threads[t].call.hand[1..]))]
    ensures HandsHold(s')
  {
  }

  lemma HandShrinks(s: State, t: nat, s': State)
    requires HandsOk(s) && HasHand(s, t)
    requires |s'.tasks| == |s.tasks| && !s'.tasks[s.threads[t].call.hand[0]].phase.Admitted?
    requires forall k | 0 <= k < |s.tasks| && k != s.threads[t].call.hand[0] :: s'.tasks[k] == s.tasks[k]
    requires s'.threads == s.threads[t := s.threads[t].(call := Dispatching(s.threads[t].call.hand[1..]))]
    ensures HandsOk(s')
  {
    HandShrinksHolds(s, t, s');
    HandShrinksHeld(s, t, s');
  }

  lemma PoolRefuseCore(s: State, t: nat)
    requires Core(s) && Enabled(s, PoolRefuse(t))
    ensures Core(Apply(s, PoolRefuse(t)))
  {
    var s' := Apply(s, PoolRefuse(t));
    var i := s.threads[t].call.hand[0];
    assert s.tasks[i].phase == Admitted(t);
    MoveCore(s, i, s.tasks[i].(phase := Dropped), s');
    HandShrinks(s, t, s');
    PoolRefusePlaces(s, t);
    HandStepRun(s, t, s');
    HandStepLayers(s, t, s');
  }

  lemma PoolRefusePlaces(s: State, t: nat)
    requires PoolOk(s) && Enabled(s, PoolRefuse(t)) && s.tasks[s.threads[t].call.hand[0]].phase.Admitted?
    ensures PoolOk(Apply(s, PoolRefuse(t)))
  {
  }

  lemma WorkerTakeCore(s: State, t: nat)
    requires Core(s) && Enabled(s, WorkerTake(t))
    ensures Core(Apply(s, WorkerTake(t)))
  {
    var s' := Apply(s, WorkerTake(t));
    var i := s.pool[0];
    MoveCore(s, i, s'.tasks[i], s');
    WorkerTakeHands(s, t);
    WorkerTakePool(s, t);
    WorkerTakeRun(s, t);
    WorkerTakeLayers(s, t);
  }

  lemma WorkerTakeHands(s: State, t: nat)
    requires HandsOk(s) && PoolOk(s) && RunsOk(s) && Enabled(s, WorkerTake(t))
    ensures HandsOk(Apply(s, WorkerTake(t))) && RunsOk(Apply(s, WorkerTake(t)))
  {
    assert s.tasks[s.pool[0]].phase.InPool?;
  }

  lemma WorkerTakePool(s: State, t: nat)
    requires PoolOk(s) && Enabled(s, WorkerTake(t))
    ensures PoolOk(Apply(s, WorkerTake(t)))
  {
    var s' := Apply(s, WorkerTake(t));
    forall k | 0 <= k < |s'.tasks| && s'.tasks[k].phase.InPool?
      ensures k in s'.pool
    {
      assert k in s.pool && k != s.pool[0];
      var j :| 0 <= j < |s.pool| && s.pool[j] == k;
      assert s'.pool[j - 1] == k;
    }
  }

  lemma WorkerTakeRun(s: State, t: nat)
    requires PoolOk(s) && RunOk(s) && Enabled(s, WorkerTake(t))
    ensures RunOk(Apply(s, WorkerTake(t)))
  {
    assert s.tasks[s.pool[0]].phase.InPool?;
  }

  lemma WorkerTakeLayers(s: State, t: nat)
    requires LayersOk(s) && Enabled(s, WorkerTake(t))
    ensures LayersOk(Apply(s, WorkerTake(t)))
  {
  }

  /** Steps that only move the task running on `t` between its own phases. */
  predicate BodyStep(step: Step) {
    step.InlineStart? || step.InlineReturn? || step.BodyReturn? || step.BodyThrow?
  }

  /** All they do is to change task i, which runs on t, into x, which runs there or has returned. */
  ghost predicate BodyMove(s: State, t: nat, i: nat, x: Task) {
    && ThreadOk(s, t) && s.threads[t].run == i < |s.tasks| && s.threads[t].call.NoCall?
    && s.tasks[i].phase.Running? && x.kind == s.tasks[i].kind && x.runs == s.tasks[i].runs
    && (x.phase.Running? || x.phase.Returned?) && x.phase.on == t
  }

  lemma BodyStepMoves(s: State, step: Step)
    requires Enabled(s, step) && BodyStep(step)
    ensures var i := TaskOf(s, step.t);
            var s' := Apply(s, step);
            && |s'.tasks| == |s.tasks| && i < |s.tasks| && BodyMove(s, step.t, i, s'.tasks[i])
            && s' == s.(tasks := s.tasks[i := s'.tasks[i]])
  {
  }

  lemma BodyCore(s: State, step: Step)
    requires Core(s) && Enabled(s, step) && BodyStep(step)
    ensures Core(Apply(s, step))
  {
    var i := TaskOf(s, step.t);
    var x := Apply(s, step).tasks[i];
    BodyStepMoves(s, step);
    MoveCore(s, i, x, s.(tasks := s.tasks[i := x]));
    BodyHands(s, step.t, i, x);
    BodyPool(s, step.t, i, x);
    BodyRun(s, step.t, i, x);
    BodyLayers(s, step);
  }

  lemma BodyHands(s: State, t: nat, i: nat, x: Task)
    requires HandsOk(s) && BodyMove(s, t, i, x)
    ensures HandsOk(s.(tasks := s.tasks[i := x]))
  {
  }

  lemma BodyPool(s: State, t: nat, i: nat, x: Task)
    requires PoolOk(s) && RunsOk(s) && BodyMove(s, t, i, x)
    ensures PoolOk(s.(tasks := s.tasks[i := x])) && RunsOk(s.(tasks := s.tasks[i := x]))
  {
  }

  lemma BodyRun(s: State, t: nat, i: nat, x: Task)
    requires RunOk(s) && BodyMove(s, t, i, x)
    ensures RunOk(s.(tasks := s.tasks[i := x]))
  {
  }

  lemma BodyLayers(s: State, step: Step)
    requires LayersOk(s) && Enabled(s, step) && BodyStep(step)
    ensures LayersOk(Apply(s, step))
  {
    var s' := Apply(s, step);
    var i := TaskOf(s, step.t);
    var layers := s.tasks[i].phase.layers;
    if step.InlineStart? {
      assert forall l | l in s'.tasks[i].phase.layers :: l in layers || l == Layer(step.kind, |s.tasks|);
    } else if step.InlineReturn? {
      assert forall l | l in s'.tasks[i].phase.layers :: l in layers;
    }
  }

  /** `OnTaskExit` up to the pump. */
  function BeforeExitPump(s: State, t: nat): State
    requires Enabled(s, TaskExit(t))
  {
    var i := TaskOf(s, t);
    SetCall(SetRun(SetPhase(s, i, Exited), t, NoTask), t, Dispatching([]))
      .(vars := s.vars.GiveBack(s.tasks[i].kind))
  }

  lemma TaskExitCore(s: State, t: nat)
    requires Core(s) && Enabled(s, TaskExit(t))
    ensures MayPump(BeforeExitPump(s, t), t)
  {
    var s' := BeforeExitPump(s, t);
    var i := TaskOf(s, t);
    MoveCore(s, i, s'.tasks[i], s');
    TaskExitPlaces(s, t);
    TaskExitRun(s, t);
    TaskExitLayers(s, t);
  }

  lemma TaskExitPlaces(s: State, t: nat)
    requires HandsOk(s) && PoolOk(s) && Enabled(s, TaskExit(t))
    ensures var s' := BeforeExitPump(s, t); HandsOk(s') && PoolOk(s')
  {
  }

  lemma TaskExitRun(s: State, t: nat)
    requires RunOk(s) && Enabled(s, TaskExit(t))
    ensures RunOk(BeforeExitPump(s, t))
  {
  }

  lemma TaskExitLayers(s: State, t: nat)
    requires LayersOk(s) && RunsOk(s) && Enabled(s, TaskExit(t))
    ensures LayersOk(BeforeExitPump(s, t)) && RunsOk(BeforeExitPump(s, t))
  {
  }

  // ---- the whole invariant ----

  ghost predicate CallsOk(s: State) {
    forall t | 0 <= t < |s.threads| && s.threads[t].call.Submitting? :: !s.threads[t].call.kind.Direct?
  }

  /** Unless a refused hand-off gave a slot back since the last pump, the pump has nothing to do. */
  ghost predicate HeadOk(s: State) {
    s.stale || s.vars.Stuck(s.max)
  }

  /** Nobody sleeps in `Drain` while the gate is idle. */
  ghost predicate DrainOk(s: State) {
    && s.sleeping !! s.woken
    && s.drainWaiters == |s.sleeping| + |s.woken|
    && (s.vars.Idle() ==> s.sleeping == {})
  }

  ghost predicate StopOk(s: State) {
    && (s.closed <==> s.stop != Open)
    && (s.mode == if s.stop == StoppingPool then Stopping else if s.stop == Stopped then Down else Up)
    && (s.stale || SomeDropped(s) ==> s.mode != Up)
  }

  ghost predicate SomeDropped(s: State) {
    exists i | 0 <= i < |s.tasks| :: s.tasks[i].phase.Dropped?
  }

  /**
   From a clean closing on: while the drain goes on no submission can be bypassed, and once it is over
   no thread is inside `Submit` and every task has exited.
   */
  ghost predicate CleanOk(s: State) {
    s.closed && s.clean ==> if s.stop == Closed then NoneBypassable(s) else NobodySubmits(s) && AllExited(s)
  }

  ghost predicate NoneBypassable(s: State) {
    forall t | 0 <= t < |s.threads| :: !Bypassable(s, t)
  }

  ghost predicate NobodySubmits(s: State) {
    forall t | 0 <= t < |s.threads| :: !s.threads[t].call.Submitting?
  }

  ghost predicate AllExited(s: State) {
    s.vars.queue == [] && forall i | 0 <= i < |s.tasks| :: s.tasks[i].phase.Exited?
  }

  ghost predicate Inv(s: State) {
    Core(s) && CallsOk(s) && HeadOk(s) && DrainOk(s) && StopOk(s) && CleanOk(s)
  }

  lemma InitInv(s: State)
    requires Init(s)
    ensures Inv(s)
  {
  }

  lemma EnqueueStep(s: State, t: nat)
    requires Core(s) && CallsOk(s) && Enabled(s, Enqueue(t))
    ensures MayPump(BeforeSubmitPump(s, t), t)
    ensures Apply(s, Enqueue(t)) == PumpState(BeforeSubmitPump(s, t), t)
    ensures Core(Apply(s, Enqueue(t)))
  {
    EnqueueCore(s, t);
    PumpKeepsCore(BeforeSubmitPump(s, t), t);
  }

  lemma TaskExitStep(s: State, t: nat)
    requires Core(s) && Enabled(s, TaskExit(t))
    ensures MayPump(BeforeExitPump(s, t), t)
    ensures Apply(s, TaskExit(t)) == NotifyDrain(PumpState(BeforeExitPump(s, t), t))
    ensures Core(Apply(s, TaskExit(t)))
  {
    TaskExitCore(s, t);
    TaskExitPumps(s, t);
    PumpAndNotify(BeforeExitPump(s, t), t);
  }

  lemma TaskExitPumps(s: State, t: nat)
    requires Enabled(s, TaskExit(t))
    ensures Apply(s, TaskExit(t)) == NotifyDrain(PumpState(BeforeExitPump(s, t), t))
  {
  }

  lemma PumpAndNotify(b: State, t: nat)
    requires MayPump(b, t)
    ensures Core(NotifyDrain(PumpState(b, t)))
  {
    PumpKeepsCore(b, t);
    NotifySameCore(PumpState(b, t));
    SameCoreKeeps(PumpState(b, t), NotifyDrain(PumpState(b, t)));
  }

  lemma NotifySameCore(s: State)
    ensures SameCore(s, NotifyDrain(s))
  {
  }

  predicate CallStep(step: Step) {
    step.CheckOpen? || step.CheckRunning? || step.Refuse? || step.DispatchDone?
  }

  lemma CallStepCore(s: State, step: Step)
    requires Core(s) && Enabled(s, step) && CallStep(step)
    ensures Core(Apply(s, step))
  {
    CallCore(s, step.t, Apply(s, step).threads[step.t].call);
  }

  predicate OutsideStep(step: Step) {
    || step.DrainEnter? || step.DrainSpurious? || step.DrainRecheck?
    || step.StopClose? || step.StopDrained? || step.StopPool? || step.StopJoined?
  }

  lemma OutsideSame(s: State, step: Step)
    requires Enabled(s, step) && OutsideStep(step)
    ensures SameCore(s, Apply(s, step))
  {
  }

  lemma StepCore(s: State, step: Step)
    requires Core(s) && CallsOk(s) && Enabled(s, step)
    ensures Core(Apply(s, step))
  {
    if step.Enqueue? {
      EnqueueStep(s, step.t);
    } else if step.TaskExit? {
      TaskExitStep(s, step.t);
    } else if step.PoolAccept? {
      PoolAcceptCore(s, step.t);
    } else if step.PoolRefuse? {
      PoolRefuseCore(s, step.t);
    } else if step.WorkerTake? {
      WorkerTakeCore(s, step.t);
    } else if BodyStep(step) {
      BodyCore(s, step);
    } else if CallStep(step) {
      CallStepCore(s, step);
    } else {
      OutsideSame(s, step);
      SameCoreKeeps(s, Apply(s, step));
    }
  }

  /** A thread outside the dispatch loop, or at its end, moves inside `Submit`. */
  lemma CallCore(s: State, t: nat, c: Call)
    requires Core(s) && ThreadOk(s, t) && !c.Dispatching?
    requires s.threads[t].call.Dispatching? ==> s.threads[t].call.hand == []
    requires c.NoCall? || s.threads[t].run == NoTask || RunningOn(s, t)
    ensures Core(SetCall(s, t, c))
  {
    var s' := SetCall(s, t, c);
    CallQueue(s, s');
    CallHands(s, t, c);
    CallRun(s, t, c);
  }

  lemma CallQueue(s: State, s': State)
    requires s'.tasks == s.tasks && s'.vars == s.vars && s'.max == s.max && s'.pool == s.pool
    requires QueueOk(s) && SlotsOk(s) && OrderOk(s) && LayersOk(s) && RunsOk(s) && PoolOk(s)
    ensures QueueOk(s') && SlotsOk(s') && OrderOk(s') && LayersOk(s') && RunsOk(s') && PoolOk(s')
  {
  }

  lemma CallHands(s: State, t: nat, c: Call)
    requires HandsOk(s) && ThreadOk(s, t) && !c.Dispatching?
    requires s.threads[t].call.Dispatching? ==> s.threads[t].call.hand == []
    ensures HandsOk(SetCall(s, t, c))
  {
  }

  lemma CallRun(s: State, t: nat, c: Call)
    requires RunOk(s) && ThreadOk(s, t)
    requires c.NoCall? || s.threads[t].run == NoTask || RunningOn(s, t)
    ensures RunOk(SetCall(s, t, c))
  {
  }

  lemma {:induction false} PumpNotIdle(g: GateVars, max: nat)
    requires !g.Idle()
    ensures !Pump(g, max).0.Idle()
    decreases |g.queue|
  {
    if !g.Stuck(max) {
      PumpNotIdle(g.AdmitHead(), max);
    }
  }

  /** What `Submit`'s critical section does to everything but tasks and threads. */
  lemma EnqueueVars(s: State, t: nat)
    requires Core(s) && CallsOk(s) && Enabled(s, Enqueue(t))
    ensures var s' := Apply(s, Enqueue(t));
            && s'.vars.Stuck(s.max) && !s'.vars.Idle()
            && s' == s.(vars := s'.vars, tasks := s'.tasks, threads := s'.threads, stale := false)
  {
    EnqueueStep(s, t);
    var b := BeforeSubmitPump(s, t);
    PumpRefines(b, t);
    PumpKeepsFrame(b, t);
    PumpNotIdle(b.vars, s.max);
  }

  /** The same for `OnTaskExit`. */
  lemma TaskExitVars(s: State, t: nat)
    requires Core(s) && Enabled(s, TaskExit(t))
    ensures var s' := Apply(s, TaskExit(t));
            && s'.vars.Stuck(s.max)
            && s' == NotifyDrain(s.(vars := s'.vars, tasks := s'.tasks, threads := s'.threads, stale := false))
  {
    TaskExitStep(s, t);
    var b := BeforeExitPump(s, t);
    PumpRefines(b, t);
    PumpKeepsFrame(b, t);
  }

  /** What the pumping steps leave alone. */
  lemma PumpSteps(s: State, step: Step)
    requires Core(s) && CallsOk(s) && Enabled(s, step) && (step.Enqueue? || step.TaskExit?)
    ensures var s' := Apply(s, step);
            && s'.vars.Stuck(s.max) && s'.max == s.max && s'.workers == s.workers && !s'.stale
            && s'.stop == s.stop && s'.mode == s.mode && s'.closed == s.closed && s'.clean == s.clean
  {
    if step.Enqueue? {
      EnqueueVars(s, step.t);
    } else {
      TaskExitVars(s, step.t);
    }
  }

  lemma StepHead(s: State, step: Step)
    requires Core(s) && CallsOk(s) && HeadOk(s) && Enabled(s, step)
    ensures HeadOk(Apply(s, step))
  {
    if step.Enqueue? || step.TaskExit? {
      PumpSteps(s, step);
    }
  }

  /** After a notification nobody sleeps, so it does not matter whether the gate is idle. */
  lemma NotifyDrains(s: State)
    requires s.sleeping !! s.woken && s.drainWaiters == |s.sleeping| + |s.woken|
    ensures DrainOk(NotifyDrain(s))
  {
    assert |s.woken + s.sleeping| == |s.woken| + |s.sleeping|;
  }

  lemma WaitersDrain(s: State, step: Step)
    requires DrainOk(s) && Enabled(s, step) && OutsideStep(step)
    ensures DrainOk(Apply(s, step))
  {
  }

  lemma RefuseDrains(s: State, t: nat)
    requires DrainOk(s) && Enabled(s, PoolRefuse(t))
    ensures DrainOk(Apply(s, PoolRefuse(t)))
  {
    var hand := s.threads[t].call.hand;
    var s1 := SetCall(SetPhase(s, hand[0], Dropped), t, Dispatching(hand[1..]));
    NotifyDrains(s1.(vars := s.vars.GiveBack(s.tasks[hand[0]].kind), stale := true));
  }

  lemma OtherDrain(s: State, step: Step)
    requires Enabled(s, step) && !(step.Enqueue? || step.TaskExit? || step.PoolRefuse? || OutsideStep(step))
    ensures var s' := Apply(s, step);
            s'.vars == s.vars && s'.sleeping == s.sleeping && s'.woken == s.woken && s'.drainWaiters == s.drainWaiters
  {
  }

  lemma StepDrain(s: State, step: Step)
    requires Core(s) && CallsOk(s) && DrainOk(s) && Enabled(s, step)
    ensures DrainOk(Apply(s, step))
  {
    if step.Enqueue? {
      EnqueueVars(s, step.t);
    } else if step.TaskExit? {
      TaskExitDrains(s, step.t);
    } else if step.PoolRefuse? {
      RefuseDrains(s, step.t);
    } else if OutsideStep(step) {
      WaitersDrain(s, step);
    } else {
      OtherDrain(s, step);
    }
  }

  lemma TaskExitDrains(s: State, t: nat)
    requires Core(s) && DrainOk(s) && Enabled(s, TaskExit(t))
    ensures DrainOk(Apply(s, TaskExit(t)))
  {
    TaskExitVars(s, t);
    var s' := Apply(s, TaskExit(t));
    NotifyDrains(s.(vars := s'.vars, tasks := s'.tasks, threads := s'.threads, stale := false));
  }

  /** Tasks are dropped, and the head left unpumped, only once the pool refuses. */
  lemma StepDropped(s: State, step: Step)
    requires Core(s) && CallsOk(s) && StopOk(s) && Enabled(s, step)
    ensures var s' := Apply(s, step);
            s'.stale || SomeDropped(s') ==> s'.mode != Up
  {
    var s' := Apply(s, step);
    if step.Enqueue? || step.TaskExit? {
      PumpSteps(s, step);
      PumpStepTasks(s, step);
    } else if step.PoolRefuse? {
    } else {
      OtherDropped(s, step);
    }
  }

  lemma OtherDropped(s: State, step: Step)
    requires Enabled(s, step) && !(step.Enqueue? || step.TaskExit? || step.PoolRefuse?)
    ensures var s' := Apply(s, step);
            && |s'.tasks| == |s.tasks| && s'.stale == s.stale && (s.mode != Up ==> s'.mode != Up)
            && forall i | 0 <= i < |s'.tasks| && s'.tasks[i].phase.Dropped? :: s.tasks[i].phase.Dropped?
  {
    if BodyStep(step) {
      BodyStepMoves(s, step);
    } else if CallStep(step) {
      CallSameTasks(s, step);
    }
  }

  lemma CallSameTasks(s: State, step: Step)
    requires Enabled(s, step) && CallStep(step)
    ensures var s' := Apply(s, step);
            s' == s.(threads := s.threads[step.t := s.threads[step.t].(call := s'.threads[step.t].call)])
  {
  }

  /** The pumping steps touch the phases of the exiting task and of queued tasks only. */
  ghost predicate GoneOnlyByExit(s: State, s': State) {
    && |s.tasks| <= |s'.tasks|
    && forall i | 0 <= i < |s'.tasks| && s'.tasks[i].phase.Gone() ::
         i < |s.tasks| && (s'.tasks[i].phase == s.tasks[i].phase || s'.tasks[i].phase.Exited?)
  }

  ghost predicate OthersKept(s: State, s': State, t: nat) {
    && t < |s.threads| == |s'.threads| && s'.threads[t].call.Dispatching?
    && forall u | 0 <= u < |s.threads| && u != t :: s'.threads[u] == s.threads[u]
  }

  lemma PumpedGone(s: State, b: State, s': State, t: nat)
    requires PumpFrame(b, s', t) && GoneOnlyByExit(s, b)
    ensures GoneOnlyByExit(s, s')
  {
  }

  lemma BeforePumpGone(s: State, step: Step)
    requires Enabled(s, step) && (step.Enqueue? || step.TaskExit?)
    ensures GoneOnlyByExit(s, BeforePump(s, step))
  {
  }

  lemma PumpStepTasks(s: State, step: Step)
    requires Core(s) && CallsOk(s) && Enabled(s, step) && (step.Enqueue? || step.TaskExit?)
    ensures GoneOnlyByExit(s, Apply(s, step))
  {
    BeforePumpGone(s, step);
    PumpStepFrame(s, step);
    PumpedGone(s, BeforePump(s, step), PumpState(BeforePump(s, step), step.t), step.t);
  }

  /** The state in which a pumping step starts its pump. */
  function BeforePump(s: State, step: Step): State
    requires Enabled(s, step) && (step.Enqueue? || step.TaskExit?)
  {
    if step.Enqueue? then BeforeSubmitPump(s, step.t) else BeforeExitPump(s, step.t)
  }

  lemma PumpStepFrame(s: State, step: Step)
    requires Core(s) && CallsOk(s) && Enabled(s, step) && (step.Enqueue? || step.TaskExit?)
    ensures var b := BeforePump(s, step);
            && PumpFrame(b, PumpState(b, step.t), step.t)
            && Apply(s, step).tasks == PumpState(b, step.t).tasks
            && Apply(s, step).threads == PumpState(b, step.t).threads
  {
    if step.Enqueue? {
      EnqueueStep(s, step.t);
    } else {
      TaskExitStep(s, step.t);
    }
    PumpKeepsFrame(BeforePump(s, step), step.t);
  }

  lemma PumpedOthers(s: State, b: State, e: State, s': State, t: nat)
    requires PumpFrame(b, e, t) && OthersKept(s, b, t) && s'.threads == e.threads
    ensures OthersKept(s, s', t)
  {
  }

  lemma BeforePumpOthers(s: State, step: Step)
    requires Enabled(s, step) && (step.Enqueue? || step.TaskExit?)
    ensures OthersKept(s, BeforePump(s, step), step.t)
  {
  }

  lemma PumpStepThreads(s: State, step: Step)
    requires Core(s) && CallsOk(s) && Enabled(s, step) && (step.Enqueue? || step.TaskExit?)
    ensures OthersKept(s, Apply(s, step), step.t)
  {
    BeforePumpOthers(s, step);
    PumpStepFrame(s, step);
    PumpedOthers(s, BeforePump(s, step), PumpState(BeforePump(s, step), step.t), Apply(s, step), step.t);
  }

  lemma StepCalls(s: State, step: Step)
    requires Core(s) && CallsOk(s) && Enabled(s, step)
    ensures CallsOk(Apply(s, step))
  {
    if step.Enqueue? || step.TaskExit? {
      PumpStepThreads(s, step);
    } else if CallStep(step) {
      CallStepCalls(s, step);
    } else if OutsideStep(step) {
      OutsideSame(s, step);
    } else {
      OtherCalls(s, step);
    }
  }

  lemma CallStepCalls(s: State, step: Step)
    requires CallsOk(s) && Enabled(s, step) && CallStep(step)
    ensures CallsOk(Apply(s, step))
  {
  }

  /** The steps outside `Submit` neither begin nor end a submission. */
  lemma OtherCalls(s: State, step: Step)
    requires Enabled(s, step) && !(step.Enqueue? || step.TaskExit? || CallStep(step) || OutsideStep(step))
    ensures var s' := Apply(s, step);
            && |s'.threads| == |s.threads|
            && forall t | 0 <= t < |s'.threads| && s'.threads[t].call.Submitting? ::
                 s'.threads[t].call == s.threads[t].call && s'.threads[t].run == s.threads[t].run
  {
    if BodyStep(step) {
      BodyStepMoves(s, step);
    } else {
      HandSteps(s, step);
    }
  }

  lemma HandSteps(s: State, step: Step)
    requires Enabled(s, step) && (step.PoolAccept? || step.PoolRefuse? || step.WorkerTake?)
    ensures var s' := Apply(s, step);
            && step.t < |s'.threads| && !s'.threads[step.t].call.Submitting?
            && s'.threads == s.threads[step.t := s'.threads[step.t]]
  {
  }

  /** Which fields of the stop sequence a step changes. */
  lemma StopFields(s: State, step: Step)
    requires Core(s) && CallsOk(s) && Enabled(s, step)
    ensures var s' := Apply(s, step);
            && s'.workers == s.workers && (step.StopClose? || (s'.closed == s.closed && s'.clean == s.clean))
            && (SameStop(s, s') || step.StopClose? || step.StopDrained? ||
                (Stops(step) && s.stop != Closed && s'.stop != Closed))
  {
    if step.Enqueue? || step.TaskExit? {
      PumpSteps(s, step);
    } else {
      PlainStopFields(s, step);
    }
  }

  /** The fields the stop sequence is about are the same. */
  predicate SameStop(s: State, s': State) {
    s'.workers == s.workers && s'.closed == s.closed && s'.clean == s.clean && s'.stop == s.stop && s'.mode == s.mode
  }

  predicate Stops(step: Step) {
    step.StopClose? || step.StopDrained? || step.StopPool? || step.StopJoined?
  }

  lemma PlainStopFields(s: State, step: Step)
    requires Enabled(s, step) && !step.Enqueue? && !step.TaskExit?
    ensures var s' := Apply(s, step);
            && s'.workers == s.workers && (step.StopClose? || (s'.closed == s.closed && s'.clean == s.clean))
            && (SameStop(s, s') || step.StopClose? || step.StopDrained? ||
                (Stops(step) && s.stop != Closed && s'.stop != Closed))
  {
    if BodyStep(step) {
      BodyStepMoves(s, step);
    } else if CallStep(step) {
      CallSameTasks(s, step);
    } else if !OutsideStep(step) {
      HandStopFields(s, step);
    }
  }

  lemma HandStopFields(s: State, step: Step)
    requires Enabled(s, step) && (step.PoolAccept? || step.PoolRefuse? || step.WorkerTake?)
    ensures SameStop(s, Apply(s, step))
  {
  }

  lemma StepStop(s: State, step: Step)
    requires Core(s) && CallsOk(s) && StopOk(s) && Enabled(s, step)
    ensures StopOk(Apply(s, step))
  {
    if Stops(step) {
      StopStepOk(s, step);
    } else {
      StepDropped(s, step);
      StopFields(s, step);
    }
  }

  lemma StopStepOk(s: State, step: Step)
    requires StopOk(s) && Enabled(s, step) && Stops(step)
    ensures StopOk(Apply(s, step))
  {
  }

  // ---- a clean closing ----

  /** An idle gate with a pool that refuses nothing has finished every task it accepted. */
  lemma IdleMeansAllExited(s: State)
    requires Core(s) && StopOk(s) && s.mode == Up && s.vars.Idle()
    ensures AllExited(s)
  {
    NoHolder(s.tasks, Read);
    NoHolder(s.tasks, Write);
    assert Head(s) == |s.tasks|;
    forall i | 0 <= i < |s.tasks|
      ensures s.tasks[i].phase.Exited?
    {
      assert !s.tasks[i].phase.Queued? && !s.tasks[i].phase.Holds() && !s.tasks[i].phase.Dropped?;
    }
  }

  /** A submitter inside a gate task keeps the gate from being idle; others are bypassed by an idle one. */
  lemma IdleBypassesAll(s: State)
    requires Core(s) && s.vars.Idle() && NoneBypassable(s)
    ensures NobodySubmits(s)
  {
    NoHolder(s.tasks, Read);
    NoHolder(s.tasks, Write);
    forall t | 0 <= t < |s.threads|
      ensures !s.threads[t].call.Submitting?
    {
      assert !Bypassable(s, t);
      if s.threads[t].run != NoTask {
        assert s.tasks[s.threads[t].run].phase.Holds();
      }
    }
  }

  /** A step of the drain: a submission that cannot be bypassed still cannot. */
  lemma DrainingStaysClean(s: State, step: Step)
    requires Core(s) && CallsOk(s) && StopOk(s) && Enabled(s, step) && s.stop == Closed && s.closed && NoneBypassable(s)
    requires !step.StopDrained?
    ensures NoneBypassable(Apply(s, step))
  {
    var s' := Apply(s, step);
    StopFields(s, step);
    forall t | 0 <= t < |s'.threads| && s'.threads[t].call.Submitting? && s'.threads[t].run == NoTask
      ensures !Bypassable(s', t)
    {
      SubmitterWasThere(s, step, t);
      assert !Bypassable(s, t);
      StaysBusy(s, step, t);
    }
  }

  /** After the closing nobody begins a submission. */
  lemma SubmitterWasThere(s: State, step: Step, t: nat)
    requires Core(s) && CallsOk(s) && Enabled(s, step) && s.closed
    requires t < |Apply(s, step).threads| && Apply(s, step).threads[t].call.Submitting?
    ensures t < |s.threads| && s.threads[t].call.Submitting? && s.threads[t].run == Apply(s, step).threads[t].run
  {
    if step.Enqueue? || step.TaskExit? {
      PumpStepThreads(s, step);
    } else if CallStep(step) {
      CallSameTasks(s, step);
    } else if OutsideStep(step) {
      OutsideSame(s, step);
    } else {
      OtherCalls(s, step);
    }
  }

  /** With its only worker inside a submission the gate does not become idle. */
  lemma StaysBusy(s: State, step: Step, t: nat)
    requires Core(s) && CallsOk(s) && StopOk(s) && Enabled(s, step) && s.stop == Closed
    requires t < |s.threads| && s.threads[t].call.Submitting? && s.threads[t].run == NoTask
    requires !s.vars.Idle() && !OtherWorker(s, t)
    ensures !Apply(s, step).vars.Idle()
  {
    if step.Enqueue? {
      EnqueueVars(s, step.t);
    } else if step.TaskExit? {
      NoOtherWorkerRuns(s, t, step.t);
    }
  }

  lemma NoOtherWorkerRuns(s: State, t: nat, u: nat)
    requires RunOk(s) && Enabled(s, TaskExit(u)) && ThreadOk(s, t) && s.threads[t].run == NoTask
    ensures OtherWorker(s, t)
  {
    var i := s.threads[u].run;
    assert s.tasks[i].phase.on == u < s.workers && u != t;
  }

  /** Where every task has exited and nobody is inside `Submit`, nothing changes any more. */
  lemma FinishedStays(s: State, step: Step)
    requires Core(s) && CallsOk(s) && s.closed && NobodySubmits(s) && AllExited(s) && Enabled(s, step)
    ensures AllExited(Apply(s, step)) && NobodySubmits(Apply(s, step))
  {
    FinishedIsQuiet(s, step);
    if CallStep(step) {
      CallSameTasks(s, step);
    } else {
      OutsideSame(s, step);
    }
  }

  lemma FinishedIsQuiet(s: State, step: Step)
    requires HandsOk(s) && PoolOk(s) && RunOk(s) && NobodySubmits(s) && AllExited(s)
    ensures Enabled(s, step) ==> CallStep(step) || OutsideStep(step)
  {
  }

  lemma StepClean(s: State, step: Step)
    requires Core(s) && CallsOk(s) && StopOk(s) && CleanOk(s) && Enabled(s, step)
    ensures CleanOk(Apply(s, step))
  {
    if step.StopClose? {
      SameBypassable(s, Apply(s, step));
    } else if step.StopDrained? {
      if s.clean {
        IdleMeansAllExited(s);
        IdleBypassesAll(s);
      }
    } else {
      StopFields(s, step);
      LaterClean(s, step);
    }
  }

  lemma LaterClean(s: State, step: Step)
    requires Core(s) && CallsOk(s) && StopOk(s) && CleanOk(s) && Enabled(s, step) && !step.StopClose?
    requires !step.StopDrained?
    requires Apply(s, step).closed == s.closed && Apply(s, step).clean == s.clean
    requires SameStop(s, Apply(s, step)) || (s.stop != Closed && Apply(s, step).stop != Closed)
    ensures CleanOk(Apply(s, step))
  {
    if s.closed && s.clean {
      if s.stop == Closed {
        DrainingStaysClean(s, step);
      } else {
        FinishedStays(s, step);
      }
    }
  }

  lemma SameBypassable(s: State, s': State)
    requires s'.threads == s.threads && s'.vars == s.vars && s'.workers == s.workers
    ensures NoneBypassable(s') <==> NoneBypassable(s)
  {
    assert forall t :: Bypassable(s', t) <==> Bypassable(s, t);
  }

  lemma StepInv(s: State, step: Step)
    requires Inv(s) && Enabled(s, step)
    ensures Inv(Apply(s, step))
  {
    StepCore(s, step);
    StepCalls(s, step);
    StepHead(s, step);
    StepDrain(s, step);
    StepStop(s, step);
    StepClean(s, step);
  }
}
