/**
 How many gate tasks a chain costs: a fully registered chain that runs alone, cascading from layer to
 layer in place as long as the slot fits and the inline depth is below its limit.
 */
module PostBound {
  import opened Basics
  import opened ReadWriteGate
  import opened GateReentry

  /** One layer: its kind, and whether its body runs or its upstream result makes it a skipped one. */
  datatype Layer = Layer(kind: TaskKind, runs: bool)

  function SlotOf(kind: TaskKind): Slot {
    if kind.Direct? then NoSlot else InSlot(kind)
  }

  /** In place or posted, for an executor thread and an empty gate queue. */
  predicate ShouldInline(slot: Slot, kind: TaskKind, depth: nat) {
    depth < MaxInlineDepth && Passes(slot, kind)
  }

  /** A task that settles layer l at this depth gets as far as this layer, which it posts; or to the end. */
  function StopsAt(layers: seq<Layer>, slot: Slot, l: nat, depth: nat): (e: nat)
    requires l < |layers|
    ensures l < e <= |layers|
    decreases |layers| - l
  {
    if l + 1 == |layers| then l + 1
    else if !layers[l + 1].runs then StopsAt(layers, slot, l + 1, depth)
    else if ShouldInline(slot, layers[l + 1].kind, depth) then StopsAt(layers, slot, l + 1, depth + 1)
    else l + 1
  }

  /** The running layers from lo up to hi. */
  function Running(layers: seq<Layer>, lo: nat, hi: nat): seq<nat>
    requires lo <= hi <= |layers|
    decreases hi - lo
  {
    if lo == hi then [] else (if layers[lo].runs then [lo] else []) + Running(layers, lo + 1, hi)
  }

  /** The number of gate tasks of a chain whose next task starts with layer l. */
  function TaskCount(layers: seq<Layer>, l: nat): nat
    requires l < |layers|
    decreases |layers| - l
  {
    var e := End(layers, l);
    1 + if e < |layers| then TaskCount(layers, e) else 0
  }

  /** The layers at which the tasks start, from a task that starts with layer l on. */
  function Starts(layers: seq<Layer>, l: nat): seq<nat>
    requires l < |layers|
    ensures |Starts(layers, l)| == TaskCount(layers, l)
    decreases |layers| - l
  {
    var e := End(layers, l);
    [l] + if e < |layers| then Starts(layers, e) else []
  }

  /** Where a task that starts with layer m gets to. */
  function End(layers: seq<Layer>, m: nat): (e: nat)
    requires m < |layers|
    ensures m < e <= |layers|
  {
    StopsAt(layers, SlotOf(layers[m].kind), m, 0)
  }

  function Max(a: nat, b: nat): nat {
    if a < b then b else a
  }

  /** The most settle calls on one stack, in the tasks from the one that starts with layer l on. */
  function PeakFrom(layers: seq<Layer>, l: nat): nat
    requires l < |layers|
    decreases |layers| - l
  {
    var e := End(layers, l);
    Max(e - l, if e < |layers| then PeakFrom(layers, e) else 0)
  }

  /** What a runner's fields hold; the last three are for the proof. */
  datatype Vars = Vars(depth: nat, posted: seq<nat>, posts: nat, ran: seq<nat>, deepest: nat, nested: nat, peak: nat)

  /**
   From v to w the layers from `first` up to e ran if they run, e was posted if there is one, and settle
   calls for the layers from l up to e were nested on top of the ones in v.
   */
  predicate Reached(layers: seq<Layer>, v: Vars, w: Vars, first: nat, l: nat, e: nat) {
    && l <= e <= |layers| && first <= e
    && w.depth == v.depth && w.nested == v.nested
    && w.deepest <= Max(v.deepest, MaxInlineDepth)
    && w.ran == v.ran + Running(layers, first, e)
    && w.posted == v.posted + (if e < |layers| then [e] else [])
    && w.posts == v.posts + (if e < |layers| then 1 else 0)
    && (e < |layers| ==> layers[e].runs)
    && w.peak == Max(v.peak, v.nested + e - l)
  }

  /**
   The cascade.  Because the chain is linear, a task that has posted a layer only unwinds, so the
   tasks can be taken one after the other; `depth` is the inline depth of the thread that runs one.
   */
  class CChainRunner {
    const layers: seq<Layer>
    var depth: nat
    var posted: seq<nat>
    var posts: nat
    var ran: seq<nat>
    ghost var deepest: nat          // the largest inline depth so far
    ghost var nested: nat           // settle calls on the stack
    ghost var peak: nat             // and the most there ever were
    ghost var starts: seq<nat>      // the layers the tasks started with
    ghost var leftDepth: seq<nat>   // the inline depth each task left behind

    /** The first layer of a chain is always posted. */
    constructor (layers: seq<Layer>)
      requires layers != [] && layers[0].runs
      ensures this.layers == layers && State() == Vars(0, [0], 1, [], 0, 0, 0) && starts == leftDepth == []
    {
      this.layers := layers;
      depth, posted, posts, ran, deepest, nested, peak := 0, [0], 1, [], 0, 0, 0;
      starts, leftDepth := [], [];
    }

    ghost function State(): Vars
      reads this
    {
      Vars(depth, posted, posts, ran, deepest, nested, peak)
    }

    /** The layer runner: body, then settle. */
    method RunLayer(l: nat, slot: Slot)
      requires l < |layers| && layers[l].runs && depth <= MaxInlineDepth
      modifies this`depth, this`posted, this`posts, this`ran, this`deepest, this`nested, this`peak
      ensures Reached(layers, old(State()), State(), l, l, StopsAt(layers, slot, l, old(depth)))
      decreases |layers| - l, 1
    {
      if depth > deepest {
        deepest := depth;
      }
      ran := ran + [l];
      SettleLayer(l, slot);
    }

    /** Settling a layer calls the next layer's handler on the same stack. */
    method SettleLayer(l: nat, slot: Slot)
      requires l < |layers| && depth <= MaxInlineDepth
      modifies this`depth, this`posted, this`posts, this`ran, this`deepest, this`nested, this`peak
      ensures Reached(layers, old(State()), State(), l + 1, l, StopsAt(layers, slot, l, old(depth)))
      decreases |layers| - l, 0
    {
      nested := nested + 1;
      if nested > peak {
        peak := nested;
      }
      if l + 1 < |layers| {
        CallHandler(l + 1, slot);
      }
      nested := nested - 1;
    }

    /** The stored handler of layer l: skip, or dispatch. */
    method CallHandler(l: nat, slot: Slot)
      requires 0 < l < |layers| && depth <= MaxInlineDepth && nested <= peak
      modifies this`depth, this`posted, this`posts, this`ran, this`deepest, this`nested, this`peak
      ensures Reached(layers, old(State()), State(), l, l, StopsAt(layers, slot, l - 1, old(depth)))
      decreases |layers| - l, 3
    {
      if !layers[l].runs {
        SettleLayer(l, slot);
      } else {
        Dispatch(l, slot);
      }
    }

    /** Running the layer in place, one deeper, or posting it. */
    method Dispatch(l: nat, slot: Slot)
      requires l < |layers| && layers[l].runs && depth <= MaxInlineDepth && nested <= peak
      modifies this`depth, this`posted, this`posts, this`ran, this`deepest, this`nested, this`peak
      ensures Reached(layers, old(State()), State(), l, l,
                      if ShouldInline(slot, layers[l].kind, old(depth))
                      then StopsAt(layers, slot, l, old(depth) + 1)
                      else l)
      ensures ran != old(ran) <==> old(depth) < 64 && (layers[l].kind == Direct || slot == InSlot(layers[l].kind))
      decreases |layers| - l, 2
    {
      if ShouldInline(slot, layers[l].kind, depth) {
        depth := depth + 1;
        RunLayer(l, slot);
        depth := depth - 1;
      } else {
        posted := posted + [l];
        posts := posts + 1;
      }
    }

    /** The executor takes the posted tasks until there are none. */
    method RunAll()
      requires layers != [] && layers[0].runs && State() == Vars(0, [0], 1, [], 0, 0, 0) && starts == leftDepth == []
      modifies this
      ensures posted == [] && deepest <= MaxInlineDepth
      ensures ran == Running(layers, 0, |layers|)
      ensures posts == |starts| == |leftDepth| == TaskCount(layers, 0) && starts == Starts(layers, 0)
      ensures forall k | 0 <= k < |leftDepth| :: leftDepth[k] == 0
      ensures AreTasks(layers, 0, starts)
      ensures peak == PeakFrom(layers, 0)
    {
      ghost var at := 0;
      FirstTask(layers);
      while posted != []
        invariant Done(layers, at, State()) && Counted(layers, at, State(), starts, leftDepth)
        decreases |layers| - at
      {
        at := RunNext(at);
      }
      AllDone(layers, at, State(), starts, leftDepth);
    }

    /** A worker takes the posted task and runs it. */
    method RunNext(ghost at: nat) returns (ghost next: nat)
      requires Done(layers, at, State()) && Counted(layers, at, State(), starts, leftDepth) && posted != []
      modifies this
      ensures at < next && Done(layers, next, State()) && Counted(layers, next, State(), starts, leftDepth)
    {
      ghost var before := State();
      var l := posted[0];
      posted := posted[1..];
      assert State() == before.(posted := []);
      RunLayer(l, SlotOf(layers[l].kind));
      TaskDone(layers, at, before, State(), starts, leftDepth);
      starts, leftDepth := starts + [l], leftDepth + [depth];
      next := End(layers, l);
    }
  }

  lemma FirstTask(layers: seq<Layer>)
    requires layers != [] && layers[0].runs
    ensures Done(layers, 0, Vars(0, [0], 1, [], 0, 0, 0)) && Counted(layers, 0, Vars(0, [0], 1, [], 0, 0, 0), [], [])
  {
    assert [] + Starts(layers, 0) == Starts(layers, 0);
  }

  /** Between two tasks: everything before `at` is done, and the task for `at`, if there is one, is posted. */
  ghost predicate Done(layers: seq<Layer>, at: nat, v: Vars) {
    && v.depth == 0 && v.nested == 0 && v.deepest <= MaxInlineDepth && at <= |layers| && layers != []
    && v.posted == (if at < |layers| then [at] else [])
    && (at < |layers| ==> layers[at].runs)
    && v.ran == Running(layers, 0, at)
  }

  function StartsFrom(layers: seq<Layer>, at: nat): seq<nat> {
    if at < |layers| then Starts(layers, at) else []
  }

  function PeakAfter(layers: seq<Layer>, at: nat): nat {
    if at < |layers| then PeakFrom(layers, at) else 0
  }

  /** The tasks so far, and those to come, are the chain's; each left depth 0; the same for the peak. */
  ghost predicate Counted(layers: seq<Layer>, at: nat, v: Vars, starts: seq<nat>, leftDepth: seq<nat>) {
    && layers != []
    && Starts(layers, 0) == starts + StartsFrom(layers, at)
    && PeakFrom(layers, 0) == Max(v.peak, PeakAfter(layers, at))
    && v.posts == |starts| + |v.posted| && |leftDepth| == |starts|
    && forall k | 0 <= k < |leftDepth| :: leftDepth[k] == 0
  }

  /** With no task left, the runner's fields are what the chain's functions say. */
  lemma AllDone(layers: seq<Layer>, at: nat, v: Vars, starts: seq<nat>, leftDepth: seq<nat>)
    requires Done(layers, at, v) && Counted(layers, at, v, starts, leftDepth) && layers[0].runs && v.posted == []
    ensures v.deepest <= MaxInlineDepth && v.ran == Running(layers, 0, |layers|)
    ensures v.posts == |starts| == |leftDepth| && starts == Starts(layers, 0) && AreTasks(layers, 0, starts)
    ensures forall k | 0 <= k < |leftDepth| :: leftDepth[k] == 0
    ensures v.peak == PeakFrom(layers, 0)
  {
    assert starts + [] == starts;
    StartsMean(layers, 0);
  }

  /** The task for `at` has been run. */
  lemma TaskDone(layers: seq<Layer>, at: nat, v: Vars, w: Vars, starts: seq<nat>, leftDepth: seq<nat>)
    requires Done(layers, at, v) && Counted(layers, at, v, starts, leftDepth) && v.posted != []
    requires at < |layers| ==> Reached(layers, v.(posted := []), w, at, at, End(layers, at))
    ensures at < |layers| && Done(layers, End(layers, at), w)
    ensures Counted(layers, End(layers, at), w, starts + [at], leftDepth + [w.depth])
  {
    DoneStep(layers, v, w, at);
    CountedStep(layers, v, w, starts, leftDepth, at);
  }

  lemma DoneStep(layers: seq<Layer>, v: Vars, w: Vars, l: nat)
    requires Done(layers, l, v) && l < |layers| && Reached(layers, v.(posted := []), w, l, l, End(layers, l))
    ensures Done(layers, End(layers, l), w)
  {
    RunningSplit(layers, 0, l, End(layers, l));
  }

  lemma CountedStep(layers: seq<Layer>, v: Vars, w: Vars, starts: seq<nat>, leftDepth: seq<nat>, l: nat)
    requires Counted(layers, l, v, starts, leftDepth) && l < |layers| && v.posted == [l] && v.depth == v.nested == 0
    requires Reached(layers, v.(posted := []), w, l, l, End(layers, l))
    ensures Counted(layers, End(layers, l), w, starts + [l], leftDepth + [w.depth])
  {
    OneStart(layers, l);
    Regroup(starts, l, StartsFrom(layers, End(layers, l)));
  }

  lemma OneStart(layers: seq<Layer>, l: nat)
    requires l < |layers|
    ensures StartsFrom(layers, l) == [l] + StartsFrom(layers, End(layers, l))
    ensures PeakAfter(layers, l) == Max(End(layers, l) - l, PeakAfter(layers, End(layers, l)))
  {
  }

  lemma Regroup(starts: seq<nat>, l: nat, later: seq<nat>)
    ensures starts + ([l] + later) == starts + [l] + later
  {
  }

  lemma {:induction false} RunningSplit(layers: seq<Layer>, lo: nat, mid: nat, hi: nat)
    requires lo <= mid <= hi <= |layers|
    ensures Running(layers, lo, hi) == Running(layers, lo, mid) + Running(layers, mid, hi)
    decreases mid - lo
  {
    if lo < mid {
      RunningSplit(layers, lo + 1, mid, hi);
    }
  }

  /** All layers are of one kind. */
  ghost predicate Uniform(layers: seq<Layer>) {
    forall i, j | 0 <= i < |layers| && 0 <= j < |layers| :: layers[i].kind == layers[j].kind
  }

  /** Settling layer l at depth d leaves room for 64 - d more bodies; a uniform chain uses all of it. */
  lemma {:induction false} RoomUsed(layers: seq<Layer>, slot: Slot, l: nat, d: nat)
    requires l < |layers| && d <= MaxInlineDepth
    ensures var e := StopsAt(layers, slot, l, d);
            && |Running(layers, l + 1, e)| <= MaxInlineDepth - d
            && (e < |layers| ==> layers[e].runs)
            && (Uniform(layers) && slot == SlotOf(layers[l].kind) && e < |layers|
                ==> |Running(layers, l + 1, e)| == MaxInlineDepth - d)
    decreases |layers| - l
  {
    var e := StopsAt(layers, slot, l, d);
    if l + 1 < |layers| && !layers[l + 1].runs {
      RoomUsed(layers, slot, l + 1, d);
    } else if l + 1 < |layers| && ShouldInline(slot, layers[l + 1].kind, d) {
      RoomUsed(layers, slot, l + 1, d + 1);
    }
  }

  /** No chain, whatever its kinds, needs fewer than one task per 65 bodies. */
  lemma {:induction false} TasksAtLeast(layers: seq<Layer>, l: nat)
    requires l < |layers| && layers[l].runs
    ensures |Running(layers, l, |layers|)| <= 65 * TaskCount(layers, l)
    decreases |layers| - l
  {
    var slot := SlotOf(layers[l].kind);
    var e := StopsAt(layers, slot, l, 0);
    RoomUsed(layers, slot, l, 0);
    RunningSplit(layers, l, e, |layers|);
    if e < |layers| {
      TasksAtLeast(layers, e);
    }
  }

  /** A chain of one kind with R running layers costs exactly R / 65 tasks, rounded up. */
  lemma {:induction false} UniformChainCost(layers: seq<Layer>, l: nat)
    requires l < |layers| && layers[l].runs && Uniform(layers)
    ensures TaskCount(layers, l) == (|Running(layers, l, |layers|)| + 64) / 65
    decreases |layers| - l
  {
    var slot := SlotOf(layers[l].kind);
    var e := StopsAt(layers, slot, l, 0);
    RoomUsed(layers, slot, l, 0);
    RunningSplit(layers, l, e, |layers|);
    if e < |layers| {
      UniformChainCost(layers, e);
    }
  }

  /** A chain of N fulfilled layers of one kind. */
  lemma FulfilledChainCost(layers: seq<Layer>)
    requires layers != [] && Uniform(layers) && forall i | 0 <= i < |layers| :: layers[i].runs
    ensures TaskCount(layers, 0) == (|layers| + 64) / 65
  {
    AllRunning(layers, 0);
    UniformChainCost(layers, 0);
  }

  lemma {:induction false} AllRunning(layers: seq<Layer>, l: nat)
    requires l <= |layers| && forall i | 0 <= i < |layers| :: layers[i].runs
    ensures |Running(layers, l, |layers|)| == |layers| - l
    decreases |layers| - l
  {
    if l < |layers| {
      AllRunning(layers, l + 1);
    }
  }

  // ---- what one task runs ----

  /** A body of this kind may run in a task that was posted for a body of that kind. */
  predicate Shares(task: TaskKind, kind: TaskKind) {
    kind == Direct || kind == task
  }

  /**
   The layers from m up to e are one task: each body in it shares the kind of the first, there are at most
   65 of them, and the layer at e, where the next task starts, does not share that kind or would be the
   66th.
   */
  ghost predicate OneTask(layers: seq<Layer>, m: nat, e: nat) {
    && m < e <= |layers|
    && (forall i | m < i < e && layers[i].runs :: Shares(layers[m].kind, layers[i].kind))
    && |Running(layers, m, e)| <= 65
    && (e < |layers| ==>
          layers[e].runs && (!Shares(layers[m].kind, layers[e].kind) || |Running(layers, m, e)| == 65))
  }

  /** That description says exactly where a task ends. */
  lemma EndIff(layers: seq<Layer>, m: nat, e: nat)
    requires m < |layers| && layers[m].runs
    ensures e == End(layers, m) <==> OneTask(layers, m, e)
  {
    StopsWhere(layers, layers[m].kind, m, 0);
    WholeTask(layers, m, End(layers, m));
    if OneTask(layers, m, e) {
      OneTaskOnce(layers, m, e, End(layers, m));
      OneTaskOnce(layers, m, End(layers, m), e);
    }
  }

  lemma WholeTask(layers: seq<Layer>, m: nat, e: nat)
    requires m < |layers| && layers[m].runs && TaskFrom(layers, layers[m].kind, m, 0, e)
    ensures OneTask(layers, m, e)
  {
    assert Running(layers, m, e) == [m] + Running(layers, m + 1, e);
  }

  /** The same from layer l on, settled with d bodies nested. */
  ghost predicate TaskFrom(layers: seq<Layer>, task: TaskKind, l: nat, d: nat, e: nat) {
    && d <= 64 && l < e <= |layers|
    && (forall i | l < i < e && layers[i].runs :: Shares(task, layers[i].kind))
    && |Running(layers, l + 1, e)| <= 64 - d
    && (e < |layers| ==>
          layers[e].runs && (!Shares(task, layers[e].kind) || |Running(layers, l + 1, e)| == 64 - d))
  }

  lemma {:induction false} StopsWhere(layers: seq<Layer>, task: TaskKind, l: nat, d: nat)
    requires l < |layers| && d <= 64
    ensures TaskFrom(layers, task, l, d, StopsAt(layers, SlotOf(task), l, d))
    decreases |layers| - l
  {
    if l + 1 < |layers| && !layers[l + 1].runs {
      StopsWhere(layers, task, l + 1, d);
      OneFurther(layers, task, l, d, StopsAt(layers, SlotOf(task), l + 1, d));
    } else if l + 1 < |layers| && ShouldInline(SlotOf(task), layers[l + 1].kind, d) {
      StopsWhere(layers, task, l + 1, d + 1);
      OneFurther(layers, task, l, d, StopsAt(layers, SlotOf(task), l + 1, d + 1));
    }
  }

  lemma OneFurther(layers: seq<Layer>, task: TaskKind, l: nat, d: nat, e: nat)
    requires l + 1 < |layers| && d <= 64
    requires if layers[l + 1].runs then Shares(task, layers[l + 1].kind) && TaskFrom(layers, task, l + 1, d + 1, e)
             else TaskFrom(layers, task, l + 1, d, e)
    ensures TaskFrom(layers, task, l, d, e)
  {
    assert Running(layers, l + 1, e) == (if layers[l + 1].runs then [l + 1] else []) + Running(layers, l + 2, e);
  }

  lemma OneTaskOnce(layers: seq<Layer>, m: nat, e: nat, e': nat)
    requires m < |layers| && OneTask(layers, m, e) && OneTask(layers, m, e')
    ensures e' <= e
  {
    if e < e' {
      OneMoreBody(layers, m, e, e');
    }
  }

  lemma OneMoreBody(layers: seq<Layer>, m: nat, e: nat, e': nat)
    requires m < e < e' <= |layers| && layers[e].runs
    ensures |Running(layers, m, e')| > |Running(layers, m, e)|
  {
    RunningSplit(layers, m, e, e');
    assert Running(layers, e, e') == [e] + Running(layers, e + 1, e');
  }

  /** For a gated kind, the test is the gate's own with nobody waiting, below the depth limit. */
  lemma InlineIsInPlace(slot: Slot, kind: TaskKind, depth: nat, held: Slots)
    requires !kind.Direct?
    ensures ShouldInline(slot, kind, depth) <==> depth < 64 && GateVars([], held).InPlaceOk(FrameOf(slot), kind)
  {
  }

  function FrameOf(slot: Slot): Option<TaskKind> {
    match slot
    case NoSlot => None
    case InSlot(kind) => Some(kind)
  }

  /** Where the k-th task ends: where the next one starts, or with the chain. */
  function TaskEnd(layers: seq<Layer>, starts: seq<nat>, k: nat): nat {
    if k + 1 < |starts| then starts[k + 1] else |layers|
  }

  /** Tasks starting with these layers run the chain from layer l on, one behind the other, to its end. */
  ghost predicate AreTasks(layers: seq<Layer>, l: nat, starts: seq<nat>) {
    starts != [] && starts[0] == l && forall k | 0 <= k < |starts| :: IsTask(layers, starts, k)
  }

  /** The k-th task runs from its first layer up to the first one of the next task. */
  ghost predicate IsTask(layers: seq<Layer>, starts: seq<nat>, k: nat)
    requires k < |starts|
  {
    && starts[k] < |layers| && layers[starts[k]].runs
    && OneTask(layers, starts[k], TaskEnd(layers, starts, k))
  }

  /** A chain's tasks: the first starts with its first layer, the next where that ends, and so on to the end. */
  lemma {:induction false} StartsMean(layers: seq<Layer>, l: nat)
    requires l < |layers| && layers[l].runs
    ensures AreTasks(layers, l, Starts(layers, l))
    decreases |layers| - l
  {
    var e := End(layers, l);
    EndIff(layers, l, e);
    if e < |layers| {
      StartsMean(layers, e);
      FirstOfTasks(layers, l, e, Starts(layers, e));
    } else {
      OnlyTask(layers, l);
    }
  }

  lemma OnlyTask(layers: seq<Layer>, l: nat)
    requires l < |layers| && layers[l].runs && OneTask(layers, l, |layers|)
    ensures AreTasks(layers, l, [l])
  {
  }

  lemma FirstOfTasks(layers: seq<Layer>, l: nat, e: nat, later: seq<nat>)
    requires l < |layers| && layers[l].runs && OneTask(layers, l, e) && AreTasks(layers, e, later)
    ensures AreTasks(layers, l, [l] + later)
  {
    var starts := [l] + later;
    forall k | 0 <= k < |starts|
      ensures IsTask(layers, starts, k)
    {
      if k == 0 {
        assert TaskEnd(layers, starts, 0) == e;
      } else {
        LaterTask(layers, l, later, k - 1);
      }
    }
  }

  lemma LaterTask(layers: seq<Layer>, l: nat, later: seq<nat>, k: nat)
    requires k < |later| && IsTask(layers, later, k)
    ensures IsTask(layers, [l] + later, k + 1)
  {
    assert ([l] + later)[k + 1] == later[k];
    assert TaskEnd(layers, [l] + later, k + 1) == TaskEnd(layers, later, k);
  }

  // ---- how deep the stack gets ----

  /** The number of skipped layers from lo up to hi. */
  function Skipped(layers: seq<Layer>, lo: nat, hi: nat): nat
    requires lo <= hi <= |layers|
    decreases hi - lo
  {
    if lo == hi then 0 else (if layers[lo].runs then 0 else 1) + Skipped(layers, lo + 1, hi)
  }

  lemma {:induction false} RunOrSkip(layers: seq<Layer>, lo: nat, hi: nat)
    requires lo <= hi <= |layers|
    ensures |Running(layers, lo, hi)| + Skipped(layers, lo, hi) == hi - lo
    decreases hi - lo
  {
    if lo < hi {
      RunOrSkip(layers, lo + 1, hi);
    }
  }

  /** The task that starts with layer m settles at most this many skipped layers beside its running ones. */
  predicate FewSkipped(layers: seq<Layer>, m: nat, bound: nat)
  {
    m < |layers| && Skipped(layers, m, End(layers, m)) <= bound - |Running(layers, m, End(layers, m))|
  }

  /**
   How deep the stack of nested settle calls gets: it stays within a bound exactly when no task settles
   more skipped layers than the bound leaves beside its running layers.
   */
  lemma {:induction false} StackBoundIff(layers: seq<Layer>, l: nat, bound: nat)
    requires l < |layers|
    ensures PeakFrom(layers, l) <= bound <==> forall m | m in Starts(layers, l) :: FewSkipped(layers, m, bound)
    decreases |layers| - l
  {
    var e := End(layers, l);
    RunOrSkip(layers, l, e);
    assert FewSkipped(layers, l, bound) <==> e - l <= bound;
    var later := if e < |layers| then Starts(layers, e) else [];
    assert Starts(layers, l) == [l] + later && l in Starts(layers, l);
    assert forall m | m in later :: m in Starts(layers, l);
    if e < |layers| {
      StackBoundIff(layers, e, bound);
    }
  }

  /** A task runs at most 65 bodies, so what exceeds a stack of 65 are skipped layers. */
  lemma {:induction false} StackWithinSkips(layers: seq<Layer>, l: nat)
    requires l < |layers| && layers[l].runs
    ensures PeakFrom(layers, l) <= 65 + Skipped(layers, l, |layers|)
    decreases |layers| - l
  {
    var e := End(layers, l);
    RoomUsed(layers, SlotOf(layers[l].kind), l, 0);
    RunOrSkip(layers, l, e);
    SkippedSplit(layers, l, e, |layers|);
    if e < |layers| {
      StackWithinSkips(layers, e);
    }
  }

  lemma {:induction false} SkippedSplit(layers: seq<Layer>, lo: nat, mid: nat, hi: nat)
    requires lo <= mid <= hi <= |layers|
    ensures Skipped(layers, lo, hi) == Skipped(layers, lo, mid) + Skipped(layers, mid, hi)
    decreases mid - lo
  {
    if lo < mid {
      SkippedSplit(layers, lo + 1, mid, hi);
    }
  }

  /** Where every layer runs, the inline depth limit does bound the stack. */
  lemma NoSkipsNoOverflow(layers: seq<Layer>)
    requires layers != [] && forall i | 0 <= i < |layers| :: layers[i].runs
    ensures PeakFrom(layers, 0) <= 65
  {
    AllRunning(layers, 0);
    RunOrSkip(layers, 0, |layers|);
    StackWithinSkips(layers, 0);
  }

  /** A chain whose first layer runs (and fails), with n `then` layers behind it that are all skipped. */
  function FailingChain(n: nat): (layers: seq<Layer>)
    ensures |layers| == n + 1 && layers[0].runs && forall i | 1 <= i <= n :: !layers[i].runs
  {
    if n == 0 then [Layer(Write, true)] else FailingChain(n - 1) + [Layer(Write, false)]
  }

  lemma {:induction false} SkipsToTheEnd(layers: seq<Layer>, slot: Slot, l: nat, d: nat)
    requires l < |layers| && forall i | l < i < |layers| :: !layers[i].runs
    ensures StopsAt(layers, slot, l, d) == |layers|
    decreases |layers| - l
  {
    if l + 1 < |layers| {
      SkipsToTheEnd(layers, slot, l + 1, d);
    }
  }

  /**
   The depth limit bounds bodies, not the stack: a chain of n + 1 layers whose first one fails settles all
   of them on one stack, in its only task; from 65 skipped layers on that is more than the limit allows.
   */
  lemma SkippedLayersNest(n: nat)
    ensures TaskCount(FailingChain(n), 0) == 1 && PeakFrom(FailingChain(n), 0) == n + 1
    ensures n >= 65 ==> PeakFrom(FailingChain(n), 0) > 65
  {
    SkipsToTheEnd(FailingChain(n), InSlot(Write), 0, 0);
    FirstIsWrite(n);
  }

  lemma {:induction false} FirstIsWrite(n: nat)
    ensures FailingChain(n)[0] == Layer(Write, true)
  {
    if n > 0 {
      FirstIsWrite(n - 1);
    }
  }
}
