/**
 The read/write gate of one executor: a single FIFO queue, reader slots, one writer slot.
 Everything here runs inside one critical section of the gate's mutex; the interleaving of
 critical sections, the pool hand-off and the task bodies are the subject of `GateSystem`.
 */
module ReadWriteGate {
  import opened Basics

  /** Read tasks may share the module, a write task has it alone, direct tasks bypass the gate. */
  datatype TaskKind = Read | Write | Direct

  /** A queued task: its submission number and its kind. */
  datatype Entry = Entry(id: nat, kind: TaskKind)

  /** The slot counters: active readers and the writer flag. */
  datatype Slots = Slots(readers: nat, writer: bool) {
    /** No slot is held. */
    predicate Free() {
      readers == 0 && !writer
    }

    /** The admission test at the queue's front; `max == 0` means no reader limit. */
    predicate CanEnter(max: nat, kind: TaskKind) {
      if kind.Read? then !writer && (max > 0 ==> readers < max)
      else Free()
    }

    function Take(kind: TaskKind): Slots {
      if kind.Read? then Slots(readers + 1, writer) else Slots(readers, true)
    }

    /** Giving a slot back; the counter saturates only where no caller can be. */
    function Return(kind: TaskKind): Slots {
      if kind.Read? then Slots(if readers > 0 then readers - 1 else 0, writer) else Slots(readers, false)
    }
  }

  /** What the mutex protects, as a value. */
  datatype GateVars = GateVars(queue: seq<Entry>, slots: Slots) {
    /** A slot is given back; nobody is pumped. */
    function GiveBack(kind: TaskKind): GateVars {
      GateVars(queue, slots.Return(kind))
    }

    /**
     May a layer of `kind` run in place?  `frame` is the kind of this gate's task on the thread's top,
     if there is one.
     */
    predicate InPlaceOk(frame: Option<TaskKind>, kind: TaskKind) {
      frame == Some(kind) && queue == []
    }

    predicate Idle() {
      slots.Free() && queue == []
    }

    /** The pump can make no further step. */
    predicate Stuck(max: nat) {
      queue == [] || !slots.CanEnter(max, queue[0].kind)
    }

    function AdmitHead(): GateVars
      requires queue != []
    {
      GateVars(queue[1..], slots.Take(queue[0].kind))
    }
  }

  /** The pump as a function: repeat the head's admission until the head is blocked. */
  function Pump(g: GateVars, max: nat): (GateVars, seq<Entry>)
    decreases |g.queue|
  {
    if g.Stuck(max) then (g, [])
    else
      var rest := Pump(g.AdmitHead(), max);
      (rest.0, [g.queue[0]] + rest.1)
  }

  /**
   The meaning of admission, with no reference to the pump: may all of `es` hold a slot at the
   same time, beside the holders counted in `h`?
   */
  ghost predicate Compatible(h: Slots, max: nat, es: seq<Entry>) {
    || es == []
    || (|es| == 1 && !es[0].kind.Read? && h.Free())
    || ((forall e | e in es :: e.kind.Read?) && !h.writer && (max > 0 ==> h.readers + |es| <= max))
  }

  /** The counters after all of `es` took their slots. */
  function TakeAll(h: Slots, es: seq<Entry>): Slots
    decreases |es|
  {
    if es == [] then h else TakeAll(h.Take(es[0].kind), es[1..])
  }

  lemma {:induction false} TakeAllReads(h: Slots, es: seq<Entry>)
    requires forall e | e in es :: e.kind.Read?
    ensures TakeAll(h, es) == Slots(h.readers + |es|, h.writer)
    decreases |es|
  {
    if es != [] {
      TakeAllReads(h.Take(es[0].kind), es[1..]);
    }
  }

  /** Nothing is lost or reordered by the pump, and it stops only at a blocked head. */
  lemma {:induction false} PumpSplits(g: GateVars, max: nat)
    ensures Pump(g, max).1 + Pump(g, max).0.queue == g.queue
    ensures Pump(g, max).0.Stuck(max)
    decreases |g.queue|
  {
    if !g.Stuck(max) {
      PumpSplits(g.AdmitHead(), max);
    }
  }

  /** A compatible prefix stays compatible when its head takes its slot and leaves. */
  lemma CompatibleTail(h: Slots, max: nat, es: seq<Entry>)
    requires es != [] && Compatible(h, max, es)
    ensures h.CanEnter(max, es[0].kind)
    ensures Compatible(h.Take(es[0].kind), max, es[1..])
  {
    if es[0].kind.Read? {
      assert forall e | e in es[1..] :: e in es;
    }
  }

  lemma CompatibleCons(h: Slots, max: nat, es: seq<Entry>)
    requires es != [] && h.CanEnter(max, es[0].kind)
    requires Compatible(h.Take(es[0].kind), max, es[1..])
    ensures Compatible(h, max, es)
  {
    if es[0].kind.Read? && |es| > 1 {
      forall e | e in es
        ensures e.kind.Read?
      {
        assert e == es[0] || e in es[1..];
      }
    }
  }

  /**
   The pump admits exactly the longest compatible prefix of the queue, in queue order, and the
   counters move by exactly the admitted tasks.
   */
  lemma {:induction false} PumpAdmitsLongestPrefix(g: GateVars, max: nat)
    ensures var (g', out) := Pump(g, max);
            && out <= g.queue
            && Compatible(g.slots, max, out)
            && g'.slots == TakeAll(g.slots, out)
            && forall k | |out| < k <= |g.queue| :: !Compatible(g.slots, max, g.queue[..k])
    decreases |g.queue|
  {
    PumpSplits(g, max);
    var (g', out) := Pump(g, max);
    if g.Stuck(max) {
      forall k | |out| < k <= |g.queue|
        ensures !Compatible(g.slots, max, g.queue[..k])
      {
        assert g.queue[..k][0] == g.queue[0];
      }
    } else {
      var h := g.AdmitHead();
      PumpAdmitsLongestPrefix(h, max);
      var tail := Pump(h, max).1;
      assert out == [g.queue[0]] + tail && out[1..] == tail;
      CompatibleCons(g.slots, max, out);
      forall k | |out| < k <= |g.queue|
        ensures !Compatible(g.slots, max, g.queue[..k])
      {
        assert g.queue[..k][1..] == h.queue[..k - 1];
        if Compatible(g.slots, max, g.queue[..k]) {
          CompatibleTail(g.slots, max, g.queue[..k]);
          assert false;
        }
      }
    }
  }

  /** The gate object: one field per member the mutex protects, plus the closed flag. */
  class CReadWriteGate {
    const maxReaders: nat
    var queue: seq<Entry>
    var activeReaders: nat
    var writerActive: bool
    var closed: bool
    var drainWaiters: nat

    constructor (maxReaders: nat)
      ensures this.maxReaders == maxReaders && !closed && drainWaiters == 0
      ensures Vars() == GateVars([], Slots(0, false))
    {
      this.maxReaders := maxReaders;
      queue, activeReaders, writerActive, closed, drainWaiters := [], 0, false, false, 0;
    }

    function Vars(): GateVars
      reads this
    {
      GateVars(queue, Slots(activeReaders, writerActive))
    }

    method Close()
      modifies this`closed
      ensures closed
    {
      closed := true;
    }

    /** Admits from the front while the head may enter; returns the admitted tasks in order. */
    method PumpLocked() returns (dispatch: seq<Entry>)
      modifies this`queue, this`activeReaders, this`writerActive
      ensures (Vars(), dispatch) == Pump(old(Vars()), maxReaders)
    {
      dispatch := [];
      ghost var start := Vars();
      while queue != []
        invariant Pump(start, maxReaders).0 == Pump(Vars(), maxReaders).0
        invariant Pump(start, maxReaders).1 == dispatch + Pump(Vars(), maxReaders).1
        decreases |queue|
      {
        ghost var before := Vars();
        var front := queue[0].kind;
        if front.Read? {
          if writerActive {
            break;
          }
          if maxReaders > 0 && activeReaders >= maxReaders {
            break;
          }
          var entry := queue[0];
          queue := queue[1..];
          activeReaders := activeReaders + 1;
          dispatch := dispatch + [entry];
          assert Vars() == before.AdmitHead();
        } else {
          if writerActive {
            break;
          }
          if activeReaders > 0 {
            break;
          }
          var entry := queue[0];
          queue := queue[1..];
          writerActive := true;
          dispatch := dispatch + [entry];
          assert Vars() == before.AdmitHead() && Vars().Stuck(maxReaders);
          break;
        }
      }
      assert Vars().Stuck(maxReaders);
      assert Pump(Vars(), maxReaders) == (Vars(), []);
      assert Pump(start, maxReaders).0 == Vars();
      assert dispatch + [] == dispatch;
      assert Pump(start, maxReaders).1 == dispatch;
    }

    /** The critical section of `Submit`: enqueue at the back, then pump. */
    method SubmitLocked(entry: Entry) returns (dispatch: seq<Entry>)
      requires !entry.kind.Direct?
      modifies this`queue, this`activeReaders, this`writerActive
      ensures (Vars(), dispatch) == Pump(GateVars(old(queue) + [entry], old(Vars()).slots), maxReaders)
    {
      queue := queue + [entry];
      dispatch := PumpLocked();
    }

    method ReturnSlot(kind: TaskKind)
      requires kind.Read? ==> activeReaders > 0
      modifies this`activeReaders, this`writerActive
      ensures Vars() == old(Vars()).GiveBack(kind)
    {
      if kind.Read? {
        activeReaders := activeReaders - 1;
      } else {
        writerActive := false;
      }
    }

    /** The critical section of `OnTaskExit`: give the slot back, pump, wake drain waiters if any. */
    method OnTaskExitLocked(kind: TaskKind) returns (dispatch: seq<Entry>, notifyAll: bool)
      requires kind.Read? ==> activeReaders > 0
      modifies this`queue, this`activeReaders, this`writerActive
      ensures (Vars(), dispatch) == Pump(old(Vars()).GiveBack(kind), maxReaders)
      ensures notifyAll <==> drainWaiters != 0
    {
      ReturnSlot(kind);
      dispatch := PumpLocked();
      notifyAll := drainWaiters != 0;
    }

    /** The critical section of the refused hand-off: the slot comes back, nobody is pumped. */
    method DropLocked(kind: TaskKind) returns (notifyAll: bool)
      requires kind.Read? ==> activeReaders > 0
      modifies this`activeReaders, this`writerActive
      ensures Vars() == old(Vars()).GiveBack(kind)
      ensures notifyAll <==> drainWaiters != 0
    {
      ReturnSlot(kind);
      notifyAll := drainWaiters != 0;
    }

    method CanRunInline(frame: Option<TaskKind>, kind: TaskKind) returns (ok: bool)
      requires !kind.Direct?
      ensures ok <==> Vars().InPlaceOk(frame, kind)
    {
      if frame.None? || frame.value != kind {
        return false;
      }
      ok := queue == [];
    }

    method IsIdleLocked() returns (idle: bool)
      ensures idle <==> Vars().Idle()
    {
      idle := activeReaders == 0 && !writerActive && queue == [];
    }
  }
}
