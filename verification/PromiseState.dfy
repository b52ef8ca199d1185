/**
 The state of one layer: a one-way switch with a list of handlers.  The first part is the object and
 its critical sections, the second lets any number of threads settle and register concurrently.
 */
module PromiseState {
  import opened Basics
  import opened PromiseResults

  /** A handler as stored: possibly an empty function object. */
  datatype Handler = Empty | Handle(id: nat)

  /** What the layer's mutex protects: the published result, the in-place handler, the further ones. */
  datatype Vars = Vars(settled: Option<Result>, first: Handler, more: seq<Handler>)

  /** The non-empty handlers, in order. */
  function Callable(hs: seq<Handler>): seq<nat> {
    if hs == [] then []
    else Callable(hs[..|hs| - 1]) + match hs[|hs| - 1] { case Empty => [] case Handle(id) => [id] }
  }

  /** Everything stored, in the order `Settle` calls it. */
  function Stored(v: Vars): seq<nat> {
    Callable([v.first] + v.more)
  }

  lemma {:induction false} CallableAppend(a: seq<Handler>, b: seq<Handler>)
    ensures Callable(a + b) == Callable(a) + Callable(b)
    decreases |b|
  {
    if b == [] {
      assert a + b == a;
    } else {
      assert (a + b)[..|a + b| - 1] == a + b[..|b| - 1];
      CallableAppend(a, b[..|b| - 1]);
    }
  }

  /** The list is used only once the in-place handler is taken. */
  predicate Wf(v: Vars) {
    && (v.first.Empty? ==> v.more == [])
    && (v.settled.Some? ==> v.first.Empty?)
  }

  /** Storing a handler: in place while the place is free, else at the end of the list. */
  function Push(v: Vars, h: Handler): Vars {
    if v.first.Empty? then v.(first := h) else v.(more := v.more + [h])
  }

  /** Whatever the place, a stored handler goes behind the ones stored before; an empty one adds nothing. */
  lemma PushAppends(v: Vars, h: Handler)
    requires Wf(v)
    ensures Stored(Push(v, h)) == Stored(v) + Callable([h])
  {
    if v.first.Empty? {
      assert [h] + v.more == [h] && [v.first] + v.more == [v.first];
    } else {
      assert [v.first] + (v.more + [h]) == ([v.first] + v.more) + [h];
      CallableAppend([v.first] + v.more, [h]);
    }
  }

  /** The object: `settle` publishes once and takes the handlers out; `register` stores or hands back. */
  class CPromiseState {
    var settled: bool
    var result: Result
    var handlerInline: Handler
    var handlers: seq<Handler>

    constructor ()
      ensures State() == Vars(None, Empty, []) && Valid()
    {
      settled, result, handlerInline, handlers := false, Fulfilled, Empty, [];
    }

    ghost predicate Valid()
      reads this
    {
      Wf(State())
    }

    function State(): Vars
      reads this
    {
      Vars(if settled then Some(result) else None, handlerInline, handlers)
    }

    /** The critical section of `Settle`: only the first one publishes. */
    method SettleLocked(r: Result) returns (won: bool, first: Handler, more: seq<Handler>)
      requires Valid()
      modifies this
      ensures Valid()
      ensures won <==> old(State()).settled.None?
      ensures won ==> State() == Vars(Some(r), Empty, []) && first == old(handlerInline) && more == old(handlers)
      ensures !won ==> State() == old(State()) && first == Empty && more == []
    {
      if settled {
        return false, Empty, [];
      }
      result := r;
      settled := true;
      first, handlerInline := handlerInline, Empty;
      more, handlers := handlers, [];
      won := true;
    }

    /** All of `Settle`, as one thread runs it; returns the handlers it called, in order. */
    method Settle(r: Result) returns (calls: seq<nat>)
      requires Valid()
      modifies this
      ensures Valid()
      ensures calls == if old(State()).settled.None? then Stored(old(State())) else []
      ensures State() == if old(State()).settled.None? then Vars(Some(r), Empty, []) else old(State())
    {
      var won, first, more := SettleLocked(r);
      calls := [];
      if !won {
        return;
      }
      if first.Handle? {
        calls := calls + [first.id];
      }
      assert [first][..0] == [] && calls == Callable([first]);
      for i := 0 to |more|
        invariant calls == Callable([first] + more[..i])
      {
        assert ([first] + more[..i + 1])[..i + 1] == [first] + more[..i];
        if more[i].Handle? {
          calls := calls + [more[i].id];
        }
      }
      assert more[..|more|] == more;
    }

    /** The critical section of registration; `pending` says the handler was stored. */
    method RegisterLocked(h: Handler) returns (pending: bool, r: Result)
      requires Valid()
      modifies this
      ensures Valid()
      ensures pending <==> old(State()).settled.None?
      ensures pending ==> State() == Push(old(State()), h) && Stored(State()) == Stored(old(State())) + Callable([h])
      ensures !pending ==> State() == old(State()) && State().settled == Some(r)
    {
      if !settled {
        PushAppends(State(), h);
        if handlerInline.Empty? {
          handlerInline := h;
        } else {
          handlers := handlers + [h];
        }
        return true, Fulfilled;
      }
      pending, r := false, result;
    }
  }

  // ---- any number of threads settling and registering ----

  /** Where a registration stands.  Registrations are numbered in the order of their critical sections. */
  datatype Place =
    | Waiting   // stored in the state
    | Taken     // moved out by the winning settle, still to be called by it
    | Handing   // registered after the settle; its thread still has to post it
    | Posted    // in a task queue
    | Called
    | Refused   // a layer handler whose executor is unavailable: registration returned false
    | Lost      // a layer handler whose accepted post the gate lost: registration returned true

  /** Whose handler it is: notices and layers of direct kind are posted past the gate. */
  datatype Client = Notice | DirectLayer | GatedLayer

  datatype Registration = Registration(client: Client, place: Place)

  datatype Call = Call(id: nat, r: Result)

  datatype System = System(v: Vars, regs: seq<Registration>, firing: seq<nat>, early: nat, log: seq<Call>)

  datatype Step =
    | SettleWith(r: Result)       // some thread's `Settle` critical section
    | CallNext                    // the winner calls its next handler, outside the lock
    | Register(client: Client)    // some thread's registration critical section
    | RegisterEmpty               // the same with an empty handler
    | Post(id: nat, ok: bool)     // a late registration posts its handler; `ok`: the executor accepts
    | RunPosted(id: nat)
    | Drop(id: nat)               // the gate loses a handler it accepted; the pool itself loses nothing

  ghost predicate Init(s: System) {
    s.v == Vars(None, Empty, []) && s.regs == [] && s.firing == [] && s.early == 0 && s.log == []
  }

  predicate Enabled(s: System, step: Step) {
    match step
    case SettleWith(_) => true
    case CallNext => s.firing != [] && s.firing[0] < |s.regs| && s.v.settled.Some?
    case Register(_) => true
    case RegisterEmpty => true
    case Post(id, _) => id < |s.regs| && s.regs[id].place == Handing && s.v.settled.Some?
    case RunPosted(id) => id < |s.regs| && s.regs[id].place == Posted && s.v.settled.Some?
    case Drop(id) => id < |s.regs| && s.regs[id].place == Posted && s.regs[id].client.GatedLayer? && s.v.settled.Some?
  }

  function Move(s: System, id: nat, p: Place): System
    requires id < |s.regs|
  {
    s.(regs := s.regs[id := s.regs[id].(place := p)])
  }

  function Record(s: System, id: nat): System
    requires id < |s.regs| && s.v.settled.Some?
  {
    Move(s, id, Called).(log := s.log + [Call(id, s.v.settled.value)])
  }

  /** The winning settle takes every stored registration. */
  function TakeAll(regs: seq<Registration>): (r: seq<Registration>)
    ensures |r| == |regs|
    ensures forall i | 0 <= i < |regs| :: r[i] == if regs[i].place.Waiting? then regs[i].(place := Taken) else regs[i]
  {
    if regs == [] then []
    else
      var last := regs[|regs| - 1];
      TakeAll(regs[..|regs| - 1]) + [if last.place.Waiting? then last.(place := Taken) else last]
  }

  function Apply(s: System, step: Step): System
    requires Enabled(s, step)
  {
    match step
    case SettleWith(r) =>
      if s.v.settled.Some? then s
      else s.(v := Vars(Some(r), Empty, []), regs := TakeAll(s.regs), firing := Stored(s.v), early := |s.regs|)
    case CallNext => Record(s, s.firing[0]).(firing := s.firing[1..])
    case Register(client) =>
      if s.v.settled.None? then s.(v := Push(s.v, Handle(|s.regs|)), regs := s.regs + [Registration(client, Waiting)])
      else s.(regs := s.regs + [Registration(client, Handing)])
    case RegisterEmpty => if s.v.settled.None? then s.(v := Push(s.v, Empty)) else s
    case Post(id, ok) =>
      if ok then Move(s, id, Posted)
      else if s.regs[id].client.Notice? then Record(s, id)  // notices are delivered in place
      else Move(s, id, Refused)
    case RunPosted(id) => Record(s, id)
    case Drop(id) => Move(s, id, Lost)
  }

  /** The numbers lo, lo+1, ..., hi-1. */
  function Upto(lo: nat, hi: nat): (r: seq<nat>)
    requires lo <= hi
    ensures |r| == hi - lo && forall j | 0 <= j < |r| :: r[j] == lo + j
    decreases hi
  {
    if lo == hi then [] else Upto(lo, hi - 1) + [hi - 1]
  }

  /** Before the settle everything waits; after it the early ones are called one by one, the others are on their own. */
  ghost predicate FlowOk(s: System) {
    && Wf(s.v)
    && (s.v.settled.None? ==>
          && s.firing == [] && s.log == [] && s.early == 0
          && Stored(s.v) == Upto(0, |s.regs|)
          && forall i | 0 <= i < |s.regs| :: s.regs[i].place == Waiting)
    && (s.v.settled.Some? ==>
          && s.early <= |s.regs| && |s.firing| <= s.early
          && s.firing == Upto(s.early - |s.firing|, s.early)
          && (forall i | 0 <= i < s.early :: s.regs[i].place == if i < s.early - |s.firing| then Called else Taken)
          && (forall i | s.early <= i < |s.regs| :: !s.regs[i].place.Waiting? && !s.regs[i].place.Taken?))
    && (forall i | 0 <= i < |s.regs| && s.regs[i].place.Refused? :: !s.regs[i].client.Notice?)
    && (forall i | 0 <= i < |s.regs| && s.regs[i].place.Lost? :: s.regs[i].client.GatedLayer?)
  }

  /** The log holds one entry for each called handler, with the published result. */
  ghost predicate LogOk(s: System) {
    && (forall k | 0 <= k < |s.log| ::
          s.log[k].id < |s.regs| && s.regs[s.log[k].id].place.Called? && s.v.settled == Some(s.log[k].r))
    && (forall k, l | 0 <= k < l < |s.log| :: s.log[k].id != s.log[l].id)
    && (forall i | 0 <= i < |s.regs| && s.regs[i].place.Called? :: exists k | 0 <= k < |s.log| :: s.log[k].id == i)
  }

  /** The handlers registered before the settle are called in registration order. */
  ghost predicate OrderOk(s: System) {
    forall k, l | 0 <= k < l < |s.log| && s.log[k].id < s.early && s.log[l].id < s.early :: s.log[k].id < s.log[l].id
  }

  ghost predicate Inv(s: System) {
    FlowOk(s) && LogOk(s) && OrderOk(s)
  }

  /** Recording a call of a registration that was not called before. */
  lemma RecordLog(s: System, id: nat)
    requires LogOk(s) && id < |s.regs| && !s.regs[id].place.Called? && s.v.settled.Some?
    ensures LogOk(Record(s, id))
  {
    var s' := Record(s, id);
    assert s'.log[|s.log|].id == id;
    forall i | 0 <= i < |s'.regs| && s'.regs[i].place.Called?
      ensures exists k | 0 <= k < |s'.log| :: s'.log[k].id == i
    {
      if i != id {
        var k :| 0 <= k < |s.log| && s.log[k].id == i;
        assert s'.log[k].id == i;
      }
    }
  }

  lemma RegisterFlow(s: System, client: Client)
    requires FlowOk(s)
    ensures FlowOk(Apply(s, Register(client)))
  {
    if s.v.settled.None? {
      EarlyFlow(s, client);
    } else {
      assert forall i | 0 <= i < |s.regs| :: Apply(s, Register(client)).regs[i] == s.regs[i];
    }
  }

  lemma EarlyFlow(s: System, client: Client)
    requires FlowOk(s) && s.v.settled.None?
    ensures FlowOk(Apply(s, Register(client)))
  {
    var n := |s.regs|;
    PushAppends(s.v, Handle(n));
    assert Callable([Handle(n)]) == [n] by {
      assert [Handle(n)][..0] == [];
    }
    assert Upto(0, n + 1) == Upto(0, n) + [n];
  }

  lemma RegisterLog(s: System, client: Client)
    requires LogOk(s)
    ensures LogOk(Apply(s, Register(client)))
  {
    var s' := Apply(s, Register(client));
    assert s'.log == s.log && |s'.regs| == |s.regs| + 1;
    assert forall i | 0 <= i < |s.regs| :: s'.regs[i] == s.regs[i];
    assert s.log != [] ==> s'.v.settled == s.v.settled;
  }

  lemma RegisterInv(s: System, client: Client)
    requires Inv(s)
    ensures Inv(Apply(s, Register(client)))
  {
    RegisterFlow(s, client);
    RegisterLog(s, client);
    assert Apply(s, Register(client)).log == s.log;
  }

  lemma CallNextFlow(s: System)
    requires FlowOk(s) && Enabled(s, CallNext)
    ensures FlowOk(Apply(s, CallNext))
  {
    assert s.firing[0] == s.early - |s.firing|;
    assert s.firing[1..] == Upto(s.early - |s.firing| + 1, s.early);
  }

  lemma CallNextOrder(s: System)
    requires FlowOk(s) && LogOk(s) && OrderOk(s) && Enabled(s, CallNext)
    ensures OrderOk(Apply(s, CallNext))
  {
    var id := s.firing[0];
    forall k | 0 <= k < |s.log| && s.log[k].id < s.early
      ensures s.log[k].id < id
    {
      assert s.regs[s.log[k].id].place.Called?;
    }
  }

  lemma CallNextInv(s: System)
    requires Inv(s) && Enabled(s, CallNext)
    ensures Inv(Apply(s, CallNext))
  {
    var id := s.firing[0];
    assert id == s.early - |s.firing| && s.regs[id].place == Taken;
    RecordLog(s, id);
    CallNextFlow(s);
    CallNextOrder(s);
    var s1 := Record(s, id);
    assert LogOk(s1.(firing := s.firing[1..]));
  }

  predicate Late(step: Step) {
    step.Post? || step.RunPosted? || step.Drop?
  }

  lemma LateFlow(s: System, step: Step)
    requires FlowOk(s) && Enabled(s, step) && Late(step)
    ensures FlowOk(Apply(s, step)) && step.id >= s.early
  {
    var s' := Apply(s, step);
    assert step.id >= s.early && s'.v == s.v && s'.firing == s.firing && s'.early == s.early;
    assert forall i | 0 <= i < |s.regs| && i != step.id :: s'.regs[i] == s.regs[i];
  }

  lemma LateOrder(s: System, step: Step)
    requires FlowOk(s) && OrderOk(s) && Enabled(s, step) && Late(step)
    ensures OrderOk(Apply(s, step))
  {
    LateFlow(s, step);
  }

  lemma LateInv(s: System, step: Step)
    requires Inv(s) && Enabled(s, step) && Late(step)
    ensures Inv(Apply(s, step))
  {
    LateFlow(s, step);
    LateOrder(s, step);
    if step.RunPosted? || (step.Post? && !step.ok && s.regs[step.id].client.Notice?) {
      RecordLog(s, step.id);
    } else {
      LatePlace(s, step);
    }
  }

  lemma LatePlace(s: System, step: Step)
    requires Inv(s) && Enabled(s, step) && (step.Drop? || (step.Post? && (step.ok || !s.regs[step.id].client.Notice?)))
    ensures LogOk(Apply(s, step))
  {
    var s' := Apply(s, step);
    assert forall i | 0 <= i < |s'.regs| && i != step.id :: s'.regs[i] == s.regs[i];
  }

  lemma StepInv(s: System, step: Step)
    requires Inv(s) && Enabled(s, step)
    ensures Inv(Apply(s, step))
  {
    match step
    case Register(client) => RegisterInv(s, client);
    case RegisterEmpty => PushAppends(s.v, Empty); assert Callable([Empty]) == [];
    case CallNext => CallNextInv(s);
    case Post(_, _) => LateInv(s, step);
    case RunPosted(_) => LateInv(s, step);
    case Drop(_) => LateInv(s, step);
    case SettleWith(_) => SettleInv(s, step);
  }

  lemma SettleInv(s: System, step: Step)
    requires Inv(s) && Enabled(s, step) && step.SettleWith?
    ensures Inv(Apply(s, step))
  {
  }

  predicate Valid(s: System, steps: seq<Step>)
    decreases |steps|
  {
    steps == [] || (Enabled(s, steps[0]) && Valid(Apply(s, steps[0]), steps[1..]))
  }

  function After(s: System, steps: seq<Step>): System
    requires Valid(s, steps)
    decreases |steps|
  {
    if steps == [] then s else After(Apply(s, steps[0]), steps[1..])
  }

  lemma {:induction false} RunKeepsInv(s: System, steps: seq<Step>)
    requires Inv(s) && Valid(s, steps)
    ensures Inv(After(s, steps))
    decreases |steps|
  {
    if steps != [] {
      StepInv(s, steps[0]);
      RunKeepsInv(Apply(s, steps[0]), steps[1..]);
    }
  }

  lemma ReachableInv(s: System, steps: seq<Step>)
    requires Init(s) && Valid(s, steps)
    ensures Inv(After(s, steps))
  {
    assert [Empty] + [] == [Empty] && Callable([Empty]) == [];
    RunKeepsInv(s, steps);
  }

  /**
   Who calls a handler: the winner of the settle, a task queue, or, for a notice that nobody takes, the
   thread that registered it.  Registering and settling themselves call nobody.
   */
  lemma WhoCalls(s: System, step: Step)
    requires Enabled(s, step)
    ensures var s' := Apply(s, step);
            s'.log != s.log ==>
              && |s'.log| == |s.log| + 1 && s'.log[..|s.log|] == s.log
              && var id := s'.log[|s.log|].id;
                 || (step.CallNext? && s.firing != [] && s.firing[0] == id)
                 || step == RunPosted(id)
                 || (step == Post(id, false) && id < |s.regs| && s.regs[id].client.Notice?)
  {
  }

  /** The first settle wins for good: no later step of any thread changes the result. */
  lemma {:induction false} SettledForGood(s: System, steps: seq<Step>)
    requires Valid(s, steps) && s.v.settled.Some?
    ensures After(s, steps).v.settled == s.v.settled
    decreases |steps|
  {
    if steps != [] {
      SettledForGood(Apply(s, steps[0]), steps[1..]);
    }
  }

  /**
   In every interleaving: no handler is called twice, each call gets the published result, and the
   handlers registered before the settle are called in registration order.
   */
  lemma CalledOnceInOrder(s: System, steps: seq<Step>)
    requires Init(s) && Valid(s, steps)
    ensures var e := After(s, steps);
            && (forall k | 0 <= k < |e.log| :: e.v.settled == Some(e.log[k].r))
            && (forall k, l | 0 <= k < l < |e.log| :: e.log[k].id != e.log[l].id)
            && (forall k, l | 0 <= k < l < |e.log| && e.log[k].id < e.early && e.log[l].id < e.early ::
                  e.log[k].id < e.log[l].id)
  {
    ReachableInv(s, steps);
  }

  /** The steps that deliver: calling, posting, running.  Losing a post is not one of them. */
  predicate Delivery(step: Step) {
    step.CallNext? || step.Post? || step.RunPosted?
  }

  /** Once settled and with no delivery left to make. */
  ghost predicate AtRest(s: System) {
    s.v.settled.Some? && forall step | Delivery(step) :: !Enabled(s, step)
  }

  /**
   Nothing is forgotten: at rest each registration was called unless it was refused, which only layer
   handlers are, or lost by the gate, which only handlers of gated layers are; so notices are always
   called, and every registration that returned true is called unless the gate lost its post.
   */
  lemma EveryHandlerDelivered(s: System, steps: seq<Step>, i: nat)
    requires Init(s) && Valid(s, steps) && AtRest(After(s, steps)) && i < |After(s, steps).regs|
    ensures var e := After(s, steps);
            && ((exists k | 0 <= k < |e.log| :: e.log[k].id == i)
                <==> !e.regs[i].place.Refused? && !e.regs[i].place.Lost?)
            && (e.regs[i].place.Refused? ==> !e.regs[i].client.Notice?)
            && (e.regs[i].place.Lost? ==> e.regs[i].client.GatedLayer?)
  {
    ReachableInv(s, steps);
    var e := After(s, steps);
    assert Delivery(CallNext) && Delivery(Post(i, true)) && Delivery(RunPosted(i));
    assert !Enabled(e, CallNext) && !Enabled(e, Post(i, true)) && !Enabled(e, RunPosted(i));
    assert e.firing == [];
  }
}
