/**
 The module manager's lifecycle: bringing all modules up in start order, taking them down in reverse
 registration order, and rolling back when a module fails.
 */
module Lifecycle {
  import opened StartOrder
  import opened StartOrderLaws

  datatype ModuleState = Created | Initialized | Started | Stopped | Shutdown

  /** A call on module i, with the module's answer where it has one. */
  datatype Event =
    | Init(i: nat, ok: bool)
    | Start(i: nat, ok: bool)
    | Stop(i: nat)
    | ShutDown(i: nat)

  function Rank(st: ModuleState): nat {
    match st
    case Created => 0
    case Initialized => 1
    case Started => 2
    case Stopped => 3
    case Shutdown => 4
  }

  // ---- the lifecycle automaton of one module ----

  /** The calls a module in this state may get. */
  predicate Allowed(st: ModuleState, e: Event) {
    match e
    case Init(_, _) => st == Created
    case Start(_, _) => st == Initialized
    case Stop(_) => st == Started
    case ShutDown(_) => st == Initialized || st == Started || st == Stopped
  }

  /** The state after a call; a module that fails stays where it was. */
  function Next(st: ModuleState, e: Event): ModuleState {
    match e
    case Init(_, ok) => if ok then Initialized else st
    case Start(_, ok) => if ok then Started else st
    case Stop(_) => Stopped
    case ShutDown(_) => Shutdown
  }

  predicate InRange(log: seq<Event>, n: nat) {
    forall k | 0 <= k < |log| :: log[k].i < n
  }

  /** The states of n new modules after the calls of a log. */
  function StatesAfter(n: nat, log: seq<Event>): (states: seq<ModuleState>)
    ensures |states| == n
  {
    if log == [] then seq(n, _ => Created)
    else
      var states := StatesAfter(n, log[..|log| - 1]);
      var e := log[|log| - 1];
      if e.i < n then states[e.i := Next(states[e.i], e)] else states
  }

  /** Every call was allowed when it was made. */
  ghost predicate Legal(n: nat, log: seq<Event>) {
    InRange(log, n) && forall k | 0 <= k < |log| :: Allowed(StatesAfter(n, log[..k])[log[k].i], log[k])
  }

  lemma LegalAppend(n: nat, log: seq<Event>, e: Event)
    requires Legal(n, log) && e.i < n && Allowed(StatesAfter(n, log)[e.i], e)
    ensures Legal(n, log + [e])
  {
    forall k | 0 <= k < |log + [e]|
      ensures (log + [e])[..k] == if k < |log| then log[..k] else log
    {}
  }

  lemma {:induction false} RankGrows(n: nat, log: seq<Event>, a: nat, b: nat, i: nat)
    requires Legal(n, log) && a <= b <= |log| && i < n
    ensures Rank(StatesAfter(n, log[..a])[i]) <= Rank(StatesAfter(n, log[..b])[i])
    decreases b - a
  {
    if a < b {
      RankGrows(n, log, a, b - 1, i);
      assert log[..b][..b - 1] == log[..b - 1];
      assert Allowed(StatesAfter(n, log[..b - 1])[log[b - 1].i], log[b - 1]);
    }
  }

  /** The call changed the module's state. */
  predicate Moves(e: Event) {
    e.Stop? || e.ShutDown? || e.ok
  }

  /**
   What a legal log says of one module: a call that moved it is never made again, nothing follows its
   shutdown, and it is stopped only after a successful start.
   */
  lemma LegalOrder(n: nat, log: seq<Event>, a: nat, b: nat)
    requires Legal(n, log) && a < b < |log| && log[a].i == log[b].i
    ensures Moves(log[a]) ==> log[b] != log[a]
    ensures !log[a].ShutDown?
    ensures log[b].Stop? ==> !log[a].Stop? && exists c :: 0 <= c < b && log[c] == Event.Start(log[b].i, true)
  {
    var i := log[a].i;
    assert log[..a + 1][..a] == log[..a];
    RankGrows(n, log, a + 1, b, i);
    assert Allowed(StatesAfter(n, log[..a])[i], log[a]) && Allowed(StatesAfter(n, log[..b])[i], log[b]);
    if log[b].Stop? {
      StartedBefore(n, log, b, i);
    }
  }

  lemma {:induction false} StartedBefore(n: nat, log: seq<Event>, b: nat, i: nat)
    requires Legal(n, log) && b <= |log| && i < n && StatesAfter(n, log[..b])[i] == Started
    ensures exists c :: 0 <= c < b && log[c] == Event.Start(i, true)
    decreases b
  {
    assert b > 0;
    assert log[..b][..b - 1] == log[..b - 1];
    if log[b - 1] != Event.Start(i, true) {
      assert Allowed(StatesAfter(n, log[..b - 1])[log[b - 1].i], log[b - 1]);
      StartedBefore(n, log, b - 1, i);
    }
  }

  // ---- the manager ----

  datatype Vars = Vars(states: seq<ModuleState>, log: seq<Event>)

  ghost predicate Valid(v: Vars) {
    Legal(|v.states|, v.log) && v.states == StatesAfter(|v.states|, v.log)
  }

  function Call(v: Vars, e: Event): Vars
    requires e.i < |v.states|
  {
    Vars(v.states[e.i := Next(v.states[e.i], e)], v.log + [e])
  }

  lemma CallValid(v: Vars, e: Event)
    requires Valid(v) && e.i < |v.states| && Allowed(v.states[e.i], e)
    ensures Valid(Call(v, e))
  {
    LegalAppend(|v.states|, v.log, e);
    assert (v.log + [e])[..|v.log|] == v.log;
  }

  /** A reverse pass over modules i-1, ..., 0: those in one of the states `from` get the call. */
  function Sweep(v: Vars, i: nat, stop: bool, from: set<ModuleState>): (w: Vars)
    requires i <= |v.states|
    ensures |w.states| == |v.states|
    decreases i
  {
    if i == 0 then v
    else if v.states[i - 1] in from
    then Sweep(Call(v, if stop then Stop(i - 1) else ShutDown(i - 1)), i - 1, stop, from)
    else Sweep(v, i - 1, stop, from)
  }

  /** The forward pass from position k of the order, until a module fails. */
  function Up(v: Vars, order: seq<nat>, k: nat, init: bool, answer: nat -> bool): (r: (Vars, bool))
    requires k <= |order| && Below(order, |v.states|)
    ensures |r.0.states| == |v.states|
    decreases |order| - k
  {
    if k == |order| then (v, true)
    else
      var i := order[k];
      if v.states[i] != Waiting(init) then Up(v, order, k + 1, init, answer)
      else if answer(i) then Up(Call(v, Raise(init, i, true)), order, k + 1, init, answer)
      else (Call(v, Raise(init, i, false)), false)
  }

  /** Bringing all up, and what happens on a failure. */
  function InitAll(v: Vars, order: seq<nat>, answer: nat -> bool): (r: (Vars, bool))
    requires Below(order, |v.states|)
  {
    var (w, ok) := Up(v, order, 0, true, answer);
    (if ok then w else Sweep(w, |w.states|, false, {Initialized}), ok)
  }

  function StartUp(v: Vars, order: seq<nat>, answer: nat -> bool): (r: (Vars, bool))
    requires Below(order, |v.states|)
  {
    var (w, ok) := Up(v, order, 0, false, answer);
    (if ok then w else Rollback(w), ok)
  }

  class CModuleManager {
    const modules: seq<StartOrder.Module>
    var states: seq<ModuleState>
    ghost var log: seq<Event>

    constructor (modules: seq<StartOrder.Module>)
      ensures this.modules == modules && |states| == |modules| && Valid(State())
    {
      this.modules := modules;
      states := seq(|modules|, _ => Created);
      log := [];
    }

    ghost function State(): Vars
      reads this
    {
      Vars(states, log)
    }

    /** `answer` tells which modules manage to initialize in this call; `order` is the start order used. */
    method InitializeAll(answer: nat -> bool) returns (ok: bool, ghost order: seq<nat>)
      requires |states| == |modules| && Valid(State())
      modifies this
      ensures |states| == |modules| && Valid(State())
      ensures StartsBy(AllProviders(modules), order)
      ensures (State(), ok) == InitAll(old(State()), order, answer)
    {
      var vecOrder := ComputeStartOrder(modules);
      order := vecOrder;
      ok := BringUp(vecOrder, true, answer);
      if !ok {
        TakeDown(false, {Initialized});
      }
    }

    method StartAll(answer: nat -> bool) returns (ok: bool, ghost order: seq<nat>)
      requires |states| == |modules| && Valid(State())
      modifies this
      ensures |states| == |modules| && Valid(State())
      ensures StartsBy(AllProviders(modules), order)
      ensures (State(), ok) == StartUp(old(State()), order, answer)
    {
      var vecOrder := ComputeStartOrder(modules);
      order := vecOrder;
      ok := BringUp(vecOrder, false, answer);
      if !ok {
        TakeDown(true, {Started});
        TakeDown(false, {Initialized, Stopped});
      }
    }

    method StopAll()
      requires |states| == |modules| && Valid(State())
      modifies this
      ensures |states| == |modules| && Valid(State())
      ensures State() == Sweep(old(State()), |modules|, true, {Started})
    {
      TakeDown(true, {Started});
    }

    method ShutdownAll()
      requires |states| == |modules| && Valid(State())
      modifies this
      ensures |states| == |modules| && Valid(State())
      ensures State() == Sweep(old(State()), |modules|, false, {Initialized, Started, Stopped})
    {
      TakeDown(false, {Initialized, Started, Stopped});
    }

    /** The reverse loop the stopping and rolling-back operations share. */
    method TakeDown(stop: bool, from: set<ModuleState>)
      requires |states| == |modules| && Valid(State())
      requires if stop then from == {Started} else from <= {Initialized, Started, Stopped}
      modifies this
      ensures |states| == |modules| && Valid(State())
      ensures State() == Sweep(old(State()), |modules|, stop, from)
    {
      ghost var before := State();
      var i := |states|;
      while i > 0
        invariant 0 <= i <= |states| == |modules|
        invariant Sweep(State(), i, stop, from) == Sweep(before, |modules|, stop, from)
      {
        if states[i - 1] in from {
          log := log + [if stop then Stop(i - 1) else ShutDown(i - 1)];
          states := states[i - 1 := if stop then Stopped else Shutdown];
        }
        i := i - 1;
      }
      SweepValid(before, |modules|, stop, from);
    }

    /** The forward loop the initializing and starting operations share. */
    method BringUp(order: seq<nat>, init: bool, answer: nat -> bool) returns (ok: bool)
      requires |states| == |modules| && Valid(State()) && Below(order, |modules|)
      modifies this
      ensures |states| == |modules| && Valid(State())
      ensures (State(), ok) == Up(old(State()), order, 0, init, answer)
    {
      ghost var before := State();
      UpValid(before, order, 0, init, answer);
      var k := 0;
      while k < |order|
        invariant 0 <= k <= |order| && |states| == |modules|
        invariant Up(State(), order, k, init, answer) == Up(before, order, 0, init, answer)
      {
        var i := order[k];
        if states[i] == Waiting(init) {
          log := log + [Raise(init, i, answer(i))];
          if !answer(i) {
            assert states[i := states[i]] == states;
            return false;
          }
          states := states[i := if init then Initialized else Started];
        }
        k := k + 1;
      }
      ok := true;
    }
  }

  // ---- what the passes do ----

  /** The calls of a reverse pass, in order. */
  function Swept(states: seq<ModuleState>, i: nat, stop: bool, from: set<ModuleState>): seq<Event>
    requires i <= |states|
    decreases i
  {
    if i == 0 then []
    else if states[i - 1] in from
    then [if stop then Stop(i - 1) else ShutDown(i - 1)] + Swept(states, i - 1, stop, from)
    else Swept(states, i - 1, stop, from)
  }

  /** A reverse pass calls exactly the modules in `from`, the last registered first. */
  lemma {:induction false} SweepLog(v: Vars, i: nat, stop: bool, from: set<ModuleState>)
    requires i <= |v.states|
    ensures Sweep(v, i, stop, from).log == v.log + Swept(v.states, i, stop, from)
    decreases i
  {
    if i > 0 {
      if v.states[i - 1] in from {
        var e := if stop then Stop(i - 1) else ShutDown(i - 1);
        var u := Call(v, e);
        SweepLog(u, i - 1, stop, from);
        SweptSame(v.states, u.states, i - 1, stop, from);
        LogRegroup(v.log, e, Swept(v.states, i - 1, stop, from));
      } else {
        SweepLog(v, i - 1, stop, from);
      }
    }
  }

  lemma LogRegroup(log: seq<Event>, e: Event, rest: seq<Event>)
    ensures log + [e] + rest == log + ([e] + rest)
  {
  }

  /** It moves exactly those. */
  lemma {:induction false} SweepStates(v: Vars, i: nat, stop: bool, from: set<ModuleState>, j: nat)
    requires i <= |v.states| && j < |v.states|
    ensures Sweep(v, i, stop, from).states[j]
         == if j < i && v.states[j] in from then (if stop then Stopped else Shutdown) else v.states[j]
    decreases i
  {
    if i > 0 {
      var v' := if v.states[i - 1] in from then Call(v, if stop then Stop(i - 1) else ShutDown(i - 1)) else v;
      SweepStates(v', i - 1, stop, from, j);
    }
  }

  lemma {:induction false} SweptSame(s: seq<ModuleState>, t: seq<ModuleState>, i: nat, stop: bool,
      from: set<ModuleState>)
    requires i <= |s| == |t| && s[..i] == t[..i]
    ensures Swept(s, i, stop, from) == Swept(t, i, stop, from)
    decreases i
  {
    if i > 0 {
      assert s[..i][i - 1] == t[..i][i - 1];
      assert s[..i][..i - 1] == s[..i - 1] && t[..i][..i - 1] == t[..i - 1];
      SweptSame(s, t, i - 1, stop, from);
    }
  }

  /** The calls on module j in a log. */
  function Project(log: seq<Event>, j: nat): seq<Event> {
    if log == [] then []
    else Project(log[..|log| - 1], j) + if log[|log| - 1].i == j then [log[|log| - 1]] else []
  }

  lemma {:induction false} ProjectAppend(a: seq<Event>, b: seq<Event>, j: nat)
    ensures Project(a + b, j) == Project(a, j) + Project(b, j)
    decreases |b|
  {
    if b == [] {
      assert a + b == a;
    } else {
      assert (a + b)[..|a + b| - 1] == a + b[..|b| - 1];
      ProjectAppend(a, b[..|b| - 1], j);
    }
  }

  lemma {:induction false} ProjectSwept(states: seq<ModuleState>, i: nat, stop: bool, from: set<ModuleState>, j: nat)
    requires i <= |states| && j < |states|
    ensures Project(Swept(states, i, stop, from), j)
         == if j < i && states[j] in from then [if stop then Stop(j) else ShutDown(j)] else []
    decreases i
  {
    if i > 0 {
      ProjectSwept(states, i - 1, stop, from, j);
      if states[i - 1] in from {
        ProjectCons(if stop then Stop(i - 1) else ShutDown(i - 1), Swept(states, i - 1, stop, from), j);
      }
    }
  }

  lemma ProjectCons(e: Event, log: seq<Event>, j: nat)
    ensures Project([e] + log, j) == (if e.i == j then [e] else []) + Project(log, j)
  {
    ProjectOne(e, j);
    ProjectAppend([e], log, j);
  }

  lemma ProjectOne(e: Event, j: nat)
    ensures Project([e], j) == if e.i == j then [e] else []
  {
    assert [e][..0] == [];
    assert Project([], j) == [];
  }

  function Waiting(init: bool): ModuleState {
    if init then Created else Initialized
  }

  function Raise(init: bool, i: nat, ok: bool): (e: Event)
    ensures e.i == i
  {
    if init then Init(i, ok) else Event.Start(i, ok)
  }

  /** The calls of a forward pass. */
  function Raised(states: seq<ModuleState>, order: seq<nat>, k: nat, init: bool, answer: nat -> bool): seq<Event>
    requires k <= |order| && Below(order, |states|)
    decreases |order| - k
  {
    if k == |order| then []
    else if states[order[k]] != Waiting(init) then Raised(states, order, k + 1, init, answer)
    else
      [Raise(init, order[k], answer(order[k]))]
      + if answer(order[k]) then Raised(states, order, k + 1, init, answer) else []
  }

  lemma {:induction false} RaisedSame(s: seq<ModuleState>, t: seq<ModuleState>, order: seq<nat>, k: nat, init: bool,
      answer: nat -> bool)
    requires k <= |order| && Below(order, |s|) && |s| == |t|
    requires forall m | k <= m < |order| :: s[order[m]] == t[order[m]]
    ensures Raised(s, order, k, init, answer) == Raised(t, order, k, init, answer)
    decreases |order| - k
  {
    if k < |order| {
      RaisedSame(s, t, order, k + 1, init, answer);
    }
  }

  lemma {:induction false} UpLog(v: Vars, order: seq<nat>, k: nat, init: bool, answer: nat -> bool)
    requires k <= |order| && Below(order, |v.states|) && Distinct(order)
    ensures Up(v, order, k, init, answer).0.log == v.log + Raised(v.states, order, k, init, answer)
    decreases |order| - k
  {
    if k < |order| {
      var i := order[k];
      var u := if v.states[i] == Waiting(init) then Call(v, Raise(init, i, answer(i))) else v;
      UpLog(u, order, k + 1, init, answer);
      RaisedSame(v.states, u.states, order, k + 1, init, answer);
    }
  }

  /** What a forward pass did to module j: nothing, the one step up, or the one failure. */
  ghost predicate UpCalls(init: bool, before: ModuleState, after: ModuleState, calls: seq<Event>, j: nat) {
    || (calls == [] && after == before)
    || (before == Waiting(init) && calls == [Raise(init, j, true)] && after == if init then Initialized else Started)
    || (before == after == Waiting(init) && calls == [Raise(init, j, false)])
  }

  /** The modules still to visit are as before, those visited no longer wait, unless the pass failed. */
  lemma {:induction false} UpMeans(v: Vars, order: seq<nat>, k: nat, init: bool, answer: nat -> bool, j: nat)
    requires k <= |order| && Below(order, |v.states|) && Distinct(order) && j < |v.states|
    ensures var (w, ok) := Up(v, order, k, init, answer);
            && UpCalls(init, v.states[j], w.states[j], Project(Raised(v.states, order, k, init, answer), j), j)
            && (j !in order[k..]
                ==> w.states[j] == v.states[j] && Project(Raised(v.states, order, k, init, answer), j) == [])
            && (ok && j in order[k..] ==> w.states[j] != Waiting(init))
    decreases |order| - k
  {
    if k < |order| {
      var i := order[k];
      assert order[k..] == [i] + order[k + 1..] && i !in order[k + 1..];
      if v.states[i] != Waiting(init) {
        UpMeans(v, order, k + 1, init, answer, j);
      } else {
        var e := Raise(init, i, answer(i));
        ProjectOne(e, j);
        if answer(i) {
          UpMeans(Call(v, e), order, k + 1, init, answer, j);
          RaisedSame(v.states, Call(v, e).states, order, k + 1, init, answer);
          ProjectAppend([e], Raised(v.states, order, k + 1, init, answer), j);
        } else {
          assert [e] + [] == [e];
        }
      }
    }
  }

  // ---- the promises of the operations ----

  /** A whole reverse pass, seen from module j. */
  lemma SweepFor(v: Vars, stop: bool, from: set<ModuleState>, j: nat)
    requires j < |v.states|
    ensures var n := |v.states|;
            var w := Sweep(v, n, stop, from);
            && w.log == v.log + Swept(v.states, n, stop, from)
            && w.states[j] == (if v.states[j] in from then (if stop then Stopped else Shutdown) else v.states[j])
            && Project(Swept(v.states, n, stop, from), j) ==
               if v.states[j] in from then [if stop then Stop(j) else ShutDown(j)] else []
  {
    SweepLog(v, |v.states|, stop, from);
    SweepStates(v, |v.states|, stop, from, j);
    ProjectSwept(v.states, |v.states|, stop, from, j);
  }

  function Downs(v: Vars): seq<Event> {
    Swept(Sweep(v, |v.states|, true, {Started}).states, |v.states|, false, {Initialized, Stopped})
  }

  function RollbackCalls(v: Vars): seq<Event> {
    Swept(v.states, |v.states|, true, {Started}) + Downs(v)
  }

  /** The rollback of StartAll. */
  function Rollback(v: Vars): (w: Vars)
    ensures |w.states| == |v.states|
  {
    Sweep(Sweep(v, |v.states|, true, {Started}), |v.states|, false, {Initialized, Stopped})
  }

  lemma RollbackLog(v: Vars)
    ensures Rollback(v).log == v.log + RollbackCalls(v)
  {
    SweepLog(v, |v.states|, true, {Started});
    SweepLog(Sweep(v, |v.states|, true, {Started}), |v.states|, false, {Initialized, Stopped});
  }

  /** Its calls, seen from module j. */
  lemma RollbackStarted(v: Vars, j: nat)
    requires j < |v.states|
    ensures Rollback(v).states[j] == if v.states[j] == Created then Created else Shutdown
    ensures Project(RollbackCalls(v), j) == match v.states[j] {
              case Started => [Stop(j), ShutDown(j)]
              case Initialized => [ShutDown(j)]
              case Stopped => [ShutDown(j)]
              case _ => []
            }
  {
    SweepFor(v, true, {Started}, j);
    SweepFor(Sweep(v, |v.states|, true, {Started}), false, {Initialized, Stopped}, j);
    ProjectAppend(Swept(v.states, |v.states|, true, {Started}), Downs(v), j);
  }

  lemma RollbackInitialized(v: Vars, j: nat) returns (calls: seq<Event>)
    requires j < |v.states|
    ensures var w := Sweep(v, |v.states|, false, {Initialized});
            && w.log == v.log + calls
            && w.states[j] == if v.states[j] == Initialized then Shutdown else v.states[j]
    ensures Project(calls, j) == if v.states[j] == Initialized then [ShutDown(j)] else []
  {
    SweepFor(v, false, {Initialized}, j);
    calls := Swept(v.states, |v.states|, false, {Initialized});
  }

  lemma Suffix(log: seq<Event>, a: seq<Event>, b: seq<Event>, j: nat)
    ensures log <= log + a + b && Project((log + a + b)[|log|..], j) == Project(a, j) + Project(b, j)
  {
    assert (log + a + b)[|log|..] == a + b;
    ProjectAppend(a, b, j);
  }

  /**
   A failed StartAll leaves no module half way: whatever was initialized, started or stopped is shut
   down.  In this call, a module that had been started, before or just now, gets one Stop and then one
   Shutdown, all others that were up get one Shutdown, and no module is called after its Shutdown.
   */
  lemma FailedStartRollsBack(v: Vars, order: seq<nat>, answer: nat -> bool, j: nat)
    requires Below(order, |v.states|) && Distinct(order) && j < |v.states|
    requires !StartUp(v, order, answer).1
    ensures v.log <= StartUp(v, order, answer).0.log
    ensures var w := StartUp(v, order, answer).0;
            var calls := Project(w.log[|v.log|..], j);
            && w.states[j] == (if v.states[j] == Created then Created else Shutdown)
            && (v.states[j] == Created || v.states[j] == Shutdown ==> calls == [])
            && (v.states[j] == Started ==> calls == [Stop(j), ShutDown(j)])
            && (v.states[j] == Stopped ==> calls == [ShutDown(j)])
            && (v.states[j] == Initialized ==>
                  || calls == [Event.Start(j, true), Stop(j), ShutDown(j)]
                  || calls == [Event.Start(j, false), ShutDown(j)]
                  || calls == [ShutDown(j)])
  {
    UpLog(v, order, 0, false, answer);
    UpMeans(v, order, 0, false, answer, j);
    var w := Up(v, order, 0, false, answer).0;
    RollbackLog(w);
    RollbackStarted(w, j);
    Suffix(v.log, Raised(v.states, order, 0, false, answer), RollbackCalls(w), j);
  }

  /**
   A failed InitializeAll leaves no module in Initialized; one that was initialized, before or just
   now, gets one Shutdown.  The module that failed stays Created and is not shut down.
   */
  lemma FailedInitRollsBack(v: Vars, order: seq<nat>, answer: nat -> bool, j: nat)
    requires Below(order, |v.states|) && Distinct(order) && j < |v.states|
    requires !InitAll(v, order, answer).1
    ensures v.log <= InitAll(v, order, answer).0.log
    ensures var w := InitAll(v, order, answer).0;
            var calls := Project(w.log[|v.log|..], j);
            && w.states[j] != Initialized
            && (v.states[j] == Initialized ==> w.states[j] == Shutdown && calls == [ShutDown(j)])
            && (v.states[j] == Created ==>
                  || (w.states[j] == Shutdown && calls == [Init(j, true), ShutDown(j)])
                  || (w.states[j] == Created && calls == [Init(j, false)])
                  || (w.states[j] == Created && calls == []))
            && (v.states[j] != Initialized && v.states[j] != Created ==> w.states[j] == v.states[j] && calls == [])
  {
    UpLog(v, order, 0, true, answer);
    UpMeans(v, order, 0, true, answer, j);
    var w := Up(v, order, 0, true, answer).0;
    var rollback := RollbackInitialized(w, j);
    Suffix(v.log, Raised(v.states, order, 0, true, answer), rollback, j);
  }

  /** A successful pass leaves nobody waiting and moves those that waited by one state. */
  lemma SuccessMovesAll(v: Vars, order: seq<nat>, cut: nat, init: bool, answer: nat -> bool, needs: seq<seq<nat>>,
      j: nat)
    requires IsStartOrder(needs, order, cut) && |needs| == |v.states| && j < |v.states|
    requires (if init then InitAll(v, order, answer) else StartUp(v, order, answer)).1
    ensures var w := (if init then InitAll(v, order, answer) else StartUp(v, order, answer)).0;
            w.states[j] ==
            if init && v.states[j] == Created then Initialized
            else if !init && v.states[j] == Initialized then Started
            else v.states[j]
  {
    UpMeans(v, order, 0, init, answer, j);
    assert j in order && order[0..] == order;
  }

  /** The states at the time the pass reaches position m. */
  function Reached(v: Vars, order: seq<nat>, k: nat, m: nat, init: bool, answer: nat -> bool): (r: (Vars, bool))
    requires k <= m <= |order| && Below(order, |v.states|)
    ensures |r.0.states| == |v.states|
    decreases m - k
  {
    Up(v, order[..m], k, init, answer)
  }

  /**
   When an acyclic module is called in a forward pass, none of its providers is still waiting for
   that pass: each has just been brought up, or was not waiting at all.
   */
  lemma ProvidersComeFirst(v: Vars, order: seq<nat>, cut: nat, needs: seq<seq<nat>>, init: bool, answer: nat -> bool,
      m: nat, p: nat)
    requires IsStartOrder(needs, order, cut) && |needs| == |v.states| && m < cut && p in needs[order[m]]
    requires Reached(v, order, 0, m, init, answer).1
    ensures p < |v.states| && Reached(v, order, 0, m, init, answer).0.states[p] != Waiting(init)
  {
    assert ProvidedAt(needs, order[..cut], cut, m);
    assert order[..cut][..m] == order[..m];
    assert p in order[..m];
    var a :| 0 <= a < m && order[..m][a] == p;
    UpMeans(v, order[..m], 0, init, answer, p);
    assert order[..m][0..] == order[..m];
  }

  // ---- any sequence of operations ----

  datatype Operation =
    | DoInitializeAll(answer: nat -> bool)
    | DoStartAll(answer: nat -> bool)
    | DoStopAll
    | DoShutdownAll

  function Perform(v: Vars, order: seq<nat>, op: Operation): (w: Vars)
    requires Below(order, |v.states|)
    ensures |w.states| == |v.states|
  {
    match op
    case DoInitializeAll(answer) => InitAll(v, order, answer).0
    case DoStartAll(answer) => StartUp(v, order, answer).0
    case DoStopAll => Sweep(v, |v.states|, true, {Started})
    case DoShutdownAll => Sweep(v, |v.states|, false, {Initialized, Started, Stopped})
  }

  function Run(v: Vars, order: seq<nat>, ops: seq<Operation>): (w: Vars)
    requires Below(order, |v.states|)
    ensures |w.states| == |v.states|
  {
    if ops == [] then v else Perform(Run(v, order, ops[..|ops| - 1]), order, ops[|ops| - 1])
  }

  lemma {:induction false} SweepValid(v: Vars, i: nat, stop: bool, from: set<ModuleState>)
    requires Valid(v) && i <= |v.states| && if stop then from == {Started} else from <= {Initialized, Started, Stopped}
    ensures Valid(Sweep(v, i, stop, from))
    decreases i
  {
    if i > 0 {
      var e := if stop then Stop(i - 1) else ShutDown(i - 1);
      if v.states[i - 1] in from {
        CallValid(v, e);
        SweepValid(Call(v, e), i - 1, stop, from);
      } else {
        SweepValid(v, i - 1, stop, from);
      }
    }
  }

  lemma {:induction false} UpValid(v: Vars, order: seq<nat>, k: nat, init: bool, answer: nat -> bool)
    requires Valid(v) && k <= |order| && Below(order, |v.states|)
    ensures Valid(Up(v, order, k, init, answer).0)
    decreases |order| - k
  {
    if k < |order| {
      var i := order[k];
      if v.states[i] == Waiting(init) {
        CallValid(v, Raise(init, i, answer(i)));
        UpValid(Call(v, Raise(init, i, answer(i))), order, k + 1, init, answer);
      } else {
        UpValid(v, order, k + 1, init, answer);
      }
    }
  }

  lemma PerformValid(v: Vars, order: seq<nat>, op: Operation)
    requires Valid(v) && Below(order, |v.states|)
    ensures Valid(Perform(v, order, op))
  {
    var n := |v.states|;
    match op
    case DoInitializeAll(answer) =>
      UpValid(v, order, 0, true, answer);
      SweepValid(Up(v, order, 0, true, answer).0, n, false, {Initialized});
    case DoStartAll(answer) =>
      UpValid(v, order, 0, false, answer);
      var w := Up(v, order, 0, false, answer).0;
      SweepValid(w, n, true, {Started});
      SweepValid(Sweep(w, n, true, {Started}), n, false, {Initialized, Stopped});
    case DoStopAll => SweepValid(v, n, true, {Started});
    case DoShutdownAll => SweepValid(v, n, false, {Initialized, Started, Stopped});
  }

  lemma PerformLog(v: Vars, order: seq<nat>, op: Operation)
    requires Below(order, |v.states|) && Distinct(order)
    ensures v.log <= Perform(v, order, op).log
  {
    var n := |v.states|;
    match op
    case DoInitializeAll(answer) =>
      UpLog(v, order, 0, true, answer);
      SweepLog(Up(v, order, 0, true, answer).0, n, false, {Initialized});
    case DoStartAll(answer) =>
      UpLog(v, order, 0, false, answer);
      RollbackLog(Up(v, order, 0, false, answer).0);
    case DoStopAll => SweepLog(v, n, true, {Started});
    case DoShutdownAll => SweepLog(v, n, false, {Initialized, Started, Stopped});
  }

  /**
   Over any sequence of operations with any failures, every call is one the lifecycle allows, the
   states are what the calls made them, and no module's state ever moves back.
   */
  lemma {:induction false} StatesOnlyMoveForward(v: Vars, order: seq<nat>, ops: seq<Operation>, j: nat)
    requires Valid(v) && Below(order, |v.states|) && Distinct(order) && j < |v.states|
    ensures Valid(Run(v, order, ops)) && v.log <= Run(v, order, ops).log
    ensures Rank(v.states[j]) <= Rank(Run(v, order, ops).states[j])
    decreases |ops|
  {
    if ops != [] {
      var u := Run(v, order, ops[..|ops| - 1]);
      StatesOnlyMoveForward(v, order, ops[..|ops| - 1], j);
      PerformValid(u, order, ops[|ops| - 1]);
      PerformLog(u, order, ops[|ops| - 1]);
      ForwardBetween(u, Run(v, order, ops), j);
    }
  }

  lemma ForwardBetween(u: Vars, w: Vars, j: nat)
    requires Valid(u) && Valid(w) && |u.states| == |w.states| && u.log <= w.log && j < |u.states|
    ensures Rank(u.states[j]) <= Rank(w.states[j])
  {
    assert w.log[..|u.log|] == u.log && w.log[..|w.log|] == w.log;
    RankGrows(|u.states|, w.log, |u.log|, |w.log|, j);
  }

  // ---- the order in which modules are stopped ----

  /** In the calls of a reverse pass, module i comes before module j exactly when it was registered later. */
  lemma {:induction false} SweptBefore(states: seq<ModuleState>, n: nat, stop: bool, from: set<ModuleState>, a: nat,
      b: nat)
    requires n <= |states| && a < |Swept(states, n, stop, from)| && b < |Swept(states, n, stop, from)|
    ensures var s := Swept(states, n, stop, from);
            s[a].i < n && (a < b <==> s[b].i < s[a].i)
    decreases n
  {
    if n > 0 {
      var rest := Swept(states, n - 1, stop, from);
      var d := if states[n - 1] in from then 1 else 0;
      if a >= d && b >= d {
        SweptBefore(states, n - 1, stop, from, a - d, b - d);
      } else if a >= d {
        SweptBefore(states, n - 1, stop, from, a - d, a - d);
      } else if b >= d {
        SweptBefore(states, n - 1, stop, from, b - d, b - d);
      }
    }
  }

  lemma {:induction false} SweptHas(states: seq<ModuleState>, n: nat, stop: bool, from: set<ModuleState>, j: nat)
    returns (a: nat)
    requires j < n <= |states| && states[j] in from
    ensures a < |Swept(states, n, stop, from)| && Swept(states, n, stop, from)[a].i == j
    decreases n
  {
    if j == n - 1 {
      a := 0;
    } else {
      var b := SweptHas(states, n - 1, stop, from, j);
      a := b + if states[n - 1] in from then 1 else 0;
    }
  }

  lemma {:induction false} SweptAre(states: seq<ModuleState>, n: nat, stop: bool, from: set<ModuleState>, a: nat)
    requires n <= |states| && a < |Swept(states, n, stop, from)|
    ensures var e := Swept(states, n, stop, from)[a]; e.i < n && states[e.i] in from
    decreases n
  {
    if n > 0 {
      var d := if states[n - 1] in from then 1 else 0;
      if a >= d {
        SweptAre(states, n - 1, stop, from, a - d);
      }
    }
  }

  /** No started module is stopped before one that needs it. */
  ghost predicate DependentsFirst(needs: seq<seq<nat>>, stops: seq<Event>) {
    forall a, b | 0 <= a < |stops| && 0 <= b < |stops| && stops[a].i < |needs|
                && stops[b].i in needs[stops[a].i] && stops[a].i != stops[b].i :: a < b
  }

  /** Every started provider of a started module was registered before it. */
  ghost predicate RegisteredInOrder(needs: seq<seq<nat>>, states: seq<ModuleState>)
    requires |needs| == |states|
  {
    forall v, p | 0 <= v < |states| && p in needs[v] && p < |states| && states[v] == Started && states[p] == Started ::
          p <= v
  }

  /** StopAll goes by registration, not by dependency: it stops dependents first exactly when they agree. */
  lemma StopOrderIff(needs: seq<seq<nat>>, states: seq<ModuleState>)
    requires |needs| == |states|
    ensures DependentsFirst(needs, Swept(states, |states|, true, {Started})) <==> RegisteredInOrder(needs, states)
  {
    var n := |states|;
    var stops := Swept(states, n, true, {Started});
    if DependentsFirst(needs, stops) {
      forall v, p | 0 <= v < n && p in needs[v] && p < n && states[v] == Started && states[p] == Started
        ensures p <= v
      {
        var a := SweptHas(states, n, true, {Started}, v);
        var b := SweptHas(states, n, true, {Started}, p);
        SweptBefore(states, n, true, {Started}, a, b);
      }
    }
    if RegisteredInOrder(needs, states) {
      forall a, b | 0 <= a < |stops| && 0 <= b < |stops| && stops[a].i < |needs|
                && stops[b].i in needs[stops[a].i] && stops[a].i != stops[b].i
        ensures a < b
      {
        SweptAre(states, n, true, {Started}, a);
        SweptAre(states, n, true, {Started}, b);
        SweptBefore(states, n, true, {Started}, a, b);
      }
    }
  }

  /** A module that needs an interface, registered before the module that provides it. */
  function DependentFirst(): seq<StartOrder.Module> {
    [StartOrder.Module(2, [1]), StartOrder.Module(1, [])]
  }

  lemma DependentFirstNeeds()
    ensures AllProviders(DependentFirst()) == [[1], []]
  {
    var ms := DependentFirst();
    assert FirstWith(ms, 1, 0) == Nobody && FirstWith(ms, 1, 1) == Nobody && FirstWith(ms, 1, 2) == Known(1);
    assert Resolved(ms, 0, 0) == [] && Resolved(ms, 0, 1) == [1];
    assert AllProviders(ms)[1] == [];
  }

  /** Their start order: the provider comes first. */
  lemma DependentFirstOrder(order: seq<nat>)
    requires StartsBy(AllProviders(DependentFirst()), order)
    ensures order == [1, 0]
  {
    DependentFirstNeeds();
    ProviderFirst([[1], []], [1, 0]);
    var cut: nat :| IsStartOrder([[1], []], order, cut);
    StartOrderUnique([[1], []], order, cut, [1, 0], 2);
  }

  lemma ProviderFirst(needs: seq<seq<nat>>, e: seq<nat>)
    requires needs == [[1], []] && e == [1, 0]
    ensures IsStartOrder(needs, e, 2)
  {
    assert e[..2] == e && e[..1] == [1];
    assert ProvidedAt(needs, e, 2, 0) && ProvidedAt(needs, e, 2, 1);
    assert Release([], e, 2) == 0 && Release([1], e, 1) == 1 && Release([1], e, 2) == 1;
    ProvidedAreAcyclic(needs, e);
  }

  /** One forward pass in which both modules wait and both succeed. */
  lemma BothComeUp(v: Vars, init: bool, answer: nat -> bool)
    requires v.states == [Waiting(init), Waiting(init)] && answer(0) && answer(1)
    ensures var next := if init then Initialized else Started;
            Up(v, [1, 0], 0, init, answer) ==
            (Vars([next, next], v.log + [Raise(init, 1, true), Raise(init, 0, true)]), true)
  {
    var next := if init then Initialized else Started;
    var v1 := Call(v, Raise(init, 1, true));
    var v2 := Call(v1, Raise(init, 0, true));
    assert v1.states == [Waiting(init), next] && v2.states == [next, next];
    assert v2.log == v.log + [Raise(init, 1, true), Raise(init, 0, true)];
    assert Up(v2, [1, 0], 2, init, answer) == (v2, true);
    assert Up(v1, [1, 0], 1, init, answer) == (v2, true);
  }

  /** Both are stopped, the one registered last first. */
  lemma BothStop(v: Vars)
    requires v.states == [Started, Started]
    ensures Sweep(v, 2, true, {Started}).log == v.log + [Stop(1), Stop(0)]
  {
    SweepLog(v, 2, true, {Started});
    assert Swept(v.states, 0, true, {Started}) == [];
    assert Swept(v.states, 1, true, {Started}) == [Stop(0)];
    assert Swept(v.states, 2, true, {Started}) == [Stop(1), Stop(0)];
  }

  /**
   Those two modules, brought up in their start order without a failure, are stopped against it: the
   provider first, and the module that needs it afterwards.
   */
  lemma StopOrderCanBreak(order: seq<nat>, answer: nat -> bool)
    requires StartsBy(AllProviders(DependentFirst()), order) && answer(0) && answer(1)
    ensures order == [1, 0]
    ensures var up := InitAll(Vars([Created, Created], []), order, answer).0;
            var started := StartUp(up, order, answer).0;
            && started.states == [Started, Started]
            && Sweep(started, 2, true, {Started}).log == started.log + [Stop(1), Stop(0)]
            && !DependentsFirst(AllProviders(DependentFirst()), [Stop(1), Stop(0)])
  {
    DependentFirstOrder(order);
    DependentFirstNeeds();
    var v := Vars([Created, Created], []);
    BothComeUp(v, true, answer);
    BothComeUp(Up(v, order, 0, true, answer).0, false, answer);
    BothStop(Up(Up(v, order, 0, true, answer).0, order, 0, false, answer).0);
    StopsBackwards([[1], []], [Stop(1), Stop(0)]);
  }

  lemma StopsBackwards(needs: seq<seq<nat>>, stops: seq<Event>)
    requires needs == [[1], []] && stops == [Stop(1), Stop(0)]
    ensures !DependentsFirst(needs, stops)
  {
    assert stops[1].i == 0 && stops[0].i in needs[stops[1].i];
  }
}
