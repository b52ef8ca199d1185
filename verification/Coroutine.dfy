/**
 Stackless coroutines: a body cut into segments by awaits.  Any number of callbacks of the awaited
 promises run at once, each atomic operation being one step; whoever finds itself last resumes the body.
 */
module Coroutine {
  import opened Basics
  import opened PromiseResults

  /** The number of a resumption point; 0 is the start of the body. */
  type Point = n: nat | 0 < n witness 1

  type Count = n: nat | 0 < n witness 1

  /** The coroutine's own fields, with the number of times anybody called settle. */
  datatype Hot = Hot(step: nat, terminated: bool, code: Result, settled: Option<Result>, settles: nat)

  /** Settling the completion state: the first one counts. */
  function Settle(h: Hot, r: Result): Hot {
    h.(settled := if h.settled.Some? then h.settled else Some(r), settles := h.settles + 1)
  }

  /** Marking as terminated and settling at once: nothing will resume the body. */
  function Terminate(h: Hot, r: Result): Hot {
    Settle(h.(code := r, terminated := true), r)
  }

  /** The head of the body: the check behind a resumption point; the start has none. */
  predicate CutAtHead(h: Hot) {
    h.step != 0 && h.terminated
  }

  class CCoroutine {
    var step: nat
    var terminated: bool
    var code: Result
    var settled: Option<Result>
    ghost var settles: nat

    constructor ()
      ensures State() == Hot(0, false, Fulfilled, None, 0)
    {
      step, terminated, code, settled, settles := 0, false, Fulfilled, None, 0;
    }

    ghost function State(): Hot
      reads this
    {
      Hot(step, terminated, code, settled, settles)
    }

    method CompleteResult(r: Result)
      modifies this
      ensures State() == Settle(old(State()), r)
    {
      if settled.None? {
        settled := Some(r);
      }
      settles := settles + 1;
    }

    method MarkTerminated(r: Result)
      modifies this
      ensures State() == old(State()).(code := r, terminated := true)
    {
      code := r;
      terminated := true;
    }

    method TerminateNow(r: Result)
      modifies this
      ensures State() == Terminate(old(State()), r)
    {
      MarkTerminated(r);
      CompleteResult(r);
    }

    /** Entering the body: where it goes on, or nothing when it was cut and has completed. */
    method EnterBody() returns (point: Option<nat>)
      modifies this
      ensures point == if CutAtHead(old(State())) then None else Some(old(step))
      ensures State() == if point.Some? then old(State()) else Settle(old(State()), old(code))
    {
      if step != 0 && terminated {
        CompleteResult(code);
        return None;
      }
      return Some(step);
    }
  }

  /** Where the callback of one awaited promise stands. */
  datatype Kid =
    | Unregistered
    | Waiting
    | Arrived(r: Result)
    | Won(r: Result)       // it swapped the rejection flag and still has to write its result
    | Counting(r: Result)
    | Deciding(r: Result)  // its decrement reached zero
    | Marking(r: Result, code: Result)  // about to write the termination result
    | Flagging(r: Result)  // about to publish it
    | Over(r: Result)

  /** One await: its group counters, and the rejected children in the order of their swaps. */
  datatype Group = Group(point: Point, all: bool, kids: seq<Kid>, pending: int, rejected: bool, first: Result,
      arrivals: seq<nat>)

  predicate Open(k: Kid) {
    k.Unregistered? || k.Waiting? || k.Arrived? || k.Won? || k.Counting?
  }

  predicate Closing(k: Kid) {
    k.Deciding? || k.Marking? || k.Flagging?
  }

  predicate PastSwap(k: Kid) {
    !k.Unregistered? && !k.Waiting? && !k.Arrived?
  }

  /** A callback that can go on by itself. */
  predicate Moving(k: Kid) {
    k.Arrived? || k.Won? || k.Counting? || Closing(k)
  }

  /** One atomic operation of callback i on its group. */
  function Advance(g: Group, i: nat): Group
    requires i < |g.kids| && Moving(g.kids[i])
  {
    var r := g.kids[i].r;
    match g.kids[i]
    case Arrived(_) =>
      var to := if r.Rejected? then g.(arrivals := g.arrivals + [i]) else g;
      if !g.all then to.(kids := g.kids[i := if r.Rejected? then Marking(r, r) else Deciding(r)])
      else if r.Rejected? && !g.rejected then to.(rejected := true, kids := g.kids[i := Won(r)])
      else to.(kids := g.kids[i := Counting(r)])
    case Won(_) => g.(first := r, kids := g.kids[i := Counting(r)])
    case Counting(_) => g.(pending := g.pending - 1,
                           kids := g.kids[i := if g.pending == 1 then Deciding(r) else Over(r)])
    case Deciding(_) => g.(kids := g.kids[i := if g.all && g.rejected then Marking(r, g.first) else Over(r)])
    case Marking(_, code) => g.(kids := g.kids[i := Flagging(r)])
    case Flagging(_) => g.(kids := g.kids[i := Over(r)])
  }

  /** This operation of callback i is the last one: it goes on to resume the body. */
  predicate HandsOver(g: Group, i: nat)
    requires i < |g.kids| && Moving(g.kids[i])
  {
    Closing(g.kids[i]) && Advance(g, i).kids[i].Over?
  }

  /** The result an await stands for: that of the first child to swap the flag, or fulfilled. */
  function Verdict(g: Group): Result {
    if g.arrivals == [] || g.arrivals[0] >= |g.kids| || !PastSwap(g.kids[g.arrivals[0]]) then Fulfilled
    else g.kids[g.arrivals[0]].r
  }

  predicate Closed(g: Group) {
    forall i | 0 <= i < |g.kids| :: g.kids[i].Over?
  }

  /** The counters of an await-all, as an object; a callback that nobody disturbs is one call. */
  class CAwaitAllGroup {
    var pending: int
    var rejected: bool
    var first: Result

    constructor (n: int)
      ensures pending == n && !rejected && first == Fulfilled
    {
      pending, rejected, first := n, false, Fulfilled;
    }

    /** The callback of child i; `mark` is the result to terminate with, when `last`. */
    method OnAwaitDone(ghost g: Group, ghost i: nat, result: Result) returns (last: bool, mark: Option<Result>)
      requires g.all && i < |g.kids| && g.kids[i] == Arrived(result)
      requires pending == g.pending && rejected == g.rejected && first == g.first
      modifies this
      ensures var g' := Undisturbed(g, i);
              && pending == g'.pending && rejected == g'.rejected && first == g'.first
              && last == Closing(g'.kids[i])
              && mark == if last && g'.kids[i].Marking? then Some(g'.kids[i].code) else None
    {
      if result.Rejected? {
        if !rejected {
          rejected := true;
          first := result;
        }
      }
      last, mark := pending == 1, None;
      pending := pending - 1;
      if last && rejected {
        mark := Some(first);
      }
    }
  }

  /** Callback i of an await-all from its arrival up to the decision what to do, without interruption. */
  function Undisturbed(g: Group, i: nat): (g': Group)
    requires g.all && i < |g.kids| && g.kids[i].Arrived?
    ensures |g'.kids| == |g.kids|
  {
    var swapped := Advance(g, i);
    var written := if swapped.kids[i].Won? then Advance(swapped, i) else swapped;
    var counted := Advance(written, i);
    if counted.kids[i].Deciding? && counted.rejected then Advance(counted, i) else counted
  }

  // ---- the whole coroutine ----

  /** How an execution of the body ends. */
  datatype How = Suspended | Returned(r: Result) | Threw(reason: Reason) | Stopped | Cut

  datatype Thread =
    | Resuming                           // about to run the body in place or to post it
    | Ready                              // called in place, or in the executor's queue
    | Inside                             // running a segment
    | Registering(group: nat, next: nat) // in an await, registering callbacks one by one
    | Left(how: How)

  /** What a segment does last. */
  datatype Ending =
    | AwaitOne(point: Point)
    | AwaitAll(point: Point, n: Count)
    | Return(r: Result)
    | Throw(reason: Reason)

  /** One entry of `threads` per time the body is resumed, one of `segments` per segment begun. */
  datatype State = State(hot: Hot, groups: seq<Group>, threads: seq<Thread>, segments: seq<nat>)

  datatype Step =
    | Dispatch(t: nat, ok: bool)  // `ok`: the executor is there and takes the task
    | Enter(t: nat)
    | End(t: nat, ending: Ending)
    | Register(t: nat)
    | KidSettles(g: nat, i: nat, r: Result)
    | KidMoves(g: nat, i: nat)

  predicate Init(s: State) {
    s == State(Hot(0, false, Fulfilled, None, 0), [], [Resuming], [])
  }

  predicate KidIs(s: State, g: nat, i: nat) {
    g < |s.groups| && i < |s.groups[g].kids|
  }

  predicate Enabled(s: State, step: Step) {
    match step
    case Dispatch(t, _) => t < |s.threads| && s.threads[t].Resuming?
    case Enter(t) => t < |s.threads| && s.threads[t].Ready?
    case End(t, _) => t < |s.threads| && s.threads[t].Inside?
    case Register(t) => t < |s.threads| && s.threads[t].Registering? && KidIs(s, s.threads[t].group, s.threads[t].next)
    case KidSettles(g, i, _) => KidIs(s, g, i) && s.groups[g].kids[i].Waiting?
    case KidMoves(g, i) => KidIs(s, g, i) && Moving(s.groups[g].kids[i])
  }

  function SetThread(s: State, t: nat, x: Thread): State
    requires t < |s.threads|
  {
    s.(threads := s.threads[t := x])
  }

  function SetKid(s: State, g: nat, i: nat, k: Kid): State
    requires KidIs(s, g, i)
  {
    s.(groups := s.groups[g := s.groups[g].(kids := s.groups[g].kids[i := k])])
  }

  function Fresh(n: nat): (r: seq<Kid>)
    ensures |r| == n && forall i | 0 <= i < n :: r[i] == Unregistered
  {
    if n == 0 then [] else Fresh(n - 1) + [Unregistered]
  }

  function NewGroup(point: Point, all: bool, n: Count): Group {
    Group(point, all, Fresh(n), n, false, Fulfilled, [])
  }

  function Suspend(s: State, t: nat, g: Group): State
    requires t < |s.threads|
  {
    SetThread(s, t, Registering(|s.groups|, 0)).(hot := s.hot.(step := g.point), groups := s.groups + [g])
  }

  function Apply(s: State, step: Step): State
    requires Enabled(s, step)
  {
    match step
    case Dispatch(t, ok) =>
      if ok then SetThread(s, t, Ready)
      else SetThread(s, t, Left(Stopped)).(hot := Terminate(s.hot, Rejected(ExecutorStopped)))
    case Enter(t) =>
      if CutAtHead(s.hot) then SetThread(s, t, Left(Cut)).(hot := Settle(s.hot, s.hot.code))
      else SetThread(s, t, Inside).(segments := s.segments + [s.hot.step])
    case End(t, ending) =>
      (match ending
       case AwaitOne(point) => Suspend(s, t, NewGroup(point, false, 1))
       case AwaitAll(point, n) => Suspend(s, t, NewGroup(point, true, n))
       case Return(r) => SetThread(s, t, Left(Returned(r))).(hot := Settle(s.hot, r))
       case Throw(reason) => SetThread(s, t, Left(Threw(reason))).(hot := Terminate(s.hot, Rejected(reason))))
    case Register(t) =>
      var Registering(g, i) := s.threads[t];
      var last := i + 1 == |s.groups[g].kids|;
      SetThread(SetKid(s, g, i, Waiting), t, if last then Left(Suspended) else Registering(g, i + 1))
    case KidSettles(g, i, r) => SetKid(s, g, i, Arrived(r))
    case KidMoves(g, i) =>
      var group := s.groups[g];
      var hot := match group.kids[i] {
        case Marking(_, code) => s.hot.(code := code)
        case Flagging(_) => s.hot.(terminated := true)
        case _ => s.hot
      };
      var threads := if HandsOver(group, i) then s.threads + [Resuming] else s.threads;
      s.(groups := s.groups[g := Advance(group, i)], hot := hot, threads := threads)
  }

  // ---- one await ----

  function OpenCount(kids: seq<Kid>): nat {
    if kids == [] then 0
    else OpenCount(kids[..|kids| - 1]) + if Open(kids[|kids| - 1]) then 1 else 0
  }

  lemma {:induction false} OpenCountUpdate(kids: seq<Kid>, i: nat, k: Kid)
    requires i < |kids|
    ensures OpenCount(kids[i := k]) == OpenCount(kids) - (if Open(kids[i]) then 1 else 0) + (if Open(k) then 1 else 0)
    decreases |kids|
  {
    var n := |kids| - 1;
    if i < n {
      OpenCountUpdate(kids[..n], i, k);
      assert kids[i := k][..n] == kids[..n][i := k];
    } else {
      assert kids[i := k][..n] == kids[..n];
    }
  }

  lemma {:induction false} OpenCountPositive(kids: seq<Kid>, i: nat)
    requires i < |kids| && Open(kids[i])
    ensures OpenCount(kids) >= 1
    ensures OpenCount(kids) == 1 ==> forall j | 0 <= j < |kids| && j != i :: !Open(kids[j])
    decreases |kids|
  {
    var n := |kids| - 1;
    if i < n {
      OpenCountPositive(kids[..n], i);
      assert forall j | 0 <= j < n :: kids[..n][j] == kids[j];
    } else {
      forall j | 0 <= j < n && Open(kids[j])
        ensures OpenCount(kids) > 1
      {
        OpenCountPositive(kids[..n], j);
      }
    }
  }

  lemma {:induction false} OpenCountFresh(n: nat)
    ensures OpenCount(Fresh(n)) == n
  {
    if n > 0 {
      OpenCountFresh(n - 1);
      assert Fresh(n)[..n - 1] == Fresh(n - 1);
    }
  }

  /** The first `regs` children are registered. */
  ghost predicate Registered(g: Group, regs: nat) {
    && (g.all || |g.kids| == 1)
    && 0 < |g.kids|
    && forall i | 0 <= i < |g.kids| :: g.kids[i].Unregistered? <==> i >= regs
  }

  /** `arrivals` lists the rejected children that have swapped, each once. */
  ghost predicate ListOk(g: Group) {
    && (forall k | 0 <= k < |g.arrivals| ::
          g.arrivals[k] < |g.kids| && PastSwap(g.kids[g.arrivals[k]]) && g.kids[g.arrivals[k]].r.Rejected?)
    && (forall i | 0 <= i < |g.kids| && PastSwap(g.kids[i]) && g.kids[i].r.Rejected? :: i in g.arrivals)
    && (forall k, l | 0 <= k < l < |g.arrivals| :: g.arrivals[k] != g.arrivals[l])
  }

  /** The first of them owns the group's result, which is written once it has moved on. */
  ghost predicate OwnerOk(g: Group) {
    && (g.all ==> (g.rejected <==> g.arrivals != []))
    && (forall i | 0 <= i < |g.kids| && g.kids[i].Won? :: g.all && g.arrivals != [] && i == g.arrivals[0])
    && (g.all && g.arrivals != [] && g.arrivals[0] < |g.kids| && !g.kids[g.arrivals[0]].Won? ==> g.first == Verdict(g))
  }

  ghost predicate SwapOk(g: Group) {
    ListOk(g) && OwnerOk(g)
  }

  /** The counter counts the open callbacks. */
  ghost predicate PendingOk(g: Group) {
    g.all ==> g.pending == OpenCount(g.kids)
  }

  /** Whoever closes is alone; a single await knows no swap and no count. */
  ghost predicate AloneOk(g: Group) {
    && (forall i, j | 0 <= i < |g.kids| && 0 <= j < |g.kids| && i != j && Closing(g.kids[i]) :: g.kids[j].Over?)
    && (forall i | 0 <= i < |g.kids| :: !g.all ==> !g.kids[i].Won? && !g.kids[i].Counting?)
  }

  ghost predicate CountOk(g: Group) {
    PendingOk(g) && AloneOk(g)
  }

  /** A closing callback carries the verdict; fulfilled ones have nothing to mark. */
  ghost predicate MarkOk(g: Group) {
    && (forall i | 0 <= i < |g.kids| && g.kids[i].Marking? :: g.kids[i].code == Verdict(g) && Verdict(g).Rejected?)
    && (forall i | 0 <= i < |g.kids| && g.kids[i].Flagging? :: Verdict(g).Rejected?)
    && (forall i | 0 <= i < |g.kids| && g.kids[i].Deciding? && !g.all :: Verdict(g).Fulfilled?)
  }

  ghost predicate GroupOk(g: Group, regs: nat) {
    Registered(g, regs) && SwapOk(g) && CountOk(g) && MarkOk(g)
  }

  lemma NewGroupOk(point: Point, all: bool, n: Count)
    requires all || n == 1
    ensures GroupOk(NewGroup(point, all, n), 0) && !Closed(NewGroup(point, all, n))
  {
    OpenCountFresh(n);
    UntouchedOk(NewGroup(point, all, n), Fresh(n));
  }

  /** Nobody is registered yet. */
  lemma UntouchedOk(g: Group, kids: seq<Kid>)
    requires g.kids == kids != [] && forall i | 0 <= i < |kids| :: kids[i].Unregistered?
    requires g.arrivals == [] && !g.rejected && g.pending == OpenCount(kids) && (g.all || |kids| == 1)
    ensures GroupOk(g, 0) && !Closed(g)
  {
    assert kids[0].Unregistered?;
  }

  /** Registering the next child, or the settling of a registered one. */
  lemma KidUpdateOk(g: Group, regs: nat, i: nat, k: Kid, regs': nat)
    requires GroupOk(g, regs) && i < |g.kids| && Open(g.kids[i]) && !PastSwap(g.kids[i])
    requires Open(k) && !PastSwap(k) && !k.Unregistered?
    requires regs' == (if g.kids[i].Unregistered? then regs + 1 else regs) && (g.kids[i].Unregistered? ==> i == regs)
    ensures GroupOk(g.(kids := g.kids[i := k]), regs') && !Closed(g.(kids := g.kids[i := k]))
    ensures Verdict(g.(kids := g.kids[i := k])) == Verdict(g)
  {
    OpenCountUpdate(g.kids, i, k);
    var g' := g.(kids := g.kids[i := k]);
    assert Verdict(g') == Verdict(g);
    assert !g'.kids[i].Over?;
    assert SwapOk(g');
  }

  /** Callback i changes, with the same result, if it had one that counted. */
  ghost predicate OneKid(g: Group, g': Group, i: nat) {
    && i < |g.kids| == |g'.kids| && g'.all == g.all
    && (forall j | 0 <= j < |g.kids| && j != i :: g'.kids[j] == g.kids[j])
    && PastSwap(g'.kids[i])
  }

  lemma AdvanceOneKid(g: Group, i: nat)
    requires i < |g.kids| && Moving(g.kids[i])
    ensures OneKid(g, Advance(g, i), i) && Advance(g, i).kids[i].r == g.kids[i].r
    ensures Advance(g, i).arrivals ==
              if g.kids[i].Arrived? && g.kids[i].r.Rejected? then g.arrivals + [i] else g.arrivals
  {
  }

  lemma ListArrived(g: Group, g': Group, i: nat)
    requires ListOk(g) && i < |g.kids| && g.kids[i].Arrived? && OneKid(g, g', i) && g'.kids[i].r == g.kids[i].r
    requires g'.arrivals == if g.kids[i].r.Rejected? then g.arrivals + [i] else g.arrivals
    ensures ListOk(g') && i !in g.arrivals
    ensures g.arrivals != [] ==> Verdict(g') == Verdict(g)
  {
    assert i !in g.arrivals;
    if g.kids[i].r.Rejected? {
      assert g'.arrivals[|g.arrivals|] == i;
    }
    assert g.arrivals != [] ==> g'.arrivals[0] == g.arrivals[0] && g.arrivals[0] != i;
  }

  lemma OwnerArrived(g: Group, i: nat)
    requires ListOk(g) && OwnerOk(g) && i < |g.kids| && g.kids[i].Arrived? && (g.all || |g.kids| == 1)
    requires i !in g.arrivals
    requires g.arrivals != [] ==> Verdict(Advance(g, i)) == Verdict(g)
    ensures OwnerOk(Advance(g, i))
  {
    AdvanceOneKid(g, i);
    assert g.arrivals != [] ==> Advance(g, i).arrivals[0] == g.arrivals[0] && g.arrivals[0] != i;
  }

  lemma ListLater(g: Group, g': Group, i: nat)
    requires ListOk(g) && i < |g.kids| && PastSwap(g.kids[i]) && OneKid(g, g', i) && g'.kids[i].r == g.kids[i].r
    requires g'.arrivals == g.arrivals
    ensures ListOk(g') && Verdict(g') == Verdict(g)
  {
  }

  lemma OwnerLater(g: Group, i: nat)
    requires ListOk(g) && OwnerOk(g) && i < |g.kids| && Moving(g.kids[i]) && !g.kids[i].Arrived?
    requires Verdict(Advance(g, i)) == Verdict(g)
    ensures OwnerOk(Advance(g, i))
  {
    AdvanceOneKid(g, i);
  }

  lemma AdvanceSwap(g: Group, regs: nat, i: nat)
    requires SwapOk(g) && Registered(g, regs) && i < |g.kids| && Moving(g.kids[i])
    ensures SwapOk(Advance(g, i))
    ensures g.arrivals != [] || !g.kids[i].Arrived? ==> Verdict(Advance(g, i)) == Verdict(g)
  {
    AdvanceOneKid(g, i);
    if g.kids[i].Arrived? {
      ListArrived(g, Advance(g, i), i);
      OwnerArrived(g, i);
    } else {
      ListLater(g, Advance(g, i), i);
      OwnerLater(g, i);
    }
  }

  lemma AdvancePending(g: Group, i: nat)
    requires PendingOk(g) && AloneOk(g) && i < |g.kids| && Moving(g.kids[i])
    ensures PendingOk(Advance(g, i))
  {
    var g' := Advance(g, i);
    OpenCountUpdate(g.kids, i, g'.kids[i]);
    assert g'.kids == g.kids[i := g'.kids[i]];
  }

  lemma AdvanceAlone(g: Group, regs: nat, i: nat)
    requires Registered(g, regs) && PendingOk(g) && AloneOk(g) && i < |g.kids| && Moving(g.kids[i])
    ensures AloneOk(Advance(g, i)) && Registered(Advance(g, i), regs)
  {
    AdvanceOneKid(g, i);
    if Open(g.kids[i]) {
      OpenCountPositive(g.kids, i);
    }
  }

  lemma AdvanceCount(g: Group, regs: nat, i: nat)
    requires Registered(g, regs) && CountOk(g) && i < |g.kids| && Moving(g.kids[i])
    ensures CountOk(Advance(g, i)) && Registered(Advance(g, i), regs)
  {
    AdvancePending(g, i);
    AdvanceAlone(g, regs, i);
  }

  /** While callback i moves, no other one closes. */
  lemma OthersDoNotClose(g: Group, i: nat)
    requires AloneOk(g) && i < |g.kids| && Moving(g.kids[i])
    ensures forall j | 0 <= j < |g.kids| && j != i :: !Closing(g.kids[j]) && Advance(g, i).kids[j] == g.kids[j]
  {
    AdvanceOneKid(g, i);
  }

  /** What the moving callback itself has to carry. */
  ghost predicate MarkAt(g: Group, i: nat)
    requires i < |g.kids|
  {
    && (g.kids[i].Marking? ==> g.kids[i].code == Verdict(g) && Verdict(g).Rejected?)
    && (g.kids[i].Flagging? ==> Verdict(g).Rejected?)
    && (g.kids[i].Deciding? && !g.all ==> Verdict(g).Fulfilled?)
  }

  lemma AdvanceMarkAt(g: Group, regs: nat, i: nat)
    requires GroupOk(g, regs) && i < |g.kids| && Moving(g.kids[i])
    ensures MarkAt(Advance(g, i), i)
  {
    AdvanceSwap(g, regs, i);
    if g.kids[i].Deciding? && g.arrivals != [] {
      assert g.kids[g.arrivals[0]].Over? || g.arrivals[0] == i;
    }
  }

  lemma AdvanceMark(g: Group, regs: nat, i: nat)
    requires GroupOk(g, regs) && i < |g.kids| && Moving(g.kids[i])
    ensures MarkOk(Advance(g, i))
  {
    AdvanceMarkAt(g, regs, i);
    OthersDoNotClose(g, i);
    OnlyOneCloses(Advance(g, i), i);
  }

  lemma OnlyOneCloses(g: Group, i: nat)
    requires i < |g.kids| && MarkAt(g, i) && forall j | 0 <= j < |g.kids| && j != i :: !Closing(g.kids[j])
    ensures MarkOk(g)
  {
  }

  /** Handing over closes the await; every other move leaves it open. */
  lemma AdvanceCloses(g: Group, regs: nat, i: nat)
    requires GroupOk(g, regs) && i < |g.kids| && Moving(g.kids[i])
    ensures Closed(Advance(g, i)) <==> HandsOver(g, i)
    ensures g.kids[i].Deciding? && HandsOver(g, i) ==> Verdict(Advance(g, i)).Fulfilled?
    ensures g.kids[i].Flagging? || g.kids[i].Marking? ==> Verdict(Advance(g, i)) == Verdict(g) && Verdict(g).Rejected?
  {
    var g' := Advance(g, i);
    AdvanceSwap(g, regs, i);
    if g.kids[i].Counting? && g.pending != 1 {
      OpenCountUpdate(g.kids, i, g'.kids[i]);
      if Closed(g') {
        AllOver(g'.kids);
      }
    }
    assert g'.kids[i].Over? || !Closed(g');
  }

  lemma {:induction false} AllOver(kids: seq<Kid>)
    requires forall i | 0 <= i < |kids| :: kids[i].Over?
    ensures OpenCount(kids) == 0
    decreases |kids|
  {
    if kids != [] {
      AllOver(kids[..|kids| - 1]);
    }
  }

  // ---- what every step keeps ----

  function LastThread(s: State): Thread
    requires s.threads != []
  {
    s.threads[|s.threads| - 1]
  }

  predicate Awaiting(t: Thread) {
    t.Registering? || t == Left(Suspended)
  }

  predicate Ended(t: Thread) {
    t.Left? && !t.how.Suspended?
  }

  /** Executions of the body never overlap: all but the last one have suspended, each in its own await. */
  ghost predicate ThreadsOk(s: State) {
    && s.threads != []
    && (forall n | 0 <= n < |s.threads| - 1 :: s.threads[n] == Left(Suspended))
    && |s.groups| == |s.threads| - (if Awaiting(LastThread(s)) then 0 else 1)
    && (LastThread(s).Registering?
        ==> LastThread(s).group == |s.groups| - 1 && KidIs(s, LastThread(s).group, LastThread(s).next))
  }

  /** How many children of await n are registered. */
  function Regs(s: State, n: nat): nat
    requires s.threads != [] && n < |s.groups|
  {
    if n == |s.threads| - 1 && LastThread(s).Registering? then LastThread(s).next else |s.groups[n].kids|
  }

  ghost predicate GroupsOk(s: State) {
    && s.threads != []
    && forall n | 0 <= n < |s.groups| ::
          GroupOk(s.groups[n], Regs(s, n)) && (Closed(s.groups[n]) <==> n < |s.threads| - 1)
  }

  /** Where segment n starts. */
  function PointOf(s: State, n: nat): nat
    requires n <= |s.groups|
  {
    if n == 0 then 0 else s.groups[n - 1].point
  }

  /** The segments begun are the points of the awaits passed, and every await passed was fulfilled. */
  ghost predicate SegmentsOk(s: State) {
    && s.threads != []
    && |s.segments| == |s.threads| - (if Began(LastThread(s)) then 0 else 1)
    && |s.segments| <= |s.groups| + 1
    && (forall n | 0 <= n < |s.segments| :: s.segments[n] == PointOf(s, n))
    && s.hot.step == PointOf(s, |s.groups|)
    && (forall n | 0 <= n < |s.segments| - 1 :: Verdict(s.groups[n]).Fulfilled?)
  }

  /** The execution has begun a segment. */
  predicate Began(t: Thread) {
    t.Inside? || t.Registering? || (t.Left? && !t.how.Stopped? && !t.how.Cut?)
  }

  predicate LastRejected(s: State) {
    s.groups != [] && Verdict(s.groups[|s.groups| - 1]).Rejected?
  }

  /** The termination mark is the verdict of the last await, from the hand-over to the head check. */
  ghost predicate MarkedOk(s: State) {
    && s.threads != []
    && (LastThread(s).Inside? || Awaiting(LastThread(s)) ==> !s.hot.terminated)
    && (LastThread(s).Resuming? || LastThread(s).Ready? ==> (s.hot.terminated <==> LastRejected(s)))
    && (LastThread(s).Resuming? || LastThread(s).Ready? ==>
              (LastRejected(s) ==> s.hot.code == Verdict(s.groups[|s.groups| - 1])))
    && (Awaiting(LastThread(s)) && s.groups != [] ==> FlagsOk(s.groups[|s.groups| - 1], s.hot.code))
  }

  ghost predicate FlagsOk(g: Group, code: Result) {
    forall i | 0 <= i < |g.kids| && g.kids[i].Flagging? :: code == Verdict(g)
  }

  /** What an ended coroutine settles with. */
  function Expected(s: State): Result
    requires s.threads != [] && Ended(LastThread(s))
  {
    match LastThread(s).how
    case Returned(r) => r
    case Threw(reason) => Rejected(reason)
    case Stopped => Rejected(ExecutorStopped)
    case Cut => if s.groups == [] then Fulfilled else Verdict(s.groups[|s.groups| - 1])
  }

  ghost predicate SettleOk(s: State) {
    && s.threads != []
    && (if Ended(LastThread(s)) then s.hot.settles == 1 && s.hot.settled == Some(Expected(s))
        else s.hot.settles == 0 && s.hot.settled.None?)
    && (LastThread(s) == Left(Cut) ==> LastRejected(s))
  }

  ghost predicate Inv(s: State) {
    Outside(s) && GroupsOk(s)
  }

  /** A live execution is the last one. */
  lemma LiveIsLast(s: State, t: nat)
    requires ThreadsOk(s) && t < |s.threads| && !s.threads[t].Left?
    ensures t == |s.threads| - 1
  {}

  /** The parts of the invariant that do not look inside an await. */
  ghost predicate Outside(s: State) {
    ThreadsOk(s) && SegmentsOk(s) && MarkedOk(s) && SettleOk(s)
  }

  lemma GroupsSame(s: State, s': State)
    requires GroupsOk(s) && s'.groups == s.groups && |s'.threads| == |s.threads|
    requires !LastThread(s).Registering? && !LastThread(s').Registering?
    ensures GroupsOk(s')
  {
    forall n | 0 <= n < |s.groups|
      ensures GroupOk(s'.groups[n], Regs(s', n)) && (Closed(s'.groups[n]) <==> n < |s'.threads| - 1)
    {
      assert Regs(s', n) == Regs(s, n);
    }
  }

  lemma DispatchOutside(s: State, t: nat, ok: bool)
    requires Outside(s) && Enabled(s, Dispatch(t, ok))
    ensures Outside(Apply(s, Dispatch(t, ok)))
  {
    LiveIsLast(s, t);
  }

  lemma EnterOutside(s: State, t: nat)
    requires Outside(s) && Enabled(s, Enter(t))
    ensures Outside(Apply(s, Enter(t)))
  {
    LiveIsLast(s, t);
  }

  lemma EndOutside(s: State, t: nat, ending: Ending)
    requires Outside(s) && Enabled(s, End(t, ending))
    ensures Outside(Apply(s, End(t, ending)))
  {
    LiveIsLast(s, t);
    var s' := Apply(s, End(t, ending));
    assert forall m | 0 <= m < |s.groups| :: s'.groups[m] == s.groups[m];
  }

  /** Appending a new, unregistered await. */
  lemma GroupsAppend(s: State, s': State, g: Group)
    requires ThreadsOk(s) && GroupsOk(s) && LastThread(s).Inside?
    requires s'.groups == s.groups + [g] && |s'.threads| == |s.threads| && LastThread(s') == Registering(|s.groups|, 0)
    requires GroupOk(g, 0) && !Closed(g)
    ensures GroupsOk(s')
  {
    forall n | 0 <= n < |s'.groups|
      ensures GroupOk(s'.groups[n], Regs(s', n)) && (Closed(s'.groups[n]) <==> n < |s'.threads| - 1)
    {
      if n < |s.groups| {
        assert Regs(s', n) == Regs(s, n) && s'.groups[n] == s.groups[n];
      }
    }
  }

  lemma EndGroups(s: State, t: nat, ending: Ending)
    requires ThreadsOk(s) && GroupsOk(s) && Enabled(s, End(t, ending))
    ensures GroupsOk(Apply(s, End(t, ending)))
  {
    LiveIsLast(s, t);
    var s' := Apply(s, End(t, ending));
    if ending.AwaitOne? || ending.AwaitAll? {
      var n := if ending.AwaitOne? then 1 else ending.n;
      NewGroupOk(ending.point, ending.AwaitAll?, n);
      GroupsAppend(s, s', NewGroup(ending.point, ending.AwaitAll?, n));
    } else {
      GroupsSame(s, s');
    }
  }

  /** Only the callbacks of the last, still open await can act. */
  lemma OpenGroup(s: State, g: nat, i: nat)
    requires ThreadsOk(s) && GroupsOk(s) && KidIs(s, g, i) && !s.groups[g].kids[i].Over?
    ensures g == |s.groups| - 1 == |s.threads| - 1 && Awaiting(LastThread(s))
    ensures GroupOk(s.groups[g], Regs(s, g))
  {
    assert !Closed(s.groups[g]);
  }

  /** The last await changes. */
  lemma GroupsFrame(s: State, s': State, g: nat)
    requires ThreadsOk(s) && GroupsOk(s) && g == |s.groups| - 1 == |s.threads| - 1
    requires |s'.groups| == |s.groups| && |s'.threads| >= |s.threads|
    requires forall n | 0 <= n < g :: s'.groups[n] == s.groups[n]
    requires GroupOk(s'.groups[g], Regs(s', g)) && (Closed(s'.groups[g]) <==> g < |s'.threads| - 1)
    ensures GroupsOk(s')
  {
    forall n | 0 <= n < g
      ensures GroupOk(s'.groups[n], Regs(s', n)) && (Closed(s'.groups[n]) <==> n < |s'.threads| - 1)
    {
      assert Regs(s', n) == Regs(s, n) && GroupOk(s.groups[n], Regs(s, n));
    }
  }

  /** The last await changes without touching its verdict or coming to its end. */
  lemma OutsideFrame(s: State, s': State, g: nat)
    requires Outside(s) && Awaiting(LastThread(s)) && g == |s.groups| - 1
    requires s'.hot == s.hot && s'.segments == s.segments && |s'.groups| == |s.groups|
    requires forall n | 0 <= n < g :: s'.groups[n] == s.groups[n]
    requires s'.groups[g].point == s.groups[g].point && |s'.groups[g].kids| == |s.groups[g].kids|
    requires forall i | 0 <= i < |s.groups[g].kids| && s'.groups[g].kids[i].Flagging? ::
          s.groups[g].kids[i].Flagging? && Verdict(s'.groups[g]) == Verdict(s.groups[g])
    requires |s'.threads| == |s.threads| && Awaiting(LastThread(s')) && s'.threads[..g] == s.threads[..g]
    requires LastThread(s').Registering? ==> LastThread(s').group == g && LastThread(s').next < |s.groups[g].kids|
    ensures Outside(s')
  {
    assert forall n | 0 <= n < |s'.threads| - 1 ::
          s'.threads[n] == s'.threads[..g][n] && s.threads[n] == s.threads[..g][n];
  }

  lemma RegisterGroups(s: State, t: nat)
    requires ThreadsOk(s) && GroupsOk(s) && Enabled(s, Register(t))
    ensures GroupsOk(Apply(s, Register(t)))
    ensures var g := s.threads[t].group;
            && t == |s.threads| - 1 && g == |s.groups| - 1
            && Verdict(Apply(s, Register(t)).groups[g]) == Verdict(s.groups[g])
  {
    LiveIsLast(s, t);
    var g, i := s.threads[t].group, s.threads[t].next;
    RegisterKid(s, g, i);
    assert Regs(Apply(s, Register(t)), g) == i + 1;
    GroupsFrame(s, Apply(s, Register(t)), g);
  }

  lemma RegisterKid(s: State, g: nat, i: nat)
    requires GroupsOk(s) && g == |s.groups| - 1 == |s.threads| - 1 && LastThread(s) == Registering(g, i)
    requires KidIs(s, g, i)
    ensures var group' := SetKid(s, g, i, Waiting).groups[g];
            && GroupOk(group', i + 1) && !Closed(group') && Verdict(group') == Verdict(s.groups[g])
  {
    assert GroupOk(s.groups[g], i);
    KidUpdateOk(s.groups[g], i, i, Waiting, i + 1);
  }

  lemma KidSettlesGroups(s: State, g: nat, i: nat, r: Result)
    requires ThreadsOk(s) && GroupsOk(s) && Enabled(s, KidSettles(g, i, r))
    ensures GroupsOk(Apply(s, KidSettles(g, i, r)))
    ensures g == |s.groups| - 1 == |s.threads| - 1 && Awaiting(LastThread(s))
    ensures Verdict(Apply(s, KidSettles(g, i, r)).groups[g]) == Verdict(s.groups[g])
  {
    SettleKid(s, g, i, r);
    GroupsFrame(s, Apply(s, KidSettles(g, i, r)), g);
  }

  lemma SettleKid(s: State, g: nat, i: nat, r: Result)
    requires ThreadsOk(s) && GroupsOk(s) && KidIs(s, g, i) && s.groups[g].kids[i].Waiting?
    ensures g == |s.groups| - 1 == |s.threads| - 1 && Awaiting(LastThread(s))
    ensures var group' := SetKid(s, g, i, Arrived(r)).groups[g];
            && GroupOk(group', Regs(s, g)) && !Closed(group') && Verdict(group') == Verdict(s.groups[g])
  {
    OpenGroup(s, g, i);
    KidUpdateOk(s.groups[g], Regs(s, g), i, Arrived(r), Regs(s, g));
  }

  /** While children are being registered, nobody can be the last one. */
  lemma NoHandOverWhileRegistering(g: Group, regs: nat, i: nat)
    requires GroupOk(g, regs) && regs < |g.kids| && i < |g.kids| && Moving(g.kids[i])
    ensures !Closing(g.kids[i])
  {
    assert g.kids[regs].Unregistered?;
  }

  lemma KidMovesGroups(s: State, g: nat, i: nat)
    requires ThreadsOk(s) && GroupsOk(s) && Enabled(s, KidMoves(g, i))
    ensures ThreadsOk(Apply(s, KidMoves(g, i))) && GroupsOk(Apply(s, KidMoves(g, i)))
    ensures HandsOver(s.groups[g], i) ==> LastThread(s) == Left(Suspended)
  {
    OpenGroup(s, g, i);
    AdvanceOk(s.groups[g], Regs(s, g), i);
    MovesThreads(s, g, i);
    MovedRegs(s, g, i);
    GroupsFrame(s, Apply(s, KidMoves(g, i)), g);
  }

  lemma MovesThreads(s: State, g: nat, i: nat)
    requires ThreadsOk(s) && Enabled(s, KidMoves(g, i)) && g == |s.groups| - 1 == |s.threads| - 1
    requires Awaiting(LastThread(s))
    requires |Advance(s.groups[g], i).kids| == |s.groups[g].kids|
    requires HandsOver(s.groups[g], i) ==> LastThread(s) == Left(Suspended)
    ensures ThreadsOk(Apply(s, KidMoves(g, i)))
  {
  }

  lemma MovedRegs(s: State, g: nat, i: nat)
    requires s.threads != [] && Enabled(s, KidMoves(g, i)) && g == |s.groups| - 1 == |s.threads| - 1
    requires |Advance(s.groups[g], i).kids| == |s.groups[g].kids|
    requires HandsOver(s.groups[g], i) ==> LastThread(s) == Left(Suspended)
    ensures var s' := Apply(s, KidMoves(g, i));
            && |s'.groups| == |s.groups| && s'.threads != []
            && s'.groups[g] == Advance(s.groups[g], i) && Regs(s', g) == Regs(s, g)
            && forall n | 0 <= n < g :: s'.groups[n] == s.groups[n]
  {
  }

  lemma AdvanceOk(g: Group, regs: nat, i: nat)
    requires GroupOk(g, regs) && i < |g.kids| && Moving(g.kids[i])
    ensures |Advance(g, i).kids| == |g.kids| && GroupOk(Advance(g, i), regs)
    ensures Closed(Advance(g, i)) <==> HandsOver(g, i)
    ensures regs < |g.kids| ==> !HandsOver(g, i)
  {
    AdvanceSwap(g, regs, i);
    AdvanceCount(g, regs, i);
    AdvanceMark(g, regs, i);
    AdvanceCloses(g, regs, i);
    if regs < |g.kids| {
      NoHandOverWhileRegistering(g, regs, i);
    }
  }

  /** What the last operations of an await do to its verdict. */
  lemma LastMoves(g: Group, regs: nat, i: nat)
    requires GroupOk(g, regs) && i < |g.kids| && Moving(g.kids[i])
    ensures var g' := Advance(g, i);
            && (forall j | 0 <= j < |g.kids| && j != i && g.kids[j].Flagging? :: false)
            && (g'.kids[i].Flagging? <==> g.kids[i].Marking?)
            && (g.kids[i].Marking? ==> g.kids[i].code == Verdict(g'))
            && (HandsOver(g, i) ==> (Verdict(g').Rejected? <==> g.kids[i].Flagging?))
            && (g.kids[i].Flagging? ==> Verdict(g') == Verdict(g))
  {
    AdvanceSwap(g, regs, i);
    AdvanceCloses(g, regs, i);
  }

  lemma KidMovesOutside(s: State, g: nat, i: nat)
    requires Outside(s) && Enabled(s, KidMoves(g, i)) && g == |s.groups| - 1 == |s.threads| - 1
    requires Awaiting(LastThread(s))
    requires GroupOk(s.groups[g], Regs(s, g))
    requires HandsOver(s.groups[g], i) ==> LastThread(s) == Left(Suspended)
    ensures SegmentsOk(Apply(s, KidMoves(g, i))) && SettleOk(Apply(s, KidMoves(g, i)))
    ensures MarkedOk(Apply(s, KidMoves(g, i)))
  {
    LastMoves(s.groups[g], Regs(s, g), i);
    MovesMarked(s, g, i);
    MovesSegments(s, g, i);
  }

  lemma MovesSegments(s: State, g: nat, i: nat)
    requires ThreadsOk(s) && SegmentsOk(s) && SettleOk(s) && Enabled(s, KidMoves(g, i))
    requires g == |s.groups| - 1 == |s.threads| - 1
    requires Awaiting(LastThread(s)) && (HandsOver(s.groups[g], i) ==> LastThread(s) == Left(Suspended))
    ensures SegmentsOk(Apply(s, KidMoves(g, i))) && SettleOk(Apply(s, KidMoves(g, i)))
  {
    var s' := Apply(s, KidMoves(g, i));
    assert s'.groups[g].point == s.groups[g].point;
    assert forall n | 0 <= n < g :: s'.groups[n] == s.groups[n];
  }

  lemma MovesMarked(s: State, g: nat, i: nat)
    requires ThreadsOk(s) && MarkedOk(s) && Enabled(s, KidMoves(g, i)) && g == |s.groups| - 1 == |s.threads| - 1
    requires Awaiting(LastThread(s))
    requires var g0 := s.groups[g];
             var g' := Advance(g0, i);
             && (forall j | 0 <= j < |g0.kids| && j != i && g0.kids[j].Flagging? :: false)
             && (g'.kids[i].Flagging? <==> g0.kids[i].Marking?)
             && (g0.kids[i].Marking? ==> g0.kids[i].code == Verdict(g'))
             && (HandsOver(g0, i) ==> (Verdict(g').Rejected? <==> g0.kids[i].Flagging?))
             && (g0.kids[i].Flagging? ==> Verdict(g') == Verdict(g0))
    ensures MarkedOk(Apply(s, KidMoves(g, i)))
  {
    var s' := Apply(s, KidMoves(g, i));
    assert s'.groups[g] == Advance(s.groups[g], i);
    if s.groups[g].kids[i].Flagging? {
      assert FlagsOk(s.groups[g], s.hot.code);
    }
    assert forall j | 0 <= j < |s.groups[g].kids| && j != i :: s'.groups[g].kids[j] == s.groups[g].kids[j];
  }

  lemma StepGroups(s: State, step: Step)
    requires ThreadsOk(s) && GroupsOk(s) && Enabled(s, step)
    ensures GroupsOk(Apply(s, step))
  {
    match step
    case Dispatch(t, ok) =>
      LiveIsLast(s, t);
      GroupsSame(s, Apply(s, step));
    case Enter(t) =>
      LiveIsLast(s, t);
      GroupsSame(s, Apply(s, step));
    case End(t, ending) => EndGroups(s, t, ending);
    case Register(t) => RegisterGroups(s, t);
    case KidSettles(g, i, r) => KidSettlesGroups(s, g, i, r);
    case KidMoves(g, i) => KidMovesGroups(s, g, i);
  }

  lemma RegisterOutside(s: State, t: nat)
    requires Outside(s) && GroupsOk(s) && Enabled(s, Register(t))
    ensures Outside(Apply(s, Register(t)))
  {
    RegisterGroups(s, t);
    RegisteredOutside(s, t);
  }

  lemma RegisteredOutside(s: State, t: nat)
    requires Outside(s) && Enabled(s, Register(t)) && t == |s.threads| - 1 && s.threads[t].group == |s.groups| - 1
    requires Verdict(Apply(s, Register(t)).groups[|s.groups| - 1]) == Verdict(s.groups[|s.groups| - 1])
    ensures Outside(Apply(s, Register(t)))
  {
    OutsideFrame(s, Apply(s, Register(t)), s.threads[t].group);
  }

  lemma KidMovesStays(s: State, g: nat, i: nat)
    requires Outside(s) && GroupsOk(s) && Enabled(s, KidMoves(g, i))
    ensures Outside(Apply(s, KidMoves(g, i)))
  {
    OpenGroup(s, g, i);
    KidMovesGroups(s, g, i);
    KidMovesOutside(s, g, i);
  }

  lemma KidSettlesOutside(s: State, g: nat, i: nat, r: Result)
    requires Outside(s) && GroupsOk(s) && Enabled(s, KidSettles(g, i, r))
    ensures Outside(Apply(s, KidSettles(g, i, r)))
  {
    KidSettlesGroups(s, g, i, r);
    SettledOutside(s, g, i, r);
  }

  lemma SettledOutside(s: State, g: nat, i: nat, r: Result)
    requires Outside(s) && Enabled(s, KidSettles(g, i, r)) && g == |s.groups| - 1 == |s.threads| - 1
    requires Awaiting(LastThread(s))
    requires Verdict(Apply(s, KidSettles(g, i, r)).groups[g]) == Verdict(s.groups[g])
    ensures Outside(Apply(s, KidSettles(g, i, r)))
  {
    OutsideFrame(s, Apply(s, KidSettles(g, i, r)), g);
  }

  lemma StepInv(s: State, step: Step)
    requires Inv(s) && Enabled(s, step)
    ensures Inv(Apply(s, step))
  {
    StepGroups(s, step);
    match step
    case Dispatch(t, ok) => DispatchOutside(s, t, ok);
    case Enter(t) => EnterOutside(s, t);
    case End(t, ending) => EndOutside(s, t, ending);
    case Register(t) => RegisterOutside(s, t);
    case KidSettles(g, i, r) => KidSettlesOutside(s, g, i, r);
    case KidMoves(g, i) => KidMovesStays(s, g, i);
  }

  // ---- every run ----

  predicate Valid(s: State, steps: seq<Step>)
    decreases |steps|, 0
  {
    steps != [] ==> Valid(s, steps[..|steps| - 1]) && Enabled(After(s, steps[..|steps| - 1]), steps[|steps| - 1])
  }

  function After(s: State, steps: seq<Step>): State
    requires Valid(s, steps)
    decreases |steps|, 1
  {
    if steps == [] then s else Apply(After(s, steps[..|steps| - 1]), steps[|steps| - 1])
  }

  lemma {:induction false} ReachableInv(s: State, steps: seq<Step>)
    requires Init(s) && Valid(s, steps)
    ensures Inv(After(s, steps))
    decreases |steps|
  {
    if steps != [] {
      ReachableInv(s, steps[..|steps| - 1]);
      StepInv(After(s, steps[..|steps| - 1]), steps[|steps| - 1]);
    }
  }

  /** Executions of the body never overlap, and while one is inside a segment no callback can act. */
  lemma OneBodyAtATime(s: State, steps: seq<Step>)
    requires Init(s) && Valid(s, steps)
    ensures var e := After(s, steps);
            forall t, u | 0 <= t < |e.threads| && 0 <= u < |e.threads| && !e.threads[t].Left? && !e.threads[u].Left? ::
                  t == u
    ensures var e := After(s, steps);
            forall t, g, i | 0 <= t < |e.threads| && e.threads[t].Inside?
                               && 0 <= g < |e.groups| && 0 <= i < |e.groups[g].kids| :: e.groups[g].kids[i].Over?
  {
    ReachableInv(s, steps);
    var e := After(s, steps);
    forall t | 0 <= t < |e.threads| && !e.threads[t].Left?
      ensures t == |e.threads| - 1
    {
      LiveIsLast(e, t);
    }
    if LastThread(e).Inside? {
      AllClosed(e);
    }
  }

  lemma AllClosed(e: State)
    requires ThreadsOk(e) && GroupsOk(e) && LastThread(e).Inside?
    ensures forall g, i | 0 <= g < |e.groups| && 0 <= i < |e.groups[g].kids| :: e.groups[g].kids[i].Over?
  {
    assert forall g | 0 <= g < |e.groups| :: Closed(e.groups[g]);
  }

  /**
   Every await, of one promise or of n, is resumed exactly once, and only after the last of its
   promises has settled and its callback is through: execution n + 1 of the body exists exactly then.
   */
  lemma ResumedOnceAfterTheLast(s: State, steps: seq<Step>, n: nat)
    requires Init(s) && Valid(s, steps) && n < |After(s, steps).groups|
    ensures var e := After(s, steps);
            n + 1 < |e.threads| <==> forall i | 0 <= i < |e.groups[n].kids| :: e.groups[n].kids[i].Over?
    ensures |After(s, steps).threads| <= |After(s, steps).groups| + 1
  {
    ReachableInv(s, steps);
    assert Closed(After(s, steps).groups[n]) <==> n + 1 < |After(s, steps).threads|;
  }

  /** The first rejection's result is written before the last callback reads it. */
  lemma WrittenBeforeRead(s: State, steps: seq<Step>, g: nat, i: nat)
    requires Init(s) && Valid(s, steps) && KidIs(After(s, steps), g, i)
    requires var group := After(s, steps).groups[g]; group.all && group.rejected && group.kids[i].Deciding?
    ensures var group := After(s, steps).groups[g];
            && group.arrivals != [] && group.arrivals[0] < |group.kids|
            && PastSwap(group.kids[group.arrivals[0]])
            && group.first == group.kids[group.arrivals[0]].r && group.first.Rejected?
  {
    ReachableInv(s, steps);
    var e := After(s, steps);
    var group := e.groups[g];
    assert GroupOk(group, Regs(e, g));
    assert group.kids[group.arrivals[0]].Over? || group.arrivals[0] == i;
  }

  /** The body runs its segments in order, past fulfilled awaits only. */
  lemma SegmentsInOrder(s: State, steps: seq<Step>)
    requires Init(s) && Valid(s, steps)
    ensures var e := After(s, steps);
            && |e.segments| <= |e.groups| + 1
            && forall n | 0 <= n < |e.segments| ::
                  e.segments[n] == PointOf(e, n) && (n > 0 ==> AllFulfilled(e.groups[n - 1]))
  {
    ReachableInv(s, steps);
    var e := After(s, steps);
    forall n | 0 <= n < |e.segments| - 1
      ensures AllFulfilled(e.groups[n])
    {
      VerdictMeans(e, n);
    }
  }

  ghost predicate AllFulfilled(g: Group) {
    forall i | 0 <= i < |g.kids| :: g.kids[i].Over? && g.kids[i].r.Fulfilled?
  }

  lemma VerdictMeans(e: State, n: nat)
    requires Inv(e) && n < |e.groups| && n < |e.threads| - 1
    ensures Verdict(e.groups[n]).Fulfilled? <==> AllFulfilled(e.groups[n])
  {
    var g := e.groups[n];
    assert GroupOk(g, Regs(e, n)) && Closed(g);
    if g.arrivals == [] {
      assert forall i | 0 <= i < |g.kids| :: g.kids[i].r.Fulfilled?;
    } else {
      assert g.kids[g.arrivals[0]].r.Rejected?;
    }
  }

  /**
   The coroutine settles at most once; with no refused dispatch, it settles with the rejection of the
   first await that had one (that of the child that swapped the flag first), or with its own outcome.
   */
  lemma SettlesOnce(s: State, steps: seq<Step>)
    requires Init(s) && Valid(s, steps)
    ensures var e := After(s, steps);
            && e.hot.settles <= 1 && (e.hot.settles == 1 <==> e.hot.settled.Some?)
            && e.threads != [] && (e.hot.settled.Some? <==> Ended(LastThread(e)))
    ensures var e := After(s, steps);
            e.hot.settled.Some? ==> (match LastThread(e).how
              case Returned(r) => e.hot.settled.value == r
              case Threw(reason) => e.hot.settled.value == Rejected(reason)
              case Stopped => e.hot.settled.value == Rejected(ExecutorStopped)
              case Cut => CutBy(e, e.hot.settled.value)
              case Suspended => false)
  {
    ReachableInv(s, steps);
    var e := After(s, steps);
    if LastThread(e) == Left(Cut) {
      var n := |e.groups| - 1;
      assert GroupOk(e.groups[n], Regs(e, n)) && Closed(e.groups[n]);
      forall m | 0 <= m < n
        ensures AllFulfilled(e.groups[m])
      {
        VerdictMeans(e, m);
      }
    }
  }

  /** The last await was cut by its first rejection, all earlier ones were fulfilled. */
  ghost predicate CutBy(e: State, r: Result) {
    && e.groups != []
    && (forall m | 0 <= m < |e.groups| - 1 :: AllFulfilled(e.groups[m]))
    && var g := e.groups[|e.groups| - 1];
       && g.arrivals != [] && g.arrivals[0] < |g.kids| && r.Rejected?
       && g.kids[g.arrivals[0]] == Over(r)
  }

  /** The rejection flag is swapped once: the head of `arrivals` never changes. */
  lemma FirstSwapStays(s: State, step: Step, g: nat)
    requires Enabled(s, step) && g < |s.groups| && s.groups[g].arrivals != []
    ensures Apply(s, step).groups[g].arrivals != [] && Apply(s, step).groups[g].arrivals[0] == s.groups[g].arrivals[0]
  {}

  /** A coroutine that has not settled can go on, or waits for a promise that has not settled. */
  lemma NeverStuck(s: State, steps: seq<Step>) returns (step: Step)
    requires Init(s) && Valid(s, steps) && After(s, steps).hot.settled.None?
    ensures Enabled(After(s, steps), step)
    ensures step.KidSettles? ==> !exists other :: Internal(other) && Enabled(After(s, steps), other)
  {
    ReachableInv(s, steps);
    var e := After(s, steps);
    step := NextStep(e);
  }

  lemma NextStep(e: State) returns (step: Step)
    requires Outside(e) && GroupsOk(e) && e.hot.settled.None?
    ensures Enabled(e, step)
    ensures step.KidSettles? ==> !exists other :: Internal(other) && Enabled(e, other)
  {
    if other :| Internal(other) && Enabled(e, other) {
      return other;
    }
    OnlySuspended(e);
    var g := |e.groups| - 1;
    var i := OpenKid(e);
    assert !Enabled(e, KidMoves(g, i));
    return KidSettles(g, i, Fulfilled);
  }

  lemma OnlySuspended(e: State)
    requires Outside(e) && e.hot.settled.None?
    requires forall other: Step | Internal(other) :: !Enabled(e, other)
    ensures LastThread(e) == Left(Suspended)
  {
    var t := |e.threads| - 1;
    assert !Enabled(e, Dispatch(t, true)) && !Enabled(e, Enter(t))
           && !Enabled(e, End(t, Return(Fulfilled))) && !Enabled(e, Register(t));
  }

  lemma OpenKid(e: State) returns (i: nat)
    requires ThreadsOk(e) && GroupsOk(e) && LastThread(e) == Left(Suspended)
    ensures KidIs(e, |e.groups| - 1, i)
    ensures var k := e.groups[|e.groups| - 1].kids[i]; !k.Over? && !k.Unregistered?
  {
    var g := e.groups[|e.groups| - 1];
    assert !Closed(g) && Registered(g, |g.kids|);
    i :| 0 <= i < |g.kids| && !g.kids[i].Over?;
  }

  predicate Internal(step: Step) {
    !step.KidSettles?
  }
}
