/**
 The combinators: folding the results of n child promises, in arrival order, into one settlement.
 */
module Gather {
  import opened Basics
  import opened PromiseResults

  datatype Policy = All | AllSettled | Race | Any

  /** The settlement of an aggregate without children. */
  function ResolveEmptyGather(policy: Policy): Result {
    if policy.All? || policy.AllSettled? then Fulfilled else Rejected(Unspecified)
  }

  // ---- the meaning: what a complete list of arrivals should give ----

  /** The first rejection of a list that has one. */
  function FirstRejection(rs: seq<Result>): Result
    requires exists i | 0 <= i < |rs| :: rs[i].Rejected?
    decreases |rs|
  {
    if rs[0].Rejected? then rs[0] else FirstRejection(rs[1..])
  }

  ghost predicate AllFulfilled(rs: seq<Result>) {
    forall i | 0 <= i < |rs| :: rs[i].Fulfilled?
  }

  ghost predicate AllRejected(rs: seq<Result>) {
    forall i | 0 <= i < |rs| :: rs[i].Rejected?
  }

  /** The aggregate's result for a complete, non-empty arrival list. */
  ghost function Outcome(policy: Policy, rs: seq<Result>): Result
    requires rs != []
  {
    match policy
    case All => if AllFulfilled(rs) then Fulfilled else FirstRejection(rs)
    case AllSettled => Fulfilled
    case Race => rs[0]
    case Any => if AllRejected(rs) then rs[0] else Fulfilled
  }

  /** When an aggregate over these arrivals is fulfilled, whether there are children or not. */
  ghost predicate Succeeds(policy: Policy, rs: seq<Result>) {
    match policy
    case All => forall i | 0 <= i < |rs| :: rs[i].Fulfilled?
    case AllSettled => true
    case Race => rs != [] && rs[0].Fulfilled?
    case Any => exists i | 0 <= i < |rs| :: rs[i].Fulfilled?
  }

  /**
   The aggregate without children and the one with some follow the same rule; and if it is rejected, then
   with the first rejection among the arrivals, or with no reason when there are none.
   */
  lemma OutcomeMeans(policy: Policy, rs: seq<Result>)
    ensures ResolveEmptyGather(policy) == if Succeeds(policy, []) then Fulfilled else Rejected(Unspecified)
    ensures rs != [] ==> (Outcome(policy, rs).Fulfilled? <==> Succeeds(policy, rs))
    ensures rs != [] && !Succeeds(policy, rs) ==>
              exists i | 0 <= i < |rs| :: Outcome(policy, rs) == rs[i] && rs[i].Rejected? && AllFulfilled(rs[..i])
  {
    if rs != [] && !Succeeds(policy, rs) {
      assert AllFulfilled(rs[..0]);
      if policy.All? {
        FirstRejectionRejects(rs);
      }
    }
  }

  lemma {:induction false} FirstRejectionRejects(rs: seq<Result>)
    requires exists i | 0 <= i < |rs| :: rs[i].Rejected?
    ensures exists i | 0 <= i < |rs| :: FirstRejection(rs) == rs[i] && rs[i].Rejected? && AllFulfilled(rs[..i])
    decreases |rs|
  {
    if rs[0].Rejected? {
      assert AllFulfilled(rs[..0]);
    } else {
      FirstRejectionRejects(rs[1..]);
      var i :| 0 <= i < |rs[1..]| && FirstRejection(rs[1..]) == rs[1..][i] && rs[1..][i].Rejected?
               && AllFulfilled(rs[1..][..i]);
      assert rs[..i + 1] == [rs[0]] + rs[1..][..i];
      assert rs[i + 1] == rs[1..][i];
    }
  }

  /** However the remaining children settle, the outcome is the same. */
  ghost predicate Determined(policy: Policy, n: nat, seen: seq<Result>)
    requires 0 < n && |seen| <= n
  {
    exists r :: Forces(policy, n, seen, r)
  }

  ghost predicate Forces(policy: Policy, n: nat, seen: seq<Result>, r: Result)
    requires 0 < n && |seen| <= n
  {
    forall more: seq<Result> | |seen| + |more| == n :: Outcome(policy, seen + more) == r
  }

  // ---- the object ----

  /** The mutable part of the aggregate. */
  datatype Vars = Vars(pending: int, rejectSeen: bool, done: bool, firstReject: Result)

  /** The call an arrival triggers after the lock is released. */
  datatype Call = NoCall | Resolve | Reject(r: Result)

  class CGatherState {
    const policy: Policy
    var pending: int
    var rejectSeen: bool
    var done: bool
    var firstReject: Result

    constructor (policy: Policy, total: int)
      requires total > 0
      ensures this.policy == policy && State() == Start(total)
    {
      this.policy := policy;
      pending, rejectSeen, done, firstReject := total, false, false, Rejected(Unspecified);
    }

    function State(): Vars
      reads this
    {
      Vars(pending, rejectSeen, done, firstReject)
    }

    /** One child has settled. */
    method OnChildSettled(result: Result) returns (call: Call)
      modifies this
      ensures (State(), call) == Arrive(policy, old(State()), result)
    {
      var doResolve, doReject := false, false;
      var resultOut := Fulfilled;
      if done {
        return NoCall;
      }
      pending := pending - 1;
      if !result.Fulfilled? && !rejectSeen {
        rejectSeen := true;
        firstReject := result;
      }
      match policy {
        case All =>
          if result.Fulfilled? {
            done := pending == 0;
            doResolve := done;
          } else {
            done := true;
            doReject := true;
            resultOut := result;
          }
        case AllSettled =>
          done := pending == 0;
          doResolve := done;
        case Race =>
          done := true;
          doResolve := result.Fulfilled?;
          doReject := !doResolve;
          resultOut := result;
        case Any =>
          if result.Fulfilled? {
            done := true;
            doResolve := true;
          } else if pending == 0 {
            done := true;
            doReject := true;
            resultOut := firstReject;
          }
      }
      call := if doResolve then Resolve else if doReject then Reject(resultOut) else NoCall;
    }
  }

  function Start(total: int): Vars {
    Vars(total, false, false, Rejected(Unspecified))
  }

  /** One arrival, as a function. */
  function Arrive(policy: Policy, v: Vars, r: Result): (Vars, Call) {
    if v.done then (v, NoCall)
    else
      var first := if r.Rejected? && !v.rejectSeen then r else v.firstReject;
      var left := v.pending - 1;
      var call :=
        match policy
        case All => if r.Rejected? then Reject(r) else if left == 0 then Resolve else NoCall
        case AllSettled => if left == 0 then Resolve else NoCall
        case Race => if r.Fulfilled? then Resolve else Reject(r)
        case Any => if r.Fulfilled? then Resolve else if left == 0 then Reject(first) else NoCall;
      (Vars(left, v.rejectSeen || r.Rejected?, !call.NoCall?, first), call)
  }

  // ---- every arrival sequence ----

  /** The state after the arrivals `rs`. */
  function After(policy: Policy, n: nat, rs: seq<Result>): Vars {
    if rs == [] then Start(n)
    else Arrive(policy, After(policy, n, rs[..|rs| - 1]), rs[|rs| - 1]).0
  }

  /** The call made by arrival number k of `rs`. */
  function CallAt(policy: Policy, n: nat, rs: seq<Result>, k: nat): Call
    requires k < |rs|
  {
    Arrive(policy, After(policy, n, rs[..k]), rs[k]).1
  }

  /** When the aggregate has settled, without looking at its counters. */
  ghost predicate Decided(policy: Policy, n: nat, seen: seq<Result>) {
    match policy
    case All => |seen| == n || !AllFulfilled(seen)
    case AllSettled => |seen| == n
    case Race => seen != []
    case Any => |seen| == n || !AllRejected(seen)
  }

  /** The counters mean what they should, as long as the aggregate is open. */
  ghost predicate Means(policy: Policy, n: nat, rs: seq<Result>, v: Vars) {
    && (v.done <==> Decided(policy, n, rs))
    && (!v.done ==> v.pending == n - |rs| && (v.rejectSeen <==> !AllFulfilled(rs)))
    && (!v.done && policy.Any? && rs != [] ==> v.firstReject == rs[0])
  }

  lemma Extended(rs: seq<Result>, r: Result)
    ensures AllFulfilled(rs + [r]) <==> AllFulfilled(rs) && r.Fulfilled?
    ensures AllRejected(rs + [r]) <==> AllRejected(rs) && r.Rejected?
  {
    assert (rs + [r])[|rs|] == r;
    assert forall i | 0 <= i < |rs| :: (rs + [r])[i] == rs[i];
  }

  lemma ArriveMeans(policy: Policy, n: nat, rs: seq<Result>, v: Vars, r: Result)
    requires 0 < n && |rs| < n && Means(policy, n, rs, v)
    ensures Means(policy, n, rs + [r], Arrive(policy, v, r).0)
  {
    Extended(rs, r);
    assert rs != [] ==> (rs + [r])[0] == rs[0];
  }

  lemma {:induction false} AfterMeans(policy: Policy, n: nat, rs: seq<Result>)
    requires 0 < n && |rs| <= n
    ensures Means(policy, n, rs, After(policy, n, rs))
    decreases |rs|
  {
    if rs != [] {
      var prefix := rs[..|rs| - 1];
      AfterMeans(policy, n, prefix);
      ArriveMeans(policy, n, prefix, After(policy, n, prefix), rs[|rs| - 1]);
      assert rs == prefix + [rs[|rs| - 1]];
    }
  }

  /** A rejection that came first stays the first, whatever arrives later. */
  lemma {:induction false} FirstRejectionOf(fulfilled: seq<Result>, r: Result, more: seq<Result>)
    requires AllFulfilled(fulfilled) && r.Rejected?
    ensures exists i | 0 <= i < |fulfilled + [r] + more| :: (fulfilled + [r] + more)[i].Rejected?
    ensures FirstRejection(fulfilled + [r] + more) == r
    decreases |fulfilled|
  {
    var rs := fulfilled + [r] + more;
    assert rs[|fulfilled|] == r;
    if fulfilled != [] {
      assert rs[1..] == fulfilled[1..] + [r] + more;
      FirstRejectionOf(fulfilled[1..], r, more);
    }
  }

  /** The arrival that closes the aggregate makes the call for the outcome of every completion. */
  lemma ClosingCall(policy: Policy, n: nat, rs: seq<Result>, k: nat, full: seq<Result>)
    requires 0 < n == |full| && k < |rs| <= n && rs <= full
    requires !Decided(policy, n, rs[..k])
    ensures var call := CallAt(policy, n, rs, k);
            if Decided(policy, n, rs[..k + 1])
            then call == if Outcome(policy, full).Fulfilled? then Resolve else Reject(Outcome(policy, full))
            else call == NoCall
  {
    var seen := rs[..k];
    AfterMeans(policy, n, seen);
    AfterMeans(policy, n, rs[..k + 1]);
    assert rs[..k + 1][..k] == seen && rs[..k + 1] == seen + [rs[k]];
    assert forall i | 0 <= i < k :: seen[i] == full[i];
    assert full[k] == rs[k];
    match policy
    case All =>
      if rs[k].Rejected? {
        assert full == seen + [rs[k]] + full[k + 1..];
        FirstRejectionOf(seen, rs[k], full[k + 1..]);
        assert !AllFulfilled(full);
      } else if k + 1 == n {
        assert AllFulfilled(full);
      }
    case AllSettled =>
    case Race =>
    case Any =>
      if rs[k].Fulfilled? {
        assert !AllRejected(full);
      } else if k + 1 == n {
        assert AllRejected(full);
      }
  }

  /**
   Exactly one settlement: among the n arrivals, one and only one makes a call; it is the first one
   that decides the aggregate, and the call is the outcome of the whole list.  Later ones do nothing.
   */
  lemma SettlesExactlyOnce(policy: Policy, n: nat, rs: seq<Result>) returns (k: nat)
    requires 0 < n == |rs|
    ensures k < n && Decided(policy, n, rs[..k + 1]) && !Decided(policy, n, rs[..k])
    ensures CallAt(policy, n, rs, k) == if Outcome(policy, rs).Fulfilled? then Resolve else Reject(Outcome(policy, rs))
    ensures forall j | 0 <= j < n && j != k :: CallAt(policy, n, rs, j) == NoCall
    ensures forall j | k < j <= n :: After(policy, n, rs[..j]) == After(policy, n, rs[..k + 1])
  {
    k := 0;
    while !Decided(policy, n, rs[..k + 1])
      invariant k < n && !Decided(policy, n, rs[..k])
      decreases n - k
    {
      k := k + 1;
    }
    ClosingCall(policy, n, rs, k, rs);
    forall j | 0 <= j < k
      ensures CallAt(policy, n, rs, j) == NoCall
    {
      NotDecidedBefore(policy, n, rs, j, k);
      NotDecidedBefore(policy, n, rs, j + 1, k);
      ClosingCall(policy, n, rs, j, rs);
    }
    forall j | k < j <= n
      ensures After(policy, n, rs[..j]) == After(policy, n, rs[..k + 1])
    {
      DoneStays(policy, n, rs, k + 1, j);
    }
    forall j | k < j < n
      ensures CallAt(policy, n, rs, j) == NoCall
    {
      DoneStays(policy, n, rs, k + 1, j);
      AfterMeans(policy, n, rs[..k + 1]);
    }
  }

  lemma NotDecidedBefore(policy: Policy, n: nat, rs: seq<Result>, j: nat, k: nat)
    requires 0 < n == |rs| && j <= k < n && !Decided(policy, n, rs[..k])
    ensures !Decided(policy, n, rs[..j])
  {
    assert forall i | 0 <= i < j :: rs[..j][i] == rs[..k][i];
  }

  lemma {:induction false} DoneStays(policy: Policy, n: nat, rs: seq<Result>, j: nat, k: nat)
    requires 0 < n == |rs| && j <= k <= n && Decided(policy, n, rs[..j])
    ensures After(policy, n, rs[..k]) == After(policy, n, rs[..j])
    decreases k - j
  {
    if j < k {
      DoneStays(policy, n, rs, j, k - 1);
      AfterMeans(policy, n, rs[..j]);
      assert rs[..k][..k - 1] == rs[..k - 1];
    }
  }

  /**
   The earliest possible moment: except for `allSettled`, which waits for everybody on purpose, the
   aggregate settles exactly when the arrivals so far determine the outcome of every completion.
   */
  lemma DecidedIffDetermined(policy: Policy, n: nat, seen: seq<Result>)
    requires 0 < n && |seen| <= n && !policy.AllSettled?
    ensures Decided(policy, n, seen) <==> Determined(policy, n, seen)
  {
    if Decided(policy, n, seen) {
      DecidedDetermines(policy, n, seen);
    } else {
      UndecidedIsOpen(policy, n, seen);
    }
  }

  lemma DecidedDetermines(policy: Policy, n: nat, seen: seq<Result>)
    requires 0 < n && |seen| <= n && Decided(policy, n, seen) && !policy.AllSettled?
    ensures Determined(policy, n, seen)
  {
    var filler := seq(n - |seen|, _ => Fulfilled);
    var r := Outcome(policy, seen + filler);
    forall more: seq<Result> | |seen| + |more| == n
      ensures Outcome(policy, seen + more) == r
    {
      SameOutcome(policy, n, seen, more, filler);
    }
    assert Forces(policy, n, seen, r);
  }

  lemma SameOutcome(policy: Policy, n: nat, seen: seq<Result>, a: seq<Result>, b: seq<Result>)
    requires 0 < n && |seen| + |a| == |seen| + |b| == n && Decided(policy, n, seen) && !policy.AllSettled?
    ensures Outcome(policy, seen + a) == Outcome(policy, seen + b)
  {
    if |seen| == n {
      assert a == b == [];
    } else if policy.All? {
      var k := FirstRejectedIndex(seen);
      assert seen + a == seen[..k] + [seen[k]] + (seen[k + 1..] + a);
      assert seen + b == seen[..k] + [seen[k]] + (seen[k + 1..] + b);
      FirstRejectionOf(seen[..k], seen[k], seen[k + 1..] + a);
      FirstRejectionOf(seen[..k], seen[k], seen[k + 1..] + b);
    } else if policy.Any? {
      var k :| 0 <= k < |seen| && seen[k].Fulfilled?;
      assert (seen + a)[k].Fulfilled? && (seen + b)[k].Fulfilled?;
    }
  }

  lemma FirstRejectedIndex(rs: seq<Result>) returns (k: nat)
    requires !AllFulfilled(rs)
    ensures k < |rs| && rs[k].Rejected? && AllFulfilled(rs[..k])
  {
    k := 0;
    while rs[k].Fulfilled?
      invariant k < |rs| && AllFulfilled(rs[..k]) && exists i | k <= i < |rs| :: rs[i].Rejected?
      decreases |rs| - k
    {
      assert rs[..k + 1] == rs[..k] + [rs[k]];
      k := k + 1;
    }
  }

  lemma UndecidedIsOpen(policy: Policy, n: nat, seen: seq<Result>)
    requires 0 < n && |seen| <= n && !Decided(policy, n, seen) && !policy.AllSettled?
    ensures !Determined(policy, n, seen)
  {
    var yes := seq(n - |seen|, _ => Fulfilled);
    var no := seq(n - |seen|, _ => Rejected(ExecutorStopped));
    assert (seen + no)[|seen|] == no[0] && (seen + yes)[|seen|] == yes[0];
    match policy
    case All =>
      assert AllFulfilled(seen + yes);
      assert !AllFulfilled(seen + no);
      FirstRejectionOf(seen, no[0], no[1..]);
      assert seen + no == seen + [no[0]] + no[1..];
    case Race =>
    case Any =>
      assert AllRejected(seen + no);
      assert !AllRejected(seen + yes);
      assert (seen + no)[0].Rejected?;
    forall r
      ensures !Forces(policy, n, seen, r)
    {
      assert Outcome(policy, seen + yes) != r || Outcome(policy, seen + no) != r;
    }
  }
}
