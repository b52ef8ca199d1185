/**
 A layer body that asks for a gate slot from inside (`ASYNC_GATE`): in the wrong slot the request
 suspends the layer, which is posted again in the requested slot and runs from its start.
 */
module GateReentry {
  import opened ReadWriteGate

  /** The frame on the thread's top: no task of this gate, or one of the given kind. */
  datatype Slot = NoSlot | InSlot(kind: TaskKind)

  /**
   One request made by a body.  With `stops` the body returns at once when suspended (the macro at
   the top of the layer's own function); without, it goes on (a helper function asked and returned).
   */
  datatype Request = Request(kind: TaskKind, stops: bool)

  /** The request is already satisfied in this slot; direct requests always are. */
  predicate Passes(slot: Slot, kind: TaskKind) {
    kind.Direct? || slot == InSlot(kind)
  }

  /** The per-call scope object the requests write to. */
  class CGateCallScope {
    var requested: TaskKind
    var suspended: bool

    constructor ()
      ensures requested == Direct && !suspended
    {
      requested, suspended := Direct, false;
    }

    /** True means: go on; false means: return the placeholder result. */
    method EnterGate(slot: Slot, kind: TaskKind) returns (goOn: bool)
      modifies this
      ensures goOn <==> Passes(slot, kind)
      ensures goOn ==> requested == old(requested) && suspended == old(suspended)
      ensures !goOn ==> requested == kind && suspended
    {
      if kind.Direct? {
        return true;
      }
      if slot == InSlot(kind) {
        return true;
      }
      requested := kind;
      suspended := true;
      goOn := false;
    }

    /** The requests of one run of a body, in order, up to the first one that makes it return. */
    method RunRequests(slot: Slot, reqs: seq<Request>)
      requires !suspended
      modifies this
      ensures suspended <==> Suspends(slot, reqs)
      ensures suspended ==> requested == Requested(slot, reqs)
    {
      var i := 0;
      while i < |reqs|
        invariant 0 <= i <= |reqs|
        invariant Suspends(slot, reqs) <==> suspended || Suspends(slot, reqs[i..])
        invariant Suspends(slot, reqs[i..]) ==> Requested(slot, reqs) == Requested(slot, reqs[i..])
        invariant suspended && !Suspends(slot, reqs[i..]) ==> Requested(slot, reqs) == requested
      {
        assert reqs[i..][1..] == reqs[i + 1..];
        var goOn := EnterGate(slot, reqs[i].kind);
        if !goOn && reqs[i].stops {
          return;
        }
        i := i + 1;
      }
    }
  }

  /** A run in this slot is suspended: it reaches a request that does not pass. */
  predicate Suspends(slot: Slot, reqs: seq<Request>)
    decreases |reqs|
  {
    reqs != [] && (!Passes(slot, reqs[0].kind) || Suspends(slot, reqs[1..]))
  }

  /** The kind the suspended run asks for: its last failing request before it returned. */
  function Requested(slot: Slot, reqs: seq<Request>): TaskKind
    requires Suspends(slot, reqs)
    decreases |reqs|
  {
    if Passes(slot, reqs[0].kind) then Requested(slot, reqs[1..])
    else if !reqs[0].stops && Suspends(slot, reqs[1..]) then Requested(slot, reqs[1..])
    else reqs[0].kind
  }

  /** The body asks for both kinds somewhere. */
  predicate Mixed(reqs: seq<Request>) {
    Asks(reqs, Read) && Asks(reqs, Write)
  }

  predicate Asks(reqs: seq<Request>, kind: TaskKind) {
    exists i | 0 <= i < |reqs| :: reqs[i].kind == kind
  }

  lemma {:induction false} SuspendsIff(slot: Slot, reqs: seq<Request>)
    ensures Suspends(slot, reqs) <==> exists i | 0 <= i < |reqs| :: !Passes(slot, reqs[i].kind)
    decreases |reqs|
  {
    if reqs != [] {
      SuspendsIff(slot, reqs[1..]);
      if exists i | 0 <= i < |reqs| :: !Passes(slot, reqs[i].kind) {
        var i :| 0 <= i < |reqs| && !Passes(slot, reqs[i].kind);
        if i > 0 {
          assert reqs[1..][i - 1] == reqs[i];
        }
      }
      if exists i | 0 <= i < |reqs[1..]| :: !Passes(slot, reqs[1..][i].kind) {
        var i :| 0 <= i < |reqs[1..]| && !Passes(slot, reqs[1..][i].kind);
        assert reqs[i + 1] == reqs[1..][i];
      }
    }
  }

  lemma {:induction false} RequestedIsAsked(slot: Slot, reqs: seq<Request>)
    requires Suspends(slot, reqs)
    ensures !Requested(slot, reqs).Direct? && !Passes(slot, Requested(slot, reqs)) && Asks(reqs, Requested(slot, reqs))
    decreases |reqs|
  {
    if Passes(slot, reqs[0].kind) || (!reqs[0].stops && Suspends(slot, reqs[1..])) {
      RequestedIsAsked(slot, reqs[1..]);
      var k := Requested(slot, reqs);
      var i :| 0 <= i < |reqs[1..]| && reqs[1..][i].kind == k;
      assert reqs[i + 1].kind == k;
    } else {
      assert reqs[0].kind == Requested(slot, reqs);
    }
  }

  /**
   After one suspension the second run is suspended again exactly when the body asks for both kinds:
   whatever slot the first run had, re-entry ends after at most one retry, and whether it ends in
   success does not depend on the slot.
   */
  lemma SecondRunSuspendsIffMixed(slot: Slot, reqs: seq<Request>)
    requires Suspends(slot, reqs)
    ensures Suspends(InSlot(Requested(slot, reqs)), reqs) <==> Mixed(reqs)
  {
    var k := Requested(slot, reqs);
    RequestedIsAsked(slot, reqs);
    SuspendsIff(InSlot(k), reqs);
    if Mixed(reqs) {
      var other := if k == Read then Write else Read;
      assert Asks(reqs, other);
      var i :| 0 <= i < |reqs| && reqs[i].kind == other;
      assert !Passes(InSlot(k), reqs[i].kind);
    }
    if Suspends(InSlot(k), reqs) {
      var i :| 0 <= i < |reqs| && !Passes(InSlot(k), reqs[i].kind);
      assert Asks(reqs, reqs[i].kind) && reqs[i].kind != k;
    }
  }

  /** A body that is not suspended runs in the slot of every kind it asks for, hence asks for one at most. */
  lemma CompletesInRequestedSlot(slot: Slot, reqs: seq<Request>, kind: TaskKind)
    requires !Suspends(slot, reqs) && Asks(reqs, kind) && !kind.Direct?
    ensures slot == InSlot(kind) && !Mixed(reqs)
  {
    SuspendsIff(slot, reqs);
    var i :| 0 <= i < |reqs| && reqs[i].kind == kind;
    assert Passes(slot, reqs[i].kind);
  }
}
