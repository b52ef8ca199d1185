/**
 Promise chains: what a tree of layers means (a pure evaluator) and how it is run (handlers released
 by settling threads, posted, dispatched, suspended and re-entered, in any interleaving).
 */
module Chains {
  import opened ReadWriteGate
  import opened GateReentry
  import opened Basics
  import opened PromiseResults

  /**
   The layers of a program, numbered so that a layer depends on smaller numbers only.  `up` is the
   layer it was appended to; `child` is the layer a `ThenPromise` factory hands back.
   */
  datatype Shape =
    | First
    | External
    | Then(up: nat)
    | Catch(up: nat)
    | Finally(up: nat)
    | Flatten(up: nat, child: nat)

  datatype Layer = Layer(shape: Shape, kind: TaskKind, gates: seq<Request>)

  /** How a handler ends: with a result, or by throwing. */
  datatype Outcome = Return(r: Result) | Throw(reason: Reason)

  /** What user code does: the outcome of layer l's handler (or factory) on an upstream result. */
  type Behaviour = (nat, Result) -> Outcome

  datatype Program = Program(layers: seq<Layer>, behaviour: Behaviour)

  ghost predicate WellFormed(p: Program) {
    forall l | 0 <= l < |p.layers| ::
      match p.layers[l].shape
      case First => true
      case External => true
      case Flatten(up, child) => up < l && child < l
      case other => other.up < l
  }

  /**
   Facts of a run the evaluator takes as given: dispatches refused at the call, external settlements, and
   posts that were accepted and lost by the gate (dropped at the hand-off, or never pumped again).
   */
  datatype Facts = Facts(refused: set<nat>, external: map<nat, Result>, lost: set<nat>)

  predicate HasUp(sh: Shape) {
    sh.Then? || sh.Catch? || sh.Finally? || sh.Flatten?
  }

  /** The layer passes its upstream result on without running anything. */
  predicate Skips(sh: Shape, u: Result) {
    match sh
    case Then(_) => u.Rejected?
    case Flatten(_, _) => u.Rejected?
    case Catch(_) => u.Fulfilled?
    case _ => false
  }

  function Ended(o: Outcome): Result {
    match o
    case Return(r) => r
    case Throw(reason) => Rejected(reason)
  }

  /** What a handler layer settles with when its body runs on `u`. */
  function BodyResult(p: Program, l: nat, u: Result): Result
    requires l < |p.layers|
  {
    if Mixed(p.layers[l].gates) then Rejected(GateSuspendedTwice)
    else
      var o := p.behaviour(l, u);
      if p.layers[l].shape.Finally? && o.Return? then u else Ended(o)
  }

  /**
   The evaluator: what the tree means, with no schedule in it.  No value means that the layer stays
   pending: its post was lost, nobody settles it from outside, or it depends on such a layer.
   */
  ghost function Evaluate(p: Program, f: Facts, l: nat): Option<Result>
    requires WellFormed(p) && l < |p.layers|
    decreases l
  {
    var sh := p.layers[l].shape;
    if l in f.refused then Some(Rejected(ExecutorStopped))
    else if l in f.lost then None
    else if sh.First? then Some(BodyResult(p, l, Fulfilled))
    else if sh.External? then (if l in f.external then Some(f.external[l]) else None)
    else
      var up := Evaluate(p, f, sh.up);
      if up.None? || Skips(sh, up.value) then up
      else if sh.Flatten? && !p.behaviour(l, up.value).Throw? then Evaluate(p, f, sh.child)
      else if sh.Flatten? then Some(Ended(p.behaviour(l, up.value)))
      else Some(BodyResult(p, l, up.value))
  }

  /** How often the evaluator says user code of layer l runs to its end. */
  ghost function Runs(p: Program, f: Facts, l: nat): nat
    requires WellFormed(p) && l < |p.layers|
  {
    var sh := p.layers[l].shape;
    if l in f.refused || l in f.lost || sh.External? then 0
    else if HasUp(sh) && (Evaluate(p, f, sh.up).None? || Skips(sh, Evaluate(p, f, sh.up).value)) then 0
    else if !sh.Flatten? && Mixed(p.layers[l].gates) then 0
    else 1
  }

  /** When a `finally` layer hands on the value u of its upstream layer. */
  ghost predicate FinallyKeeps(p: Program, f: Facts, l: nat, u: Result)
    requires l < |p.layers|
  {
    if l in f.refused then u == Rejected(ExecutorStopped)
    else if Mixed(p.layers[l].gates) then u == Rejected(GateSuspendedTwice)
    else p.behaviour(l, u).Return? || u == Rejected(p.behaviour(l, u).reason)
  }

  /**
   A `finally` layer that settles is transparent exactly in these cases: the handler runs and returns, or
   throws what was coming anyway; or the framework's own rejection (refused, suspended twice) was.
   */
  lemma FinallyIsTransparentIff(p: Program, f: Facts, l: nat)
    requires WellFormed(p) && l < |p.layers| && p.layers[l].shape.Finally?
    ensures p.layers[l].shape.up < l
    ensures var up := Evaluate(p, f, p.layers[l].shape.up);
            up.Some? && Evaluate(p, f, l).Some? ==> (Evaluate(p, f, l) == up <==> FinallyKeeps(p, f, l, up.value))
  {
    assert HasUp(p.layers[l].shape);
  }

  // ---- what the interface promises, layer by layer ----

  /**
   Layer l sees the upstream result u: r is what it ends with (if it ends), after `ends` complete runs of
   its user code, and `child` is what the promise of a factory ends with.
   */
  ghost predicate AsPromised(p: Program, l: nat, u: Result, r: Option<Result>, ends: nat, child: Option<Result>)
    requires l < |p.layers|
  {
    var o := p.behaviour(l, u);
    match p.layers[l].shape
    case External => true
    case First => HandlerCounts(p.layers[l].gates, o, r, ends)
    case Then(_) => if u == Fulfilled then HandlerCounts(p.layers[l].gates, o, r, ends) else PassedOn(u, r, ends)
    case Catch(_) => if u == Fulfilled then PassedOn(u, r, ends) else HandlerCounts(p.layers[l].gates, o, r, ends)
    case Finally(_) =>
      if AsksForBoth(p.layers[l].gates) then TwiceSuspended(r, ends)
      else ends == 1 && r == Some(if o.Throw? then Rejected(o.reason) else u)
    case Flatten(_, _) =>
      if u == Fulfilled then ends == 1 && r == (if o.Throw? then Some(Rejected(o.reason)) else child)
      else PassedOn(u, r, ends)
  }

  /** User code runs to its end once, and what it returns or throws is the layer's result. */
  ghost predicate HandlerCounts(gates: seq<Request>, o: Outcome, r: Option<Result>, ends: nat) {
    if AsksForBoth(gates) then TwiceSuspended(r, ends)
    else
      match o
      case Return(x) => ends == 1 && r == Some(x)
      case Throw(x) => ends == 1 && r == Some(Rejected(x))
  }

  /** User code is not called, and the upstream result goes on unchanged. */
  ghost predicate PassedOn(u: Result, r: Option<Result>, ends: nat) {
    ends == 0 && r == Some(u)
  }

  ghost predicate AsksForBoth(gates: seq<Request>) {
    exists i, j | 0 <= i < |gates| && 0 <= j < |gates| :: gates[i].kind == Read && gates[j].kind == Write
  }

  ghost predicate TwiceSuspended(r: Option<Result>, ends: nat) {
    ends == 0 && r == Some(Rejected(GateSuspendedTwice))
  }

  /** What a factory's promise ends with. */
  ghost function ChildOf(p: Program, f: Facts, l: nat): Option<Result>
    requires WellFormed(p) && l < |p.layers|
  {
    if p.layers[l].shape.Flatten? then Evaluate(p, f, p.layers[l].shape.child) else None
  }

  /** The evaluator keeps what the interface promises. */
  lemma EvaluatorKeepsPromises(p: Program, f: Facts, l: nat)
    requires WellFormed(p) && l < |p.layers|
    ensures l in f.refused ==> Evaluate(p, f, l) == Some(Rejected(ExecutorStopped)) && Runs(p, f, l) == 0
    ensures l !in f.refused && l in f.lost ==> Evaluate(p, f, l) == None && Runs(p, f, l) == 0
    ensures var sh := p.layers[l].shape;
            l !in f.refused && l !in f.lost ==>
              match sh
              case First => AsPromised(p, l, Fulfilled, Evaluate(p, f, l), Runs(p, f, l), None)
              case External =>
                Runs(p, f, l) == 0 && Evaluate(p, f, l) == if l in f.external then Some(f.external[l]) else None
              case other =>
                var up := Evaluate(p, f, sh.up);
                if up.None? then Evaluate(p, f, l) == None && Runs(p, f, l) == 0
                else AsPromised(p, l, up.value, Evaluate(p, f, l), Runs(p, f, l), ChildOf(p, f, l))
  {
    assert AsksForBoth(p.layers[l].gates) <==> Mixed(p.layers[l].gates);
  }

  // ---- running a program ----

  datatype Place =
    | Unborn                             // not appended yet
    | Waiting                            // its handler is stored in the upstream state; or a pending external layer
    | Released(u: Result, posted: bool)  // upstream settled with u: the handler was taken out, or `posted` late
    | Dispatched(u: Result, posted: bool)  // its body is running in place, or `posted`
    | Reentering(u: Result, kind: TaskKind)  // suspended once, posted again for a slot of `kind`
    | AwaitingChild                      // a factory ran; a notice is registered on the child
    | Settled(r: Result)
    | Lost                               // its accepted post is never run

  /** How a dispatch goes. */
  datatype Way = InPlace | Posted | Refused

  /** Ghost counters per layer: body starts, body ends, and the slot the body ended in. */
  datatype Count = Count(starts: nat, ends: nat, slot: Slot)

  datatype State = State(places: seq<Place>, counts: seq<Count>, f: Facts)

  datatype Step =
    | Append(l: nat, ok: bool)          // the layer is created; `ok`: a needed post is accepted
    | SettleExternal(l: nat, r: Result) // somebody calls resolve or reject
    | Invoke(l: nat, way: Way)          // its handler closure runs: skip, or dispatch
    | Run(l: nat, slot: Slot, ok: bool) // the body runs; `ok`: a re-entry post is accepted
    | RunAgain(l: nat)                  // the re-entry runs
    | Adopt(l: nat)                     // a factory runs
    | Deliver(l: nat)                   // the child's notice arrives
    | Drop(l: nat)                      // the gate loses the layer's accepted post

  ghost predicate Init(p: Program, s: State) {
    && |s.places| == |s.counts| == |p.layers|
    && s.f == Facts({}, map[], {})
    && (forall l | 0 <= l < |p.layers| :: s.places[l] == Unborn && s.counts[l].starts == 0 && s.counts[l].ends == 0)
  }

  predicate In(p: Program, s: State, l: nat) {
    l < |p.layers| == |s.places| == |s.counts|
  }

  /** The slots in which a body of this kind may find itself: posted into its own, or run in place. */
  predicate SlotFits(kind: TaskKind, slot: Slot) {
    kind.Direct? || slot == InSlot(kind)
  }

  ghost predicate Enabled(p: Program, s: State, step: Step) {
    match step
    case Append(l, ok) =>
      && In(p, s, l) && s.places[l].Unborn?
      && (HasUp(p.layers[l].shape) ==>
            && p.layers[l].shape.up < |p.layers| && !s.places[p.layers[l].shape.up].Unborn?
            && (!ok ==> s.places[p.layers[l].shape.up].Settled?))
    case SettleExternal(l, r) => In(p, s, l) && p.layers[l].shape.External? && s.places[l].Waiting?
    case Invoke(l, way) =>
      In(p, s, l) && s.places[l].Released? && (way.Refused? ==> !Skips(p.layers[l].shape, s.places[l].u))
    case Run(l, slot, ok) =>
      && In(p, s, l) && s.places[l].Dispatched? && !p.layers[l].shape.Flatten? && SlotFits(p.layers[l].kind, slot)
      && (!ok ==> Suspends(slot, p.layers[l].gates))
    case RunAgain(l) => In(p, s, l) && s.places[l].Reentering?
    case Adopt(l) =>
      && In(p, s, l) && s.places[l].Dispatched? && p.layers[l].shape.Flatten?
      && p.layers[l].shape.child < |p.layers| && !s.places[p.layers[l].shape.child].Unborn?
    case Deliver(l) =>
      && In(p, s, l) && s.places[l].AwaitingChild? && p.layers[l].shape.Flatten?
      && p.layers[l].shape.child < |p.layers| && s.places[p.layers[l].shape.child].Settled?
    case Drop(l) => In(p, s, l) && AtGate(p.layers[l].kind, s.places[l])
  }

  /** The layer is in a task the gate accepted; direct posts bypass it, and the pool loses nothing. */
  predicate AtGate(kind: TaskKind, pl: Place) {
    match pl
    case Released(_, posted) => posted && !kind.Direct?
    case Dispatched(_, posted) => posted && !kind.Direct?
    case Reentering(_, _) => true
    case _ => false
  }

  function Put(s: State, l: nat, pl: Place): State
    requires l < |s.places|
  {
    s.(places := s.places[l := pl])
  }

  /** `Settle`: publish, and take out the handlers of every layer waiting on this one. */
  function Settle(p: Program, s: State, l: nat, r: Result): State
    requires In(p, s, l)
  {
    s.(places := seq(|s.places|, i requires 0 <= i < |s.places| =>
      if i == l then Settled(r)
      else if s.places[i].Waiting? && HasUp(p.layers[i].shape) && p.layers[i].shape.up == l then Released(r, false)
      else s.places[i]))
  }

  function Refuse(p: Program, s: State, l: nat): State
    requires In(p, s, l)
  {
    Settle(p, s.(f := s.f.(refused := s.f.refused + {l})), l, Rejected(ExecutorStopped))
  }

  function Tally(s: State, l: nat, ended: bool, slot: Slot): State
    requires l < |s.counts|
  {
    var c := s.counts[l];
    s.(counts := s.counts[l := Count(c.starts + 1,
                                     if ended then c.ends + 1 else c.ends, if ended then slot else c.slot)])
  }

  /** The runner's ending: the body's outcome, `finally` keeping its upstream result. */
  function Finish(p: Program, s: State, l: nat, u: Result): State
    requires In(p, s, l)
  {
    var o := p.behaviour(l, u);
    Settle(p, s, l, if p.layers[l].shape.Finally? && o.Return? then u else Ended(o))
  }

  ghost function Apply(p: Program, s: State, step: Step): State
    requires Enabled(p, s, step)
  {
    match step
    case Append(l, ok) =>
      var sh := p.layers[l].shape;
      if !ok then Refuse(p, s, l)
      else if sh.First? then Put(s, l, Dispatched(Fulfilled, true))
      else if HasUp(sh) && s.places[sh.up].Settled? then Put(s, l, Released(s.places[sh.up].r, true))
      else Put(s, l, Waiting)
    case SettleExternal(l, r) => Settle(p, s.(f := s.f.(external := s.f.external[l := r])), l, r)
    case Invoke(l, way) =>
      var u := s.places[l].u;
      if Skips(p.layers[l].shape, u) then Settle(p, s, l, u)
      else if way.Refused? then Refuse(p, s, l)
      else Put(s, l, Dispatched(u, way.Posted?))
    case Run(l, slot, ok) =>
      var u := s.places[l].u;
      var gates := p.layers[l].gates;
      if !Suspends(slot, gates) then Finish(p, Tally(s, l, true, slot), l, u)
      else if ok then Put(Tally(s, l, false, slot), l, Reentering(u, Requested(slot, gates)))
      else Refuse(p, Tally(s, l, false, slot), l)
    case RunAgain(l) =>
      var u := s.places[l].u;
      var slot := InSlot(s.places[l].kind);
      if !Suspends(slot, p.layers[l].gates) then Finish(p, Tally(s, l, true, slot), l, u)
      else Settle(p, Tally(s, l, false, slot), l, Rejected(GateSuspendedTwice))
    case Adopt(l) =>
      var o := p.behaviour(l, s.places[l].u);
      var s1 := Tally(s, l, true, NoSlot);
      if o.Throw? then Settle(p, s1, l, Ended(o)) else Put(s1, l, AwaitingChild)
    case Deliver(l) => Settle(p, s, l, s.places[p.layers[l].shape.child].r)
    case Drop(l) => Put(s.(f := s.f.(lost := s.f.lost + {l})), l, Lost)
  }

  // ---- the invariant: every settled layer is justified by settled layers ----

  /** Layer l may act on upstream result u: its upstream settled so, and no dispatch of l was refused. */
  ghost predicate Upstream(p: Program, s: State, l: nat, u: Result)
    requires In(p, s, l)
  {
    var sh := p.layers[l].shape;
    && l !in s.f.refused && l !in s.f.lost
    && (sh.First? ==> u == Fulfilled)
    && !sh.External?
    && (HasUp(sh) ==> sh.up < |s.places| && s.places[sh.up] == Settled(u))
  }

  /** The layer's value follows from the values it depends on. */
  ghost predicate Justified(p: Program, s: State, l: nat, r: Result)
    requires In(p, s, l)
  {
    var sh := p.layers[l].shape;
    if l in s.f.refused then r == Rejected(ExecutorStopped)
    else if sh.External? then l in s.f.external && s.f.external[l] == r
    else exists u | Upstream(p, s, l, u) ::
      if Skips(sh, u) then r == u
      else if sh.Flatten? && !p.behaviour(l, u).Throw? then sh.child < |s.places| && s.places[sh.child] == Settled(r)
      else if sh.Flatten? then r == Ended(p.behaviour(l, u))
      else r == BodyResult(p, l, u)
  }

  /** How often the body of a settled layer must have ended. */
  ghost predicate CountsJustified(p: Program, s: State, l: nat)
    requires In(p, s, l)
  {
    var sh := p.layers[l].shape;
    s.counts[l].ends ==
      if l in s.f.refused || sh.External? then 0
      else if HasUp(sh) && sh.up < |s.places| && s.places[sh.up].Settled? && Skips(sh, s.places[sh.up].r) then 0
      else if !sh.Flatten? && Mixed(p.layers[l].gates) then 0
      else 1
  }

  /** A body is started a second time only if it asks for a slot. */
  function MaxStarts(p: Program, l: nat): nat
    requires l < |p.layers|
  {
    if Asks(p.layers[l].gates, Read) || Asks(p.layers[l].gates, Write) then 2 else 1
  }

  ghost predicate PlaceOk(p: Program, s: State, l: nat)
    requires In(p, s, l)
  {
    var sh := p.layers[l].shape;
    var c := s.counts[l];
    match s.places[l]
    case Unborn => c.starts == c.ends == 0 && l !in s.f.refused && l !in s.f.lost && l !in s.f.external
    case Waiting =>
      && c.starts == c.ends == 0 && l !in s.f.refused && l !in s.f.lost && l !in s.f.external && !sh.First?
      && (HasUp(sh) ==> sh.up < |s.places| && !s.places[sh.up].Settled? && !s.places[sh.up].Unborn?)
    case Released(u, _) => c.starts == c.ends == 0 && HasUp(sh) && Upstream(p, s, l, u)
    case Dispatched(u, _) => c.starts == c.ends == 0 && Upstream(p, s, l, u) && !Skips(sh, u)
    case Reentering(u, kind) =>
      && c.starts == 1 && c.ends == 0 && Upstream(p, s, l, u) && !Skips(sh, u) && !sh.Flatten?
      && Asks(p.layers[l].gates, kind) && !kind.Direct?
      && (Suspends(InSlot(kind), p.layers[l].gates) <==> Mixed(p.layers[l].gates))
    case AwaitingChild =>
      && sh.Flatten? && c.starts == c.ends == 1
      && (exists u :: Upstream(p, s, l, u) && !Skips(sh, u) && !p.behaviour(l, u).Throw?)
      && sh.child < |s.places| && !s.places[sh.child].Unborn?
    case Settled(r) => l !in s.f.lost && Justified(p, s, l, r)
                       && CountsJustified(p, s, l) && c.starts <= MaxStarts(p, l)
    case Lost =>
      && l in s.f.lost && l !in s.f.refused && !sh.External? && c.ends == 0 && c.starts <= MaxStarts(p, l)
      && (!p.layers[l].kind.Direct? || MaxStarts(p, l) == 2)
  }

  ghost predicate Inv(p: Program, s: State) {
    && WellFormed(p) && |s.places| == |s.counts| == |p.layers|
    && forall l | 0 <= l < |p.layers| :: PlaceOk(p, s, l) && SlotOk(p, s, l)
  }

  /** A body that ended did so in the slot of every kind it asked for, or else in one of the layer's kind. */
  ghost predicate SlotOk(p: Program, s: State, l: nat)
    requires In(p, s, l)
  {
    s.counts[l].ends > 0 && !p.layers[l].shape.Flatten? ==>
      && !Suspends(s.counts[l].slot, p.layers[l].gates)
      && (MaxStarts(p, l) == 1 ==> SlotFits(p.layers[l].kind, s.counts[l].slot))
  }

  /** Between two states only l may leave its place, apart from waiting layers that l's settling releases. */
  ghost predicate Moves(p: Program, s: State, s': State, l: nat)
    requires In(p, s, l)
  {
    && |s'.places| == |s'.counts| == |s.places|
    && !s.places[l].Settled? && !s.places[l].Lost? && !s'.places[l].Unborn?
    && (forall i | 0 <= i < |s.places| && i != l ::
          && s'.counts[i] == s.counts[i]
          && s'.places[i] ==
             if s'.places[l].Settled? && s.places[i].Waiting? && HasUp(p.layers[i].shape) && p.layers[i].shape.up == l
             then Released(s'.places[l].r, false) else s.places[i])
    && (forall i | i != l :: (i in s'.f.refused <==> i in s.f.refused) && (i in s'.f.lost <==> i in s.f.lost))
    && (forall i | i != l ::
          (i in s'.f.external <==> i in s.f.external) && (i in s.f.external ==> s'.f.external[i] == s.f.external[i]))
  }

  /** Such a move keeps what was established about every other layer. */
  lemma OthersKept(p: Program, s: State, s': State, l: nat, i: nat)
    requires Inv(p, s) && In(p, s, l) && Moves(p, s, s', l) && i < |p.layers| && i != l
    ensures PlaceOk(p, s', i) && SlotOk(p, s', i)
  {
    var sh := p.layers[i].shape;
    assert PlaceOk(p, s, i) && SlotOk(p, s, i);
    assert forall u | Upstream(p, s, i, u) :: Upstream(p, s', i, u);
    if s.places[i].AwaitingChild? {
      var u :| Upstream(p, s, i, u) && !Skips(sh, u) && !p.behaviour(i, u).Throw?;
      assert Upstream(p, s', i, u);
    } else if s.places[i].Settled? && i !in s.f.refused && !sh.External? {
      SettledKept(p, s, s', l, i);
    }
  }

  lemma SettledKept(p: Program, s: State, s': State, l: nat, i: nat)
    requires Inv(p, s) && In(p, s, l) && Moves(p, s, s', l) && i < |p.layers| && i != l
    requires s.places[i].Settled? && i !in s.f.refused && !p.layers[i].shape.External?
    ensures Justified(p, s', i, s.places[i].r) && CountsJustified(p, s', i)
  {
    var sh := p.layers[i].shape;
    var r := s.places[i].r;
    assert PlaceOk(p, s, i);
    var u :| Upstream(p, s, i, u)
      && if Skips(sh, u) then r == u
         else if sh.Flatten? && !p.behaviour(i, u).Throw? then sh.child < |s.places| && s.places[sh.child] == Settled(r)
         else if sh.Flatten? then r == Ended(p.behaviour(i, u))
         else r == BodyResult(p, i, u);
    assert Upstream(p, s', i, u);
  }

  lemma StepMoves(p: Program, s: State, step: Step)
    requires Inv(p, s) && Enabled(p, s, step)
    ensures Moves(p, s, Apply(p, s, step), step.l)
  {
  }

  /** Settling l with a justified result. */
  lemma SettledSelf(p: Program, s: State, s': State, l: nat, u: Result, r: Result)
    requires In(p, s, l) && In(p, s', l) && s'.places[l] == Settled(r)
    requires s'.f == s.f && Upstream(p, s, l, u)
    requires HasUp(p.layers[l].shape) ==> p.layers[l].shape.up != l && s'.places[p.layers[l].shape.up] == Settled(u)
    requires var sh := p.layers[l].shape;
      if Skips(sh, u) then r == u
      else if sh.Flatten? && !p.behaviour(l, u).Throw? then sh.child < |s.places| && s'.places[sh.child] == Settled(r)
      else if sh.Flatten? then r == Ended(p.behaviour(l, u))
      else r == BodyResult(p, l, u)
    ensures Justified(p, s', l, r)
  {
    assert Upstream(p, s', l, u);
  }

  lemma AppendSelf(p: Program, s: State, step: Step)
    requires Inv(p, s) && Enabled(p, s, step) && step.Append?
    ensures PlaceOk(p, Apply(p, s, step), step.l) && SlotOk(p, Apply(p, s, step), step.l)
  {
    var s' := Apply(p, s, step);
    var l := step.l;
    assert PlaceOk(p, s, l);
    if HasUp(p.layers[l].shape) {
      assert PlaceOk(p, s, p.layers[l].shape.up);
    }
    if s'.places[l].Released? {
      assert Upstream(p, s', l, s'.places[l].u);
    }
  }

  lemma InvokeSelf(p: Program, s: State, step: Step)
    requires Inv(p, s) && Enabled(p, s, step) && step.Invoke?
    ensures PlaceOk(p, Apply(p, s, step), step.l) && SlotOk(p, Apply(p, s, step), step.l)
  {
    var s' := Apply(p, s, step);
    var l := step.l;
    var u := s.places[l].u;
    assert PlaceOk(p, s, l);
    if Skips(p.layers[l].shape, u) {
      SettledSelf(p, s, s', l, u, u);
    } else if !step.way.Refused? {
      assert Upstream(p, s', l, u);
    }
  }

  lemma FinishSelf(p: Program, s: State, s1: State, l: nat, u: Result, slot: Slot)
    requires WellFormed(p) && In(p, s, l) && Upstream(p, s, l, u) && !Skips(p.layers[l].shape, u)
    requires !p.layers[l].shape.Flatten?
    requires s.counts[l].ends == 0 && s.counts[l].starts < MaxStarts(p, l)
    requires !Suspends(slot, p.layers[l].gates) && !Mixed(p.layers[l].gates)
    requires SlotFits(p.layers[l].kind, slot) || MaxStarts(p, l) == 2
    requires s1 == Tally(s, l, true, slot)
    ensures PlaceOk(p, Finish(p, s1, l, u), l) && SlotOk(p, Finish(p, s1, l, u), l)
  {
    var s' := Finish(p, s1, l, u);
    SettledSelf(p, s, s', l, u, BodyResult(p, l, u));
  }

  lemma RunSelf(p: Program, s: State, step: Step)
    requires Inv(p, s) && Enabled(p, s, step) && step.Run?
    ensures PlaceOk(p, Apply(p, s, step), step.l) && SlotOk(p, Apply(p, s, step), step.l)
  {
    var s' := Apply(p, s, step);
    var l := step.l;
    var u := s.places[l].u;
    var gates := p.layers[l].gates;
    assert PlaceOk(p, s, l);
    if !Suspends(step.slot, gates) {
      SuspendsIff(step.slot, gates);
      NotSuspendedNotMixed(step.slot, gates);
      FinishSelf(p, s, Tally(s, l, true, step.slot), l, u, step.slot);
    } else if step.ok {
      assert Upstream(p, s', l, u);
      RequestedIsAsked(step.slot, gates);
      SecondRunSuspendsIffMixed(step.slot, gates);
    }
  }

  lemma NotSuspendedNotMixed(slot: Slot, reqs: seq<Request>)
    requires !Suspends(slot, reqs)
    ensures !Mixed(reqs)
  {
    if Asks(reqs, Read) {
      CompletesInRequestedSlot(slot, reqs, Read);
    }
  }

  lemma RunAgainSelf(p: Program, s: State, step: Step)
    requires Inv(p, s) && Enabled(p, s, step) && step.RunAgain?
    ensures PlaceOk(p, Apply(p, s, step), step.l) && SlotOk(p, Apply(p, s, step), step.l)
  {
    var s' := Apply(p, s, step);
    var l := step.l;
    var u := s.places[l].u;
    var slot := InSlot(s.places[l].kind);
    assert PlaceOk(p, s, l);
    if !Suspends(slot, p.layers[l].gates) {
      FinishSelf(p, s, Tally(s, l, true, slot), l, u, slot);
    } else {
      SettledSelf(p, s, s', l, u, Rejected(GateSuspendedTwice));
    }
  }

  lemma AdoptSelf(p: Program, s: State, step: Step)
    requires Inv(p, s) && Enabled(p, s, step) && step.Adopt?
    ensures PlaceOk(p, Apply(p, s, step), step.l) && SlotOk(p, Apply(p, s, step), step.l)
  {
    var s' := Apply(p, s, step);
    var l := step.l;
    var u := s.places[l].u;
    assert PlaceOk(p, s, l);
    if p.behaviour(l, u).Throw? {
      SettledSelf(p, s, s', l, u, Ended(p.behaviour(l, u)));
    } else {
      assert Upstream(p, s', l, u);
    }
  }

  lemma DeliverSelf(p: Program, s: State, step: Step)
    requires Inv(p, s) && Enabled(p, s, step) && step.Deliver?
    ensures PlaceOk(p, Apply(p, s, step), step.l) && SlotOk(p, Apply(p, s, step), step.l)
  {
    var s' := Apply(p, s, step);
    var l := step.l;
    var sh := p.layers[l].shape;
    assert PlaceOk(p, s, l);
    var u :| Upstream(p, s, l, u) && !Skips(sh, u) && !p.behaviour(l, u).Throw?;
    assert sh.child < l && s'.places[sh.child] == s.places[sh.child];
    SettledSelf(p, s, s', l, u, s.places[sh.child].r);
  }

  lemma StepInv(p: Program, s: State, step: Step)
    requires Inv(p, s) && Enabled(p, s, step)
    ensures Inv(p, Apply(p, s, step))
  {
    StepMoves(p, s, step);
    var s' := Apply(p, s, step);
    if step.Append? {
      AppendSelf(p, s, step);
    } else if step.Invoke? {
      InvokeSelf(p, s, step);
    } else if step.Run? {
      RunSelf(p, s, step);
    } else if step.RunAgain? {
      RunAgainSelf(p, s, step);
    } else if step.Adopt? {
      AdoptSelf(p, s, step);
    } else if step.Deliver? {
      DeliverSelf(p, s, step);
    } else {
      assert PlaceOk(p, s, step.l);
    }
    forall i | 0 <= i < |p.layers|
      ensures PlaceOk(p, s', i) && SlotOk(p, s', i)
    {
      if i != step.l {
        OthersKept(p, s, s', step.l, i);
      }
    }
  }

  // ---- runs ----

  ghost predicate Valid(p: Program, s: State, steps: seq<Step>)
    decreases |steps|
  {
    steps == [] || (Enabled(p, s, steps[0]) && Valid(p, Apply(p, s, steps[0]), steps[1..]))
  }

  ghost function After(p: Program, s: State, steps: seq<Step>): State
    requires Valid(p, s, steps)
    decreases |steps|
  {
    if steps == [] then s else After(p, Apply(p, s, steps[0]), steps[1..])
  }

  lemma {:induction false} RunKeepsInv(p: Program, s: State, steps: seq<Step>)
    requires Inv(p, s) && Valid(p, s, steps)
    ensures Inv(p, After(p, s, steps))
    decreases |steps|
  {
    if steps != [] {
      StepInv(p, s, steps[0]);
      RunKeepsInv(p, Apply(p, s, steps[0]), steps[1..]);
    }
  }

  lemma ReachableInv(p: Program, s: State, steps: seq<Step>)
    requires WellFormed(p) && Init(p, s) && Valid(p, s, steps)
    ensures Inv(p, After(p, s, steps))
  {
    RunKeepsInv(p, s, steps);
  }

  /** Local justification is enough: by induction along the dependencies it is the evaluator's value. */
  lemma {:induction false} JustifiedIsEvaluated(p: Program, s: State, l: nat)
    requires Inv(p, s) && l < |p.layers| && s.places[l].Settled?
    ensures Evaluate(p, s.f, l) == Some(s.places[l].r)
    ensures s.counts[l].ends == Runs(p, s.f, l)
    decreases l
  {
    assert PlaceOk(p, s, l);
    var sh := p.layers[l].shape;
    var r := s.places[l].r;
    if l !in s.f.refused && !sh.External? {
      var u :| Upstream(p, s, l, u)
        && if Skips(sh, u) then r == u
           else if sh.Flatten? && !p.behaviour(l, u).Throw?
              then sh.child < |s.places| && s.places[sh.child] == Settled(r)
           else if sh.Flatten? then r == Ended(p.behaviour(l, u))
           else r == BodyResult(p, l, u);
      if HasUp(sh) {
        JustifiedIsEvaluated(p, s, sh.up);
        if sh.Flatten? && !Skips(sh, u) && !p.behaviour(l, u).Throw? {
          JustifiedIsEvaluated(p, s, sh.child);
        }
      }
    }
  }

  /**
   Refinement: in every interleaving of appending, settling, releasing, dispatching in place or
   posted, suspending and re-entering, each settled layer has the evaluator's value, and its user
   code ran to its end exactly as often as the evaluator says.
   */
  lemma RunRefinesEvaluator(p: Program, s: State, steps: seq<Step>, l: nat)
    requires WellFormed(p) && Init(p, s) && Valid(p, s, steps) && l < |p.layers|
    ensures var e := After(p, s, steps);
            && In(p, e, l)
            && (e.places[l].Settled?
                ==> Evaluate(p, e.f, l) == Some(e.places[l].r) && e.counts[l].ends == Runs(p, e.f, l))
  {
    ReachableInv(p, s, steps);
    if After(p, s, steps).places[l].Settled? {
      JustifiedIsEvaluated(p, After(p, s, steps), l);
    }
  }

  /** In every interleaving, what a settled layer ends with and how often its user code ran is as promised. */
  lemma RunsKeepPromises(p: Program, s: State, steps: seq<Step>, l: nat)
    requires WellFormed(p) && Init(p, s) && Valid(p, s, steps) && l < |p.layers|
    ensures var e, sh := After(p, s, steps), p.layers[l].shape;
            && In(p, e, l)
            && (e.places[l].Settled? ==>
                  var r, ends := e.places[l].r, e.counts[l].ends;
                  if l in e.f.refused then r == Rejected(ExecutorStopped) && ends == 0
                  else if sh.External? then ends == 0 && l in e.f.external && e.f.external[l] == r
                  else if sh.First? then AsPromised(p, l, Fulfilled, Some(r), ends, None)
                  else
                    && sh.up < l && e.places[sh.up].Settled?
                    && AsPromised(p, l, e.places[sh.up].r, Some(r), ends, ValueOf(e, sh)))
  {
    ReachableInv(p, s, steps);
    var e := After(p, s, steps);
    var sh := p.layers[l].shape;
    assert PlaceOk(p, e, l);
    if e.places[l].Settled? {
      JustifiedIsEvaluated(p, e, l);
      EvaluatorKeepsPromises(p, e.f, l);
      if l !in e.f.refused && HasUp(sh) {
        RunRefinesEvaluator(p, s, steps, sh.up);
      }
    }
  }

  /** The child's result, once there is one. */
  ghost function ValueOf(e: State, sh: Shape): Option<Result> {
    if sh.Flatten? && sh.child < |e.places| && e.places[sh.child].Settled? then Some(e.places[sh.child].r) else None
  }

  /** The same for two settled layers of a run: what `finally` hands on, in every interleaving. */
  lemma FinallyInRuns(p: Program, s: State, steps: seq<Step>, l: nat)
    requires WellFormed(p) && Init(p, s) && Valid(p, s, steps) && l < |p.layers| && p.layers[l].shape.Finally?
    ensures p.layers[l].shape.up < l
    ensures var e := After(p, s, steps);
            && In(p, e, l)
            && (e.places[l].Settled? && e.places[p.layers[l].shape.up].Settled? ==>
                  (e.places[l] == e.places[p.layers[l].shape.up]
                   <==> FinallyKeeps(p, e.f, l, e.places[p.layers[l].shape.up].r)))
  {
    FinallyIsTransparentIff(p, After(p, s, steps).f, l);
    RunRefinesEvaluator(p, s, steps, l);
    RunRefinesEvaluator(p, s, steps, p.layers[l].shape.up);
  }

  /**
   User code of a layer ends at most once.  A body is started at most once if it asks for no slot and at
   most twice if it does, and if it ended, it ended in each slot it asked for, or, if it asked for none,
   in a slot of the layer's kind.
   */
  lemma BodiesBounded(p: Program, s: State, steps: seq<Step>, l: nat)
    requires WellFormed(p) && Init(p, s) && Valid(p, s, steps) && l < |p.layers|
    ensures var e := After(p, s, steps);
            && In(p, e, l) && e.counts[l].ends <= 1 && e.counts[l].starts <= MaxStarts(p, l)
            && (e.counts[l].ends == 1 && !p.layers[l].shape.Flatten? ==>
                  forall kind: TaskKind | Asks(p.layers[l].gates, kind) && !kind.Direct? ::
                        e.counts[l].slot == InSlot(kind))
            && (e.counts[l].ends == 1 && !p.layers[l].shape.Flatten? && !p.layers[l].kind.Direct?
                && !Asks(p.layers[l].gates, Read) && !Asks(p.layers[l].gates, Write) ==>
                  e.counts[l].slot == InSlot(p.layers[l].kind))
  {
    ReachableInv(p, s, steps);
    var e := After(p, s, steps);
    assert PlaceOk(p, e, l) && SlotOk(p, e, l);
    if e.counts[l].ends > 0 && !p.layers[l].shape.Flatten? {
      forall kind: TaskKind | Asks(p.layers[l].gates, kind) && !kind.Direct?
        ensures e.counts[l].slot == InSlot(kind)
      {
        CompletesInRequestedSlot(e.counts[l].slot, p.layers[l].gates, kind);
      }
    }
  }

  /** Only a layer that goes through the gate is ever lost, and then its user code never ran to its end. */
  lemma LostIsGated(p: Program, s: State, steps: seq<Step>, l: nat)
    requires WellFormed(p) && Init(p, s) && Valid(p, s, steps) && l < |p.layers|
    ensures var e := After(p, s, steps);
            && In(p, e, l)
            && (l in e.f.lost ==>
                  && e.counts[l].ends == 0 && !e.places[l].Settled?
                  && (p.layers[l].kind != Direct || Asks(p.layers[l].gates, Read) || Asks(p.layers[l].gates, Write)))
  {
    ReachableInv(p, s, steps);
    assert PlaceOk(p, After(p, s, steps), l);
  }

  /**
   The schedule does not matter: two runs with the same refusals and external results agree on
   every layer both settled.
   */
  lemma ScheduleIndependent(p: Program, s: State, a: seq<Step>, b: seq<Step>, l: nat)
    requires WellFormed(p) && Init(p, s) && Valid(p, s, a) && Valid(p, s, b) && l < |p.layers|
    requires After(p, s, a).f == After(p, s, b).f
    ensures var ea := After(p, s, a);
            var eb := After(p, s, b);
            && In(p, ea, l) && In(p, eb, l)
            && (ea.places[l].Settled? && eb.places[l].Settled? ==>
                  ea.places[l] == eb.places[l] && ea.counts[l].ends == eb.counts[l].ends)
  {
    RunRefinesEvaluator(p, s, a, l);
    RunRefinesEvaluator(p, s, b, l);
  }

  // ---- which layers stay pending ----

  /** Steps the framework has to make by itself; losing a post is not one of them. */
  predicate Internal(step: Step) {
    step.Invoke? || step.Run? || step.RunAgain? || step.Adopt? || step.Deliver?
  }

  ghost predicate AtRest(p: Program, s: State) {
    forall step | Internal(step) :: !Enabled(p, s, step)
  }

  predicate AllAppended(s: State) {
    forall i | 0 <= i < |s.places| :: !s.places[i].Unborn?
  }

  /** At rest every appended layer is settled, lost, or waiting for an unsettled one. */
  lemma RestingPlace(p: Program, s: State, l: nat)
    requires Inv(p, s) && l < |p.layers| && AllAppended(s) && AtRest(p, s)
    ensures s.places[l].Settled? || s.places[l].Lost? || s.places[l].Waiting? || s.places[l].AwaitingChild?
    ensures s.places[l].AwaitingChild? ==>
      p.layers[l].shape.Flatten? && p.layers[l].shape.child < |s.places| && !s.places[p.layers[l].shape.child].Settled?
  {
    assert PlaceOk(p, s, l);
    var slot := if p.layers[l].kind.Direct? then NoSlot else InSlot(p.layers[l].kind);
    assert Internal(Invoke(l, Posted)) && !Enabled(p, s, Invoke(l, Posted));
    assert Internal(Run(l, slot, true)) && !Enabled(p, s, Run(l, slot, true));
    assert Internal(RunAgain(l)) && !Enabled(p, s, RunAgain(l));
    assert Internal(Adopt(l)) && !Enabled(p, s, Adopt(l));
    assert Internal(Deliver(l)) && !Enabled(p, s, Deliver(l));
  }

  /**
   No handler is forgotten: when every layer has been appended and no internal step is left, exactly the
   layers to which the evaluator gives a value are settled, with that value, and user code has run to
   its end exactly as often as the evaluator says, in pending layers, too.
   */
  lemma {:induction false} SettledIffEvaluated(p: Program, s: State, l: nat)
    requires Inv(p, s) && l < |p.layers| && AllAppended(s) && AtRest(p, s)
    ensures s.places[l].Settled? <==> Evaluate(p, s.f, l).Some?
    ensures s.places[l].Settled? ==> Evaluate(p, s.f, l) == Some(s.places[l].r)
    ensures s.counts[l].ends == Runs(p, s.f, l)
    decreases l
  {
    assert PlaceOk(p, s, l);
    var sh := p.layers[l].shape;
    if s.places[l].Settled? {
      JustifiedIsEvaluated(p, s, l);
    } else {
      RestingPlace(p, s, l);
      if HasUp(sh) {
        SettledIffEvaluated(p, s, sh.up);
      }
      if s.places[l].AwaitingChild? {
        SettledIffEvaluated(p, s, sh.child);
      }
    }
  }

  /** With no post lost and every external layer settled, the evaluator has a value for every layer. */
  lemma {:induction false} NothingLostNothingPending(p: Program, f: Facts, l: nat)
    requires WellFormed(p) && l < |p.layers| && f.lost == {}
    requires forall i | 0 <= i < |p.layers| && p.layers[i].shape.External? :: i in f.external
    ensures Evaluate(p, f, l).Some?
    decreases l
  {
    var sh := p.layers[l].shape;
    if HasUp(sh) {
      NothingLostNothingPending(p, f, sh.up);
    }
    if sh.Flatten? {
      NothingLostNothingPending(p, f, sh.child);
    }
  }

  function Rank(pl: Place): nat {
    match pl
    case Unborn => 6
    case Waiting => 5
    case Released(_, _) => 4
    case Dispatched(_, _) => 3
    case Reentering(_, _) => 2
    case AwaitingChild => 1
    case Settled(_) => 0
    case Lost => 0
  }

  function Measure(places: seq<Place>): nat {
    if places == [] then 0 else Measure(places[..|places| - 1]) + Rank(places[|places| - 1])
  }

  lemma {:induction false} MeasureMonotone(a: seq<Place>, b: seq<Place>)
    requires |a| == |b| && forall i | 0 <= i < |a| :: Rank(b[i]) <= Rank(a[i])
    ensures Measure(b) <= Measure(a)
    ensures (exists i | 0 <= i < |a| :: Rank(b[i]) < Rank(a[i])) ==> Measure(b) < Measure(a)
    decreases |a|
  {
    if a != [] {
      MeasureMonotone(a[..|a| - 1], b[..|b| - 1]);
      if exists i | 0 <= i < |a| :: Rank(b[i]) < Rank(a[i]) {
        var i :| 0 <= i < |a| && Rank(b[i]) < Rank(a[i]);
        if i < |a| - 1 {
          assert Rank(b[..|b| - 1][i]) < Rank(a[..|a| - 1][i]);
        }
      }
    }
  }

  lemma {:induction false} MeasureBound(places: seq<Place>)
    ensures Measure(places) <= 6 * |places|
    decreases |places|
  {
    if places != [] {
      MeasureBound(places[..|places| - 1]);
    }
  }

  /** Every run of a program with n layers makes at most 6n steps, re-entries included. */
  lemma {:induction false} RunsAreBounded(p: Program, s: State, steps: seq<Step>)
    requires Inv(p, s) && Valid(p, s, steps)
    ensures |steps| <= Measure(s.places) <= 6 * |p.layers|
    decreases |steps|
  {
    MeasureBound(s.places);
    if steps != [] {
      var s' := Apply(p, s, steps[0]);
      StepMoves(p, s, steps[0]);
      StepInv(p, s, steps[0]);
      StepRank(p, s, steps[0]);
      MeasureMonotone(s.places, s'.places);
      RunsAreBounded(p, s', steps[1..]);
    }
  }

  lemma StepRank(p: Program, s: State, step: Step)
    requires Inv(p, s) && Enabled(p, s, step)
    ensures Rank(Apply(p, s, step).places[step.l]) < Rank(s.places[step.l])
  {
    assert PlaceOk(p, s, step.l);
  }

  /**
   At the end of any run in which everything was appended, and runs do end, exactly the layers with an
   evaluator's value are settled, with it; without lost posts and unsettled external layers, all are.
   */
  lemma CompleteRunsSettle(p: Program, s: State, steps: seq<Step>)
    requires WellFormed(p) && Init(p, s) && Valid(p, s, steps)
    requires AtRest(p, After(p, s, steps)) && AllAppended(After(p, s, steps))
    ensures |steps| <= 6 * |p.layers|
    ensures var e := After(p, s, steps);
            && |e.places| == |e.counts| == |p.layers|
            && (forall l | 0 <= l < |p.layers| ::
                  && (e.places[l].Settled? <==> Evaluate(p, e.f, l).Some?)
                  && (e.places[l].Settled? ==> Evaluate(p, e.f, l) == Some(e.places[l].r))
                  && e.counts[l].ends == Runs(p, e.f, l))
            && (e.f.lost == {}
                && (forall i | 0 <= i < |p.layers| && p.layers[i].shape.External? :: i in e.f.external)
                ==> forall l | 0 <= l < |p.layers| :: e.places[l].Settled?)
  {
    ReachableInv(p, s, steps);
    RunsAreBounded(p, s, steps);
    var e := After(p, s, steps);
    forall l | 0 <= l < |p.layers|
      ensures e.places[l].Settled? <==> Evaluate(p, e.f, l).Some?
      ensures e.places[l].Settled? ==> Evaluate(p, e.f, l) == Some(e.places[l].r)
      ensures e.counts[l].ends == Runs(p, e.f, l)
    {
      SettledIffEvaluated(p, e, l);
    }
    if e.f.lost == {} && forall i | 0 <= i < |p.layers| && p.layers[i].shape.External? :: i in e.f.external {
      forall l | 0 <= l < |p.layers|
        ensures e.places[l].Settled?
      {
        NothingLostNothingPending(p, e.f, l);
      }
    }
  }

  // ---- two runs ----

  /** One layer that is fulfilled, and a `finally` layer behind it whose handler throws. */
  function ThrowingFinally(): Program {
    Program([Layer(First, Write, []), Layer(Finally(0), Write, [])],
            (l, u) => if l == 1 then Throw(User(7)) else Return(Fulfilled))
  }

  function Start(n: nat): State {
    State(seq(n, _ => Unborn), seq(n, _ => Count(0, 0, NoSlot)), Facts({}, map[], {}))
  }

  lemma RunCons(p: Program, s: State, step: Step, steps: seq<Step>)
    requires Enabled(p, s, step) && Valid(p, Apply(p, s, step), steps)
    ensures Valid(p, s, [step] + steps) && After(p, s, [step] + steps) == After(p, Apply(p, s, step), steps)
  {
    assert ([step] + steps)[1..] == steps;
  }

  /** Both layers appended, the first one posted. */
  function Appended(): State {
    Start(2).(places := [Dispatched(Fulfilled, true), Waiting])
  }

  lemma AppendBoth(steps: seq<Step>) returns (all: seq<Step>)
    requires Valid(ThrowingFinally(), Appended(), steps)
    ensures var p := ThrowingFinally();
            && WellFormed(p) && Init(p, Start(2)) && Valid(p, Start(2), all)
            && After(p, Start(2), all) == After(p, Appended(), steps)
  {
    var p := ThrowingFinally();
    var s1 := Apply(p, Start(2), Append(0, true));
    assert Apply(p, s1, Append(1, true)).places == Appended().places;
    RunCons(p, s1, Append(1, true), steps);
    RunCons(p, Start(2), Append(0, true), [Append(1, true)] + steps);
    all := [Append(0, true)] + ([Append(1, true)] + steps);
  }

  /** A run in which a throwing `finally` handler turns a fulfilled chain into a rejected one. */
  lemma FinallyCanChangeTheResult() returns (steps: seq<Step>)
    ensures var p := ThrowingFinally();
            && WellFormed(p) && Init(p, Start(2)) && Valid(p, Start(2), steps)
            && var e := After(p, Start(2), steps);
               |e.places| == 2 && e.places[0] == Settled(Fulfilled) && e.places[1] == Settled(Rejected(User(7)))
  {
    var p := ThrowingFinally();
    var body := Run(0, InSlot(Write), true);
    var handler := Run(1, InSlot(Write), true);
    var s1 := Apply(p, Appended(), body);
    assert s1.places == [Settled(Fulfilled), Released(Fulfilled, false)];
    var s2 := Apply(p, s1, Invoke(1, InPlace));
    assert s2.places == [Settled(Fulfilled), Dispatched(Fulfilled, false)];
    RunCons(p, s2, handler, []);
    RunCons(p, s1, Invoke(1, InPlace), [handler] + []);
    RunCons(p, Appended(), body, [Invoke(1, InPlace)] + ([handler] + []));
    steps := AppendBoth([body] + ([Invoke(1, InPlace)] + ([handler] + [])));
  }

  /** Wherever a run has got to, a gated layer appended behind a settled one can be accepted and lost. */
  lemma LatePostCanBeLost(p: Program, s: State, l: nat)
    requires Inv(p, s) && l < |p.layers| && s.places[l].Unborn? && p.layers[l].kind != Direct
    requires HasUp(p.layers[l].shape) && s.places[p.layers[l].shape.up].Settled?
    ensures Valid(p, s, [Append(l, true), Drop(l)])
    ensures l < |After(p, s, [Append(l, true), Drop(l)]).places|
    ensures After(p, s, [Append(l, true), Drop(l)]).places[l] == Lost
  {
    var s1 := Apply(p, s, Append(l, true));
    RunCons(p, s1, Drop(l), []);
    RunCons(p, s, Append(l, true), [Drop(l)] + []);
    assert [Append(l, true)] + ([Drop(l)] + []) == [Append(l, true), Drop(l)];
  }

  /** A run in which the gate loses the accepted first post: the whole chain stays pending for good. */
  lemma LostPostLeavesPending() returns (steps: seq<Step>)
    ensures var p := ThrowingFinally();
            && WellFormed(p) && Init(p, Start(2)) && Valid(p, Start(2), steps)
            && var e := After(p, Start(2), steps);
               AllAppended(e) && AtRest(p, e) && |e.places| == 2 && !e.places[0].Settled? && !e.places[1].Settled?
  {
    var p := ThrowingFinally();
    assert Apply(p, Appended(), Drop(0)).places == [Lost, Waiting];
    RunCons(p, Appended(), Drop(0), []);
    steps := AppendBoth([Drop(0)] + []);
  }
}
