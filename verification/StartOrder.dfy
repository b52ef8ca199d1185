/**
 The module manager's start order: a topological sort (in-degrees, successor lists, a FIFO queue) with
 duplicate dependencies kept, unknown and own interfaces ignored, and cycles put at the end.
 */
module StartOrder {

  /** A registered module: the interface it is registered under (0: by name only) and those it needs. */
  datatype Module = Module(iid: nat, deps: seq<nat>)

  datatype Provider = Nobody | Known(index: nat)

  /** The first of the first n modules registered under this interface. */
  function FirstWith(ms: seq<Module>, iid: nat, n: nat): (p: Provider)
    requires n <= |ms|
    ensures p.Known? ==> p.index < n
  {
    if n == 0 || iid == 0 then Nobody
    else if FirstWith(ms, iid, n - 1).Known? then FirstWith(ms, iid, n - 1)
    else if ms[n - 1].iid == iid then Known(n - 1)
    else Nobody
  }

  /** The providers of module i for its first k dependencies, one entry per dependency. */
  function Resolved(ms: seq<Module>, i: nat, k: nat): (ps: seq<nat>)
    requires i < |ms| && k <= |ms[i].deps|
    ensures forall j | 0 <= j < |ps| :: ps[j] < |ms| && ps[j] != i
  {
    if k == 0 then []
    else
      var p := FirstWith(ms, ms[i].deps[k - 1], |ms|);
      Resolved(ms, i, k - 1) + if p.Known? && p.index != i then [p.index] else []
  }

  function Providers(ms: seq<Module>, i: nat): (ps: seq<nat>)
    requires i < |ms|
    ensures forall j | 0 <= j < |ps| :: ps[j] < |ms|
  {
    Resolved(ms, i, |ms[i].deps|)
  }

  /** For each module, the modules it needs: a provider appears as often as the dependency is declared. */
  function AllProviders(ms: seq<Module>): (needs: seq<seq<nat>>)
    ensures |needs| == |ms| && forall v | 0 <= v < |ms| :: needs[v] == Providers(ms, v)
  {
    seq(|ms|, v requires 0 <= v < |ms| => Providers(ms, v))
  }

  ghost predicate WellFormed(needs: seq<seq<nat>>) {
    forall v | 0 <= v < |needs| :: Below(needs[v], |needs|)
  }

  // ---- what the order means ----

  /** Each module of the list needs the next one. */
  ghost predicate Path(needs: seq<seq<nat>>, path: seq<nat>) {
    && (forall k | 0 <= k < |path| :: path[k] < |needs|)
    && (forall k | 0 <= k < |path| - 1 :: path[k + 1] in needs[path[k]])
  }

  ghost predicate Repeats(path: seq<nat>) {
    exists k, l | 0 <= k < l < |path| :: path[k] == path[l]
  }

  /** Following providers from v, one can come around to the same module. */
  ghost predicate ReachesCycle(needs: seq<seq<nat>>, v: nat) {
    exists path :: Path(needs, path) && path != [] && path[0] == v && Repeats(path)
  }

  predicate Distinct(s: seq<nat>) {
    forall a, b | 0 <= a < b < |s| :: s[a] != s[b]
  }

  predicate Below(s: seq<nat>, n: nat) {
    forall a | 0 <= a < |s| :: s[a] < n
  }

  /** One behind the position of the last provider among the first k of `all`; 0 if there is none. */
  function Release(ps: seq<nat>, all: seq<nat>, k: nat): (r: nat)
    requires k <= |all|
    ensures r <= k && (r > 0 ==> all[r - 1] in ps)
    ensures forall a | r <= a < k :: all[a] !in ps
  {
    if k == 0 then 0 else if all[k - 1] in ps then k else Release(ps, all, k - 1)
  }

  /** Earlier last provider first, then registration order. */
  predicate Precedes(r: nat, x: nat, s: nat, y: nat) {
    r < s || (r == s && x < y)
  }

  /** `all` is sorted by (last provider's position among the first k, registration index). */
  ghost predicate Sorted(needs: seq<seq<nat>>, all: seq<nat>, k: nat)
    requires Below(all, |needs|) && k <= |all|
  {
    forall a, b {:trigger Release(needs[all[a]], all, k), Release(needs[all[b]], all, k)} | 0 <= a < b < |all| ::
      Precedes(Release(needs[all[a]], all, k), all[a], Release(needs[all[b]], all, k), all[b])
  }

  /** All providers of the module at position b are before it, among the first k. */
  ghost predicate ProvidedAt(needs: seq<seq<nat>>, all: seq<nat>, k: nat, b: nat)
    requires k <= |all| && b < |all| && all[b] < |needs|
  {
    forall p | p in needs[all[b]] :: p in all[..if b < k then b else k]
  }

  ghost predicate Provided(needs: seq<seq<nat>>, all: seq<nat>, k: nat)
    requires Below(all, |needs|) && k <= |all|
  {
    forall b | 0 <= b < |all| :: ProvidedAt(needs, all, k, b)
  }

  /** The full statement: which modules the sort emits, in which order, and what happens to the rest. */
  ghost predicate IsStartOrder(needs: seq<seq<nat>>, order: seq<nat>, cut: nat) {
    && |order| == |needs| && cut <= |order|
    && Below(order, |needs|) && Distinct(order) && (forall v: nat | v < |needs| :: v in order)
    && Below(order[..cut], |needs|) && EmittedAreAcyclic(needs, order[..cut])
    && Provided(needs, order[..cut], cut) && Sorted(needs, order[..cut], cut)
    && (forall a, b | cut <= a < b < |order| :: order[a] < order[b])
  }

  ghost predicate EmittedAreAcyclic(needs: seq<seq<nat>>, emitted: seq<nat>) {
    forall v | 0 <= v < |needs| :: v in emitted <==> !ReachesCycle(needs, v)
  }

  // ---- counting dependencies ----

  function Count(s: seq<nat>, x: nat): nat {
    if s == [] then 0 else Count(s[..|s| - 1], x) + if s[|s| - 1] == x then 1 else 0
  }

  lemma {:induction false} CountPositive(s: seq<nat>, x: nat)
    ensures Count(s, x) > 0 <==> x in s
    decreases |s|
  {
    if s != [] {
      CountPositive(s[..|s| - 1], x);
      assert s == s[..|s| - 1] + [s[|s| - 1]];
    }
  }

  lemma {:induction false} CountPrefix(s: seq<nat>, k: nat, x: nat)
    requires k <= |s|
    ensures Count(s[..k], x) <= Count(s, x)
    decreases |s|
  {
    if k < |s| {
      CountPrefix(s[..|s| - 1], k, x);
      assert s[..|s| - 1][..k] == s[..k];
    } else {
      assert s[..k] == s;
    }
  }

  /** How many entries of ps are not done. */
  function Remaining(ps: seq<nat>, done: seq<nat>): nat {
    if ps == [] then 0
    else Remaining(ps[..|ps| - 1], done) + if ps[|ps| - 1] in done then 0 else 1
  }

  lemma {:induction false} RemainingNone(ps: seq<nat>)
    ensures Remaining(ps, []) == |ps|
    decreases |ps|
  {
    if ps != [] {
      RemainingNone(ps[..|ps| - 1]);
    }
  }

  lemma {:induction false} RemainingStep(ps: seq<nat>, done: seq<nat>, x: nat)
    requires x !in done
    ensures Remaining(ps, done + [x]) == Remaining(ps, done) - Count(ps, x)
    decreases |ps|
  {
    if ps != [] {
      var n := |ps| - 1;
      RemainingStep(ps[..n], done, x);
      assert ps == ps[..n] + [ps[n]];
      assert ps[n] in done + [x] <==> ps[n] in done || ps[n] == x;
    }
  }

  lemma {:induction false} RemainingZero(ps: seq<nat>, done: seq<nat>)
    ensures Remaining(ps, done) == 0 <==> forall p | p in ps :: p in done
    decreases |ps|
  {
    if ps != [] {
      var n := |ps| - 1;
      RemainingZero(ps[..n], done);
      assert ps == ps[..n] + [ps[n]];
      assert forall p :: p in ps <==> p in ps[..n] || p == ps[n];
    }
  }

  // ---- who provides what ----

  /** Module p is the first one registered under this interface; interface 0 is none. */
  ghost predicate FirstHolder(ms: seq<Module>, iid: nat, p: nat) {
    iid != 0 && p < |ms| && ms[p].iid == iid && forall j | 0 <= j < p :: ms[j].iid != iid
  }

  lemma {:induction false} FirstWithIff(ms: seq<Module>, iid: nat, n: nat, i: nat)
    requires n <= |ms|
    ensures FirstWith(ms, iid, n) == Known(i) <==> i < n && FirstHolder(ms, iid, i)
    decreases n
  {
    if n > 0 {
      FirstWithIff(ms, iid, n - 1, i);
      if FirstWith(ms, iid, n - 1).Known? {
        FirstWithIff(ms, iid, n - 1, FirstWith(ms, iid, n - 1).index);
      } else if ms[n - 1].iid == iid && iid != 0 {
        NotBefore(ms, iid, n - 1);
      }
    }
  }

  lemma {:induction false} NotBefore(ms: seq<Module>, iid: nat, n: nat)
    requires n <= |ms| && iid != 0 && FirstWith(ms, iid, n) == Nobody
    ensures forall j | 0 <= j < n :: ms[j].iid != iid
    decreases n
  {
    if n > 0 {
      NotBefore(ms, iid, n - 1);
    }
  }

  /** The declarations (by number) among the first k of module v that module p provides. */
  ghost function Uses(ms: seq<Module>, v: nat, k: nat, p: nat): set<nat>
    requires v < |ms| && k <= |ms[v].deps|
  {
    set d | 0 <= d < k && FirstHolder(ms, ms[v].deps[d], p)
  }

  /**
   Whom a module needs: itself never, and any other as often as it declares an interface, other than 0,
   of which that one is the first holder.
   */
  lemma NeedsMeans(ms: seq<Module>, v: nat, p: nat)
    requires v < |ms|
    ensures Count(AllProviders(ms)[v], p) == if p == v then 0 else |Uses(ms, v, |ms[v].deps|, p)|
  {
    ResolvedMeans(ms, v, |ms[v].deps|, p);
  }

  ghost predicate MeansAt(ms: seq<Module>, v: nat, k: nat, p: nat)
    requires v < |ms| && k <= |ms[v].deps|
  {
    Count(Resolved(ms, v, k), p) == if p == v then 0 else |Uses(ms, v, k, p)|
  }

  lemma {:induction false} ResolvedMeans(ms: seq<Module>, v: nat, k: nat, p: nat)
    requires v < |ms| && k <= |ms[v].deps|
    ensures MeansAt(ms, v, k, p)
    decreases k
  {
    if k == 0 {
      assert Uses(ms, v, 0, p) == {};
    } else {
      ResolvedMeans(ms, v, k - 1, p);
      MeansNext(ms, v, k - 1, p);
    }
  }

  lemma MeansNext(ms: seq<Module>, v: nat, k: nat, p: nat)
    requires v < |ms| && k < |ms[v].deps| && MeansAt(ms, v, k, p)
    ensures MeansAt(ms, v, k + 1, p)
  {
    ResolvedStep(ms, v, k, p);
    UsesStep(ms, v, k, p);
  }

  lemma ResolvedStep(ms: seq<Module>, v: nat, k: nat, p: nat)
    requires v < |ms| && k < |ms[v].deps|
    ensures Count(Resolved(ms, v, k + 1), p) ==
            Count(Resolved(ms, v, k), p) + if p != v && FirstHolder(ms, ms[v].deps[k], p) then 1 else 0
  {
    var q := FirstWith(ms, ms[v].deps[k], |ms|);
    FirstWithIff(ms, ms[v].deps[k], |ms|, p);
    if q.Known? && q.index != v {
      assert Resolved(ms, v, k + 1) == Resolved(ms, v, k) + [q.index];
      AppendCount(Resolved(ms, v, k), q.index, p);
    } else {
      assert Resolved(ms, v, k + 1) == Resolved(ms, v, k);
    }
  }

  lemma UsesStep(ms: seq<Module>, v: nat, k: nat, p: nat)
    requires v < |ms| && k < |ms[v].deps|
    ensures |Uses(ms, v, k + 1, p)| == |Uses(ms, v, k, p)| + if FirstHolder(ms, ms[v].deps[k], p) then 1 else 0
  {
    if FirstHolder(ms, ms[v].deps[k], p) {
      assert Uses(ms, v, k + 1, p) == Uses(ms, v, k, p) + {k};
    } else {
      assert Uses(ms, v, k + 1, p) == Uses(ms, v, k, p);
    }
  }

  // ---- the graph ----

  predicate Ascending(s: seq<nat>) {
    forall a, b | 0 <= a < b < |s| :: s[a] <= s[b]
  }

  /** Module v is in the successor list of u as often as u is among its providers. */
  ghost predicate GraphOf(ms: seq<Module>, inDegree: seq<nat>, succ: seq<seq<nat>>) {
    && |inDegree| == |succ| == |ms|
    && (forall v | 0 <= v < |ms| :: inDegree[v] == |Providers(ms, v)|)
    && (forall u | 0 <= u < |ms| :: Ascending(succ[u]) && Below(succ[u], |ms|))
    && (forall u, v | 0 <= u < |ms| && 0 <= v < |ms| :: Count(succ[u], v) == Count(Providers(ms, v), u))
  }

  method ProviderMap(ms: seq<Module>) returns (m: map<nat, nat>)
    ensures forall iid | iid in m :: FirstWith(ms, iid, |ms|) == Known(m[iid])
    ensures forall iid | iid !in m :: FirstWith(ms, iid, |ms|) == Nobody
  {
    m := map[];
    var i := 0;
    while i < |ms|
      invariant 0 <= i <= |ms|
      invariant forall iid | iid in m :: FirstWith(ms, iid, i) == Known(m[iid])
      invariant forall iid | iid !in m :: FirstWith(ms, iid, i) == Nobody
    {
      if ms[i].iid != 0 && ms[i].iid !in m {
        m := m[ms[i].iid := i];
      }
      i := i + 1;
    }
  }

  /** The graph while the first k dependencies of module i are in. */
  ghost predicate GraphPart(ms: seq<Module>, i: nat, k: nat, inDegree: seq<nat>, succ: seq<seq<nat>>)
    requires i < |ms| && k <= |ms[i].deps|
  {
    && |inDegree| == |succ| == |ms|
    && (forall v | 0 <= v < |ms| :: inDegree[v] == |Part(ms, i, k, v)|)
    && (forall u | 0 <= u < |ms| :: Ascending(succ[u]) && Below(succ[u], i + 1))
    && CountPart(ms, i, k, succ)
  }

  ghost predicate CountPart(ms: seq<Module>, i: nat, k: nat, succ: seq<seq<nat>>)
    requires i < |ms| && k <= |ms[i].deps| && |succ| == |ms|
  {
    forall u, v | 0 <= u < |ms| && 0 <= v < |ms| :: Count(succ[u], v) == Count(Part(ms, i, k, v), u)
  }

  function Part(ms: seq<Module>, i: nat, k: nat, v: nat): seq<nat>
    requires i < |ms| && k <= |ms[i].deps| && v < |ms|
  {
    if v < i then Providers(ms, v) else if v == i then Resolved(ms, i, k) else []
  }

  lemma GraphEdge(ms: seq<Module>, i: nat, k: nat, inDegree: seq<nat>, succ: seq<seq<nat>>, p: nat)
    requires i < |ms| && k < |ms[i].deps| && GraphPart(ms, i, k, inDegree, succ) && p < |ms|
    requires Resolved(ms, i, k + 1) == Resolved(ms, i, k) + [p]
    ensures GraphPart(ms, i, k + 1, inDegree[i := inDegree[i] + 1], succ[p := succ[p] + [i]])
  {
    EdgeCount(ms, i, k, succ, p);
    var succ' := succ[p := succ[p] + [i]];
    forall u | 0 <= u < |ms|
      ensures Ascending(succ'[u]) && Below(succ'[u], i + 1)
    {
      assert Ascending(succ[u]) && Below(succ[u], i + 1);
    }
  }

  lemma EdgeCount(ms: seq<Module>, i: nat, k: nat, succ: seq<seq<nat>>, p: nat)
    requires i < |ms| && k < |ms[i].deps| && |succ| == |ms| && CountPart(ms, i, k, succ) && p < |ms|
    requires Resolved(ms, i, k + 1) == Resolved(ms, i, k) + [p]
    ensures CountPart(ms, i, k + 1, succ[p := succ[p] + [i]])
  {
    var succ' := succ[p := succ[p] + [i]];
    forall u, v | 0 <= u < |ms| && 0 <= v < |ms|
      ensures Count(succ'[u], v) == Count(Part(ms, i, k + 1, v), u)
    {
      assert Count(succ[u], v) == Count(Part(ms, i, k, v), u);
      AppendCount(succ[u], i, v);
      AppendCount(Part(ms, i, k, v), p, u);
    }
  }

  lemma AppendCount(s: seq<nat>, x: nat, y: nat)
    ensures Count(s + [x], y) == Count(s, y) + if x == y then 1 else 0
  {
    assert (s + [x])[..|s|] == s;
  }

  lemma EdgeStep(ms: seq<Module>, i: nat, k: nat, inDegree: seq<nat>, succ: seq<seq<nat>>)
    requires i < |ms| && k < |ms[i].deps| && GraphPart(ms, i, k, inDegree, succ)
    ensures var p := FirstWith(ms, ms[i].deps[k], |ms|);
            if p.Known? && p.index != i
            then GraphPart(ms, i, k + 1, inDegree[i := inDegree[i] + 1], succ[p.index := succ[p.index] + [i]])
            else GraphPart(ms, i, k + 1, inDegree, succ)
  {
    var p := FirstWith(ms, ms[i].deps[k], |ms|);
    if p.Known? && p.index != i {
      GraphEdge(ms, i, k, inDegree, succ, p.index);
    } else {
      assert Resolved(ms, i, k + 1) == Resolved(ms, i, k);
      GraphSame(ms, i, k, i, k + 1, inDegree, succ);
    }
  }

  /** One dependency of module i. */
  method AddEdge(ms: seq<Module>, i: nat, k: nat, providers: map<nat, nat>, inDegree: array<nat>, succ: array<seq<nat>>)
    requires i < |ms| && k < |ms[i].deps|
    requires forall iid | iid in providers :: FirstWith(ms, iid, |ms|) == Known(providers[iid])
    requires forall iid | iid !in providers :: FirstWith(ms, iid, |ms|) == Nobody
    requires GraphPart(ms, i, k, inDegree[..], succ[..])
    modifies inDegree, succ
    ensures GraphPart(ms, i, k + 1, inDegree[..], succ[..])
  {
    var iid := ms[i].deps[k];
    ghost var d, s := inDegree[..], succ[..];
    EdgeStep(ms, i, k, d, s);
    if iid in providers && providers[iid] != i {
      var p := providers[iid];
      succ[p] := succ[p] + [i];
      inDegree[i] := inDegree[i] + 1;
      assert succ[..] == s[p := s[p] + [i]];
      assert inDegree[..] == d[i := d[i] + 1];
    }
  }

  method BuildGraph(ms: seq<Module>) returns (inDegree: array<nat>, succ: array<seq<nat>>)
    ensures fresh(inDegree) && fresh(succ) && GraphOf(ms, inDegree[..], succ[..])
    ensures forall u, v | 0 <= u < |ms| && 0 <= v < |ms| ::
              Count(succ[u], v) == if u == v then 0 else |Uses(ms, v, |ms[v].deps|, u)|
  {
    var providers := ProviderMap(ms);
    inDegree := new nat[|ms|](_ => 0);
    succ := new seq<nat>[|ms|](_ => []);
    var i := 0;
    while i < |ms|
      invariant 0 <= i <= |ms|
      invariant i < |ms| ==> GraphPart(ms, i, 0, inDegree[..], succ[..])
      invariant i == |ms| ==> GraphOf(ms, inDegree[..], succ[..])
    {
      var k := 0;
      while k < |ms[i].deps|
        invariant 0 <= k <= |ms[i].deps|
        invariant GraphPart(ms, i, k, inDegree[..], succ[..])
      {
        AddEdge(ms, i, k, providers, inDegree, succ);
        k := k + 1;
      }
      GraphNext(ms, i, inDegree[..], succ[..]);
      i := i + 1;
    }
    forall u, v | 0 <= u < |ms| && 0 <= v < |ms|
      ensures Count(succ[u], v) == if u == v then 0 else |Uses(ms, v, |ms[v].deps|, u)|
    {
      NeedsMeans(ms, v, u);
      assert Count(succ[..][u], v) == Count(Providers(ms, v), u);
    }
  }

  lemma GraphSame(ms: seq<Module>, i: nat, k: nat, i': nat, k': nat, inDegree: seq<nat>, succ: seq<seq<nat>>)
    requires i < |ms| && k <= |ms[i].deps| && GraphPart(ms, i, k, inDegree, succ)
    requires i <= i' < |ms| && k' <= |ms[i'].deps|
    requires forall v | 0 <= v < |ms| :: Part(ms, i', k', v) == Part(ms, i, k, v)
    ensures GraphPart(ms, i', k', inDegree, succ)
  {}

  lemma GraphNext(ms: seq<Module>, i: nat, inDegree: seq<nat>, succ: seq<seq<nat>>)
    requires i < |ms| && GraphPart(ms, i, |ms[i].deps|, inDegree, succ)
    ensures i + 1 < |ms| ==> GraphPart(ms, i + 1, 0, inDegree, succ)
    ensures i + 1 == |ms| ==> GraphOf(ms, inDegree, succ)
  {
    if i + 1 < |ms| {
      GraphSame(ms, i, |ms[i].deps|, i + 1, 0, inDegree, succ);
    } else {
      assert forall v | 0 <= v < |ms| :: Part(ms, i, |ms[i].deps|, v) == Providers(ms, v);
    }
  }

  // ---- the sort ----

  // `all` is everything emitted or queued, in order; the first k are emitted.

  ghost predicate Degrees(needs: seq<seq<nat>>, done: seq<nat>, inDegree: seq<nat>) {
    && |inDegree| == |needs|
    && forall v | 0 <= v < |needs| :: inDegree[v] == Remaining(needs[v], done)
  }

  ghost predicate ZeroIff(needs: seq<seq<nat>>, all: seq<nat>, inDegree: seq<nat>)
    requires |inDegree| == |needs|
  {
    forall v | 0 <= v < |needs| :: v in all <==> inDegree[v] == 0
  }

  ghost predicate Shape(needs: seq<seq<nat>>, all: seq<nat>, k: nat) {
    && k <= |all| && Below(all, |needs|) && Distinct(all)
    && Provided(needs, all, k) && Sorted(needs, all, k)
  }

  /** What holds between two rounds. */
  ghost predicate KahnInv(needs: seq<seq<nat>>, all: seq<nat>, k: nat, inDegree: seq<nat>) {
    && Shape(needs, all, k)
    && Degrees(needs, all[..k], inDegree)
    && ZeroIff(needs, all, inDegree)
  }

  /** The first queue: exactly the modules without providers among the first n, in registration order. */
  ghost predicate FirstQueue(queue: seq<nat>, n: nat, inDegree: seq<nat>)
    requires n <= |inDegree|
  {
    && Below(queue, n)
    && (forall a, b | 0 <= a < b < |queue| :: queue[a] < queue[b])
    && (forall v | 0 <= v < n :: v in queue <==> inDegree[v] == 0)
  }

  lemma FirstRound(needs: seq<seq<nat>>, queue: seq<nat>, inDegree: seq<nat>)
    requires |inDegree| == |needs| && FirstQueue(queue, |needs|, inDegree)
    requires forall v | 0 <= v < |needs| :: inDegree[v] == |needs[v]|
    ensures KahnInv(needs, queue, 0, inDegree)
  {
    forall v | 0 <= v < |needs|
      ensures inDegree[v] == Remaining(needs[v], [])
    {
      RemainingNone(needs[v]);
    }
    forall b | 0 <= b < |queue|
      ensures needs[queue[b]] == []
    {
      assert queue[b] in queue;
    }
  }

  /** `next` lists the modules that need cur, with multiplicity. */
  ghost predicate NextOf(needs: seq<seq<nat>>, cur: nat, next: seq<nat>) {
    && Ascending(next) && Below(next, |needs|)
    && forall v | 0 <= v < |needs| :: Count(next, v) == Count(needs[v], cur)
  }

  /** The in-degrees after the first i successors of the module just taken. */
  ghost predicate Decremented(needs: seq<seq<nat>>, done: seq<nat>, next: seq<nat>, i: nat, inDegree: seq<nat>)
    requires i <= |next|
  {
    && |inDegree| == |needs|
    && forall v | 0 <= v < |needs| :: inDegree[v] == Remaining(needs[v], done) - Count(next[..i], v)
  }

  /** The modules released so far: ascending, and all from the successors seen. */
  ghost predicate ReleasedBy(next: seq<nat>, i: nat, released: seq<nat>)
    requires i <= |next|
  {
    && (forall a, b | 0 <= a < b < |released| :: released[a] < released[b])
    && (forall a | 0 <= a < |released| :: released[a] in next[..i])
  }

  /** One entry of the successor list is an outstanding dependency, so the counter is positive. */
  lemma Outstanding(needs: seq<seq<nat>>, done: seq<nat>, cur: nat, next: seq<nat>, i: nat, inDegree: seq<nat>)
    requires i < |next| && cur !in done && NextOf(needs, cur, next) && Decremented(needs, done, next, i, inDegree)
    ensures inDegree[next[i]] > 0
    ensures Decremented(needs, done, next, i + 1, inDegree[next[i] := inDegree[next[i]] - 1])
  {
    var v := next[i];
    RemainingStep(needs[v], done, cur);
    CountPrefix(next, i + 1, v);
    assert next[..i + 1] == next[..i] + [v];
    forall u | 0 <= u < |needs|
      ensures Count(next[..i + 1], u) == Count(next[..i], u) + if u == v then 1 else 0
    {
      AppendCount(next[..i], v, u);
    }
  }

  lemma ReleaseOne(next: seq<nat>, i: nat, released: seq<nat>)
    requires i < |next| && Ascending(next) && ReleasedBy(next, i, released)
    ensures ReleasedBy(next, i + 1, released)
    ensures next[i] !in released ==> ReleasedBy(next, i + 1, released + [next[i]])
  {
    assert next[..i + 1] == next[..i] + [next[i]];
    forall a | 0 <= a < |released|
      ensures released[a] <= next[i] && (next[i] !in released ==> released[a] != next[i])
    {
      assert released[a] in next[..i];
      var j :| 0 <= j < i && next[..i][j] == released[a];
      assert next[j] == released[a];
    }
  }

  /** What holds after i successors: `all` was emitted or queued before this round, `released` joined in it. */
  ghost predicate Releasing(needs: seq<seq<nat>>, all: seq<nat>, done: seq<nat>, next: seq<nat>, i: nat,
      released: seq<nat>, inDegree: seq<nat>)
    requires i <= |next|
  {
    && ReleasedBy(next, i, released) && Below(released, |needs|)
    && Decremented(needs, done, next, i, inDegree)
    && (forall v | 0 <= v < |needs| :: inDegree[v] == 0 <==> v in released || v in all)
    && (forall v | v in released :: v !in all)
  }

  lemma ReleasingStep(needs: seq<seq<nat>>, all: seq<nat>, done: seq<nat>, cur: nat, next: seq<nat>, i: nat,
      released: seq<nat>, inDegree: seq<nat>)
    requires i < |next| && NextOf(needs, cur, next) && cur !in done
    requires Releasing(needs, all, done, next, i, released, inDegree)
    ensures inDegree[next[i]] > 0
    ensures var v := next[i];
            Releasing(needs, all, done, next, i + 1, if inDegree[v] == 1 then released + [v] else released,
                    inDegree[v := inDegree[v] - 1])
  {
    Outstanding(needs, done, cur, next, i, inDegree);
    ReleaseOne(next, i, released);
    ZeroStep(needs, all, next[i], released, inDegree);
  }

  lemma ZeroStep(needs: seq<seq<nat>>, all: seq<nat>, v: nat, released: seq<nat>, d: seq<nat>)
    requires |d| == |needs| && v < |d| && d[v] > 0
    requires forall u | 0 <= u < |needs| :: d[u] == 0 <==> u in released || u in all
    requires forall u | u in released :: u !in all
    ensures var released' := if d[v] == 1 then released + [v] else released;
            var d' := d[v := d[v] - 1];
            && (forall u | 0 <= u < |needs| :: d'[u] == 0 <==> u in released' || u in all)
            && (forall u | u in released' :: u !in all)
  {}

  /** The effect of the first i entries of a successor list on the in-degrees and the queue. */
  function Drop(next: seq<nat>, i: nat, degrees: seq<nat>, queue: seq<nat>): (r: (seq<nat>, seq<nat>))
    requires i <= |next| && Below(next, |degrees|)
    ensures |r.0| == |degrees|
  {
    if i == 0 then (degrees, queue)
    else
      var (d, q) := Drop(next, i - 1, degrees, queue);
      Dropped(next[i - 1], d, q)
  }

  /** One entry: the counter goes down, and the module joins the queue when it reaches zero. */
  function Dropped(v: nat, d: seq<nat>, q: seq<nat>): (r: (seq<nat>, seq<nat>))
    requires v < |d|
    ensures |r.0| == |d|
  {
    if d[v] == 0 then (d, q) else (d[v := d[v] - 1], if d[v] == 1 then q + [v] else q)
  }

  /** The successors of the module just emitted. */
  method ReleaseSuccessors(next: seq<nat>, inDegree: array<nat>, queue: seq<nat>) returns (queue': seq<nat>)
    requires Below(next, inDegree.Length)
    modifies inDegree
    ensures (inDegree[..], queue') == Drop(next, |next|, old(inDegree[..]), queue)
  {
    queue' := queue;
    var i := 0;
    while i < |next|
      invariant 0 <= i <= |next|
      invariant (inDegree[..], queue') == Drop(next, i, old(inDegree[..]), queue)
    {
      var v := next[i];
      if inDegree[v] > 0 {
        inDegree[v] := inDegree[v] - 1;
        if inDegree[v] == 0 {
          queue' := queue' + [v];
        }
      }
      i := i + 1;
    }
  }

  lemma {:induction false} DropAppends(next: seq<nat>, i: nat, degrees: seq<nat>, front: seq<nat>, queue: seq<nat>)
    requires i <= |next| && Below(next, |degrees|)
    ensures Drop(next, i, degrees, front + queue) ==
            (Drop(next, i, degrees, queue).0, front + Drop(next, i, degrees, queue).1)
    decreases i
  {
    if i > 0 {
      DropAppends(next, i - 1, degrees, front, queue);
      var q := Drop(next, i - 1, degrees, queue).1;
      assert front + (q + [next[i - 1]]) == front + q + [next[i - 1]];
    }
  }

  /** What the first i entries did: `all` grew by the modules they released. */
  ghost predicate DropOk(needs: seq<seq<nat>>, all: seq<nat>, done: seq<nat>, next: seq<nat>, i: nat,
      dq: (seq<nat>, seq<nat>), released: seq<nat>)
    requires i <= |next|
  {
    dq.1 == all + released && Releasing(needs, all, done, next, i, released, dq.0)
  }

  lemma {:induction false} DropReleases(needs: seq<seq<nat>>, all: seq<nat>, done: seq<nat>, cur: nat, next: seq<nat>,
      i: nat, degrees: seq<nat>)
    returns (released: seq<nat>)
    requires i <= |next| && NextOf(needs, cur, next) && cur !in done && |degrees| == |needs|
    requires DropOk(needs, all, done, next, 0, (degrees, all), [])
    ensures DropOk(needs, all, done, next, i, Drop(next, i, degrees, all), released)
    decreases i
  {
    if i == 0 {
      released := [];
      assert Drop(next, i, degrees, all) == (degrees, all);
    } else {
      var before := DropReleases(needs, all, done, cur, next, i - 1, degrees);
      released := OneMore(needs, all, done, cur, next, i - 1, Drop(next, i - 1, degrees, all), before);
    }
  }

  lemma NothingReleased(needs: seq<seq<nat>>, all: seq<nat>, done: seq<nat>, next: seq<nat>, degrees: seq<nat>)
    requires Degrees(needs, done, degrees) && ZeroIff(needs, all, degrees)
    ensures DropOk(needs, all, done, next, 0, (degrees, all), [])
  {}

  lemma OneMore(needs: seq<seq<nat>>, all: seq<nat>, done: seq<nat>, cur: nat, next: seq<nat>, i: nat,
      dq: (seq<nat>, seq<nat>), before: seq<nat>)
    returns (released: seq<nat>)
    requires i < |next| && NextOf(needs, cur, next) && cur !in done
    requires DropOk(needs, all, done, next, i, dq, before)
    ensures DropOk(needs, all, done, next, i + 1, Dropped(next[i], dq.0, dq.1), released)
  {
    ReleasingStep(needs, all, done, cur, next, i, before, dq.0);
    released := if dq.0[next[i]] == 1 then before + [next[i]] else before;
    Regrouped(all, before, next[i], dq);
  }

  lemma Regrouped(all: seq<nat>, before: seq<nat>, v: nat, dq: (seq<nat>, seq<nat>))
    requires v < |dq.0| && dq.0[v] > 0 && dq.1 == all + before
    ensures Dropped(v, dq.0, dq.1) == (dq.0[v := dq.0[v] - 1], all + if dq.0[v] == 1 then before + [v] else before)
  {
    assert all + before + [v] == all + (before + [v]);
  }

  /** The guard of the source, a positive in-degree, never fails. */
  lemma GuardNeverFails(needs: seq<seq<nat>>, all: seq<nat>, k: nat, next: seq<nat>, i: nat, degrees: seq<nat>)
    requires KahnInv(needs, all, k, degrees) && k < |all| && NextOf(needs, all[k], next) && i < |next|
    ensures Drop(next, i, degrees, all).0[next[i]] > 0
  {
    NotYet(all, k);
    NothingReleased(needs, all, all[..k], next, degrees);
    var released := DropReleases(needs, all, all[..k], all[k], next, i, degrees);
    Outstanding(needs, all[..k], all[k], next, i, Drop(next, i, degrees, all).0);
  }

  /** A round: the in-degrees. */
  lemma RoundDegrees(needs: seq<seq<nat>>, done: seq<nat>, cur: nat, next: seq<nat>, after: seq<nat>)
    requires cur !in done && NextOf(needs, cur, next) && Decremented(needs, done, next, |next|, after)
    ensures Degrees(needs, done + [cur], after)
  {
    assert next[..|next|] == next;
    forall v | 0 <= v < |needs|
      ensures after[v] == Remaining(needs[v], done + [cur])
    {
      RemainingStep(needs[v], done, cur);
    }
  }

  /** A round: every queued module is provided for. */
  lemma RoundProvided(needs: seq<seq<nat>>, all: seq<nat>, k: nat, all': seq<nat>, after: seq<nat>)
    requires k < |all| && all <= all' && Below(all', |needs|) && Provided(needs, all, k)
    requires Degrees(needs, all[..k + 1], after) && forall v | 0 <= v < |needs| && v in all' :: after[v] == 0
    ensures Provided(needs, all', k + 1)
  {
    assert all'[..k + 1] == all[..k + 1];
    forall b | 0 <= b < |all'| && all'[b] < |needs|
      ensures ProvidedAt(needs, all', k + 1, b)
    {
      RemainingZero(needs[all'[b]], all[..k + 1]);
      if b <= k {
        assert ProvidedAt(needs, all, k, b);
        assert all'[b] == all[b] && all'[..b] == all[..b];
      } else {
        assert all'[b] in all';
      }
    }
  }

  lemma RoundDistinct(all: seq<nat>, released: seq<nat>)
    requires Distinct(all) && forall v | v in released :: v !in all
    requires forall a, b | 0 <= a < b < |released| :: released[a] < released[b]
    ensures Distinct(all + released)
  {
    forall a, b | 0 <= a < b < |all + released|
      ensures (all + released)[a] != (all + released)[b]
    {
      if a < |all| <= b {
        assert (all + released)[b] in released && all[a] in all;
      }
    }
  }

  lemma {:induction false} ReleaseExtends(ps: seq<nat>, all: seq<nat>, all': seq<nat>, k: nat)
    requires all <= all' && k <= |all|
    ensures Release(ps, all', k) == Release(ps, all, k)
    decreases k
  {
    if k > 0 {
      ReleaseExtends(ps, all, all', k - 1);
    }
  }

  /** A round: old entries keep their keys, the new ones have the largest. */
  lemma RoundRelease(needs: seq<seq<nat>>, all: seq<nat>, k: nat, next: seq<nat>, released: seq<nat>, b: nat)
    requires k < |all| && Below(all, |needs|) && Below(all + released, |needs|) && Distinct(all)
    requires Provided(needs, all, k)
    requires NextOf(needs, all[k], next) && ReleasedBy(next, |next|, released) && b < |all + released|
    ensures Release(needs[(all + released)[b]], all + released, k + 1)
         == if b < |all| then Release(needs[all[b]], all, k) else k + 1
  {
    var all' := all + released;
    var ps := needs[all'[b]];
    assert all'[k] == all[k];
    if b < |all| {
      assert ProvidedAt(needs, all, k, b);
      assert all[k] !in ps;
      ReleaseExtends(ps, all, all', k);
    } else {
      var v := released[b - |all|];
      assert next[..|next|] == next;
      CountPositive(next, v);
      CountPositive(ps, all[k]);
    }
  }

  lemma RoundSorted(needs: seq<seq<nat>>, all: seq<nat>, k: nat, next: seq<nat>, released: seq<nat>)
    requires k < |all| && Below(all, |needs|) && Below(all + released, |needs|) && Distinct(all)
    requires Provided(needs, all, k) && Sorted(needs, all, k)
    requires NextOf(needs, all[k], next) && ReleasedBy(next, |next|, released)
    ensures Sorted(needs, all + released, k + 1)
  {
    var all' := all + released;
    forall a, b | 0 <= a < b < |all'|
      ensures Precedes(Release(needs[all'[a]], all', k + 1), all'[a], Release(needs[all'[b]], all', k + 1), all'[b])
    {
      RoundRelease(needs, all, k, next, released, a);
      RoundRelease(needs, all, k, next, released, b);
    }
  }

  /** A round keeps the invariant. */
  lemma RoundKeeps(needs: seq<seq<nat>>, all: seq<nat>, k: nat, next: seq<nat>, released: seq<nat>, after: seq<nat>)
    requires k < |all| && Shape(needs, all, k) && NextOf(needs, all[k], next)
    requires Releasing(needs, all, all[..k], next, |next|, released, after)
    ensures KahnInv(needs, all + released, k + 1, after)
  {
    assert all[..k] + [all[k]] == all[..k + 1] == (all + released)[..k + 1];
    RoundDegrees(needs, all[..k], all[k], next, after);
    RoundZero(needs, all, released, after);
    RoundShape(needs, all, k, next, released, after);
  }

  lemma RoundZero(needs: seq<seq<nat>>, all: seq<nat>, released: seq<nat>, after: seq<nat>)
    requires |after| == |needs| && forall v | 0 <= v < |needs| :: after[v] == 0 <==> v in released || v in all
    ensures ZeroIff(needs, all + released, after)
  {
    assert forall v :: v in all + released <==> v in all || v in released;
  }

  lemma RoundShape(needs: seq<seq<nat>>, all: seq<nat>, k: nat, next: seq<nat>, released: seq<nat>, after: seq<nat>)
    requires k < |all| && Shape(needs, all, k) && NextOf(needs, all[k], next)
    requires ReleasedBy(next, |next|, released) && Below(released, |needs|) && forall v | v in released :: v !in all
    requires Degrees(needs, all[..k + 1], after) && ZeroIff(needs, all + released, after)
    ensures Shape(needs, all + released, k + 1)
  {
    RoundDistinct(all, released);
    RoundProvided(needs, all, k, all + released, after);
    RoundSorted(needs, all, k, next, released);
  }

  /** One round of the queue phase as a whole. */
  lemma RoundInv(needs: seq<seq<nat>>, all: seq<nat>, k: nat, next: seq<nat>, degrees: seq<nat>)
    requires KahnInv(needs, all, k, degrees) && k < |all| && NextOf(needs, all[k], next)
    ensures KahnInv(needs, Drop(next, |next|, degrees, all).1, k + 1, Drop(next, |next|, degrees, all).0)
  {
    NotYet(all, k);
    NothingReleased(needs, all, all[..k], next, degrees);
    var released := DropReleases(needs, all, all[..k], all[k], next, |next|, degrees);
    RoundKeeps(needs, all, k, next, released, Drop(next, |next|, degrees, all).0);
  }

  ghost predicate HasGraph(needs: seq<seq<nat>>, graph: seq<seq<nat>>) {
    |graph| == |needs| && forall u | 0 <= u < |needs| :: NextOf(needs, u, graph[u])
  }

  /** The queue phase after k rounds: everything emitted or queued, and the in-degrees. */
  function Rounds(graph: seq<seq<nat>>, free: seq<nat>, degrees: seq<nat>, k: nat): (r: (seq<nat>, seq<nat>)) {
    if k == 0 then (free, degrees)
    else
      var (all, d) := Rounds(graph, free, degrees, k - 1);
      if k - 1 < |all| && all[k - 1] < |graph| && Below(graph[all[k - 1]], |d|)
      then
        var next := graph[all[k - 1]];
        (Drop(next, |next|, d, all).1, Drop(next, |next|, d, all).0)
      else (all, d)
  }

  lemma {:induction false} RoundsInv(needs: seq<seq<nat>>, graph: seq<seq<nat>>, free: seq<nat>, degrees: seq<nat>,
      k: nat)
    requires HasGraph(needs, graph) && KahnInv(needs, free, 0, degrees)
    requires forall j | 0 <= j < k :: j < |Rounds(graph, free, degrees, j).0|
    ensures KahnInv(needs, Rounds(graph, free, degrees, k).0, k, Rounds(graph, free, degrees, k).1)
    decreases k
  {
    if k > 0 {
      RoundsInv(needs, graph, free, degrees, k - 1);
      RoundsStep(needs, graph, free, degrees, k - 1);
    }
  }

  lemma RoundsStep(needs: seq<seq<nat>>, graph: seq<seq<nat>>, free: seq<nat>, degrees: seq<nat>, k: nat)
    requires HasGraph(needs, graph) && k < |Rounds(graph, free, degrees, k).0|
    requires KahnInv(needs, Rounds(graph, free, degrees, k).0, k, Rounds(graph, free, degrees, k).1)
    ensures KahnInv(needs, Rounds(graph, free, degrees, k + 1).0, k + 1, Rounds(graph, free, degrees, k + 1).1)
  {
    var (all, d) := Rounds(graph, free, degrees, k);
    RoundInv(needs, all, k, graph[all[k]], d);
  }

  /** Taking out the largest number. */
  lemma WithoutLargest(s: seq<nat>, j: nat, n: nat) returns (t: seq<nat>)
    requires Distinct(s) && Below(s, n) && n > 0 && j < |s| && s[j] == n - 1
    ensures |t| == |s| - 1 && Distinct(t) && Below(t, n - 1)
    ensures forall v | v in s && v != n - 1 :: v in t
  {
    t := s[..j] + s[j + 1..];
    assert forall a | 0 <= a < |t| :: t[a] == if a < j then s[a] else s[a + 1];
    forall v | v in s && v != n - 1
      ensures v in t
    {
      var i :| 0 <= i < |s| && s[i] == v;
      assert t[if i < j then i else i - 1] == v;
    }
  }

  lemma BelowPositive(s: seq<nat>, n: nat)
    requires s != [] && Below(s, n)
    ensures n > 0
  {
    assert s[0] < n;
  }

  lemma {:induction false} DistinctBelow(s: seq<nat>, n: nat)
    requires Distinct(s) && Below(s, n)
    ensures |s| <= n
    ensures (forall v: nat | v < n :: v in s) ==> |s| == n
    decreases n
  {
    if s == [] {
      assert n > 0 ==> n - 1 !in s;
    } else if n - 1 in s {
      var j :| 0 <= j < |s| && s[j] == n - 1;
      BelowPositive(s, n);
      var t := WithoutLargest(s, j, n);
      DistinctBelow(t, n - 1);
    } else {
      BelowPositive(s, n);
      assert forall a | 0 <= a < |s| :: s[a] in s;
      DistinctBelow(s, n - 1);
    }
  }

  // ---- which modules are emitted ----

  /** Below an emitted module, every path leads to earlier positions. */
  lemma {:induction false} PathDescends(needs: seq<seq<nat>>, order: seq<nat>, path: seq<nat>, k: nat, l: nat, a: nat)
    returns (c: nat)
    requires Below(order, |needs|) && Provided(needs, order, |order|) && Path(needs, path)
    requires k < l < |path| && a < |order| && path[k] == order[a]
    ensures c < a && path[l] == order[c]
    decreases l
  {
    var from := a;
    if l > k + 1 {
      from := PathDescends(needs, order, path, k, l - 1, a);
    }
    assert path[l - 1 + 1] in needs[path[l - 1]];
    assert ProvidedAt(needs, order, |order|, from);
    c :| 0 <= c < from && order[..from][c] == path[l];
  }

  lemma NoRepeats(needs: seq<seq<nat>>, order: seq<nat>, path: seq<nat>, a: nat)
    requires Below(order, |needs|) && Provided(needs, order, |order|) && Distinct(order)
    requires Path(needs, path) && path != [] && a < |order| && path[0] == order[a]
    ensures !Repeats(path)
  {
    forall k, l | 0 <= k < l < |path|
      ensures path[k] != path[l]
    {
      var ak := a;
      if k > 0 {
        ak := PathDescends(needs, order, path, 0, k, a);
      }
      var al := PathDescends(needs, order, path, k, l, ak);
      assert order[al] != order[ak];
    }
  }

  /** Every module outside the list needs another one outside it. */
  ghost predicate Endless(needs: seq<seq<nat>>, order: seq<nat>) {
    forall u | 0 <= u < |needs| && u !in order :: NeedsOutside(needs, order, u)
  }

  ghost predicate NeedsOutside(needs: seq<seq<nat>>, order: seq<nat>, u: nat)
    requires u < |needs|
  {
    exists p :: p in needs[u] && p !in order
  }

  lemma {:induction false} WalkOn(needs: seq<seq<nat>>, order: seq<nat>, v: nat, k: nat) returns (path: seq<nat>)
    requires v < |needs| && v !in order && WellFormed(needs) && Endless(needs, order)
    ensures |path| == k + 1 && path[0] == v && Path(needs, path)
    decreases k
  {
    if k == 0 {
      path := [v];
    } else {
      assert NeedsOutside(needs, order, v);
      var p :| p in needs[v] && p !in order;
      var rest := WalkOn(needs, order, p, k - 1);
      path := [v] + rest;
      PathPrepend(needs, v, rest);
    }
  }

  lemma PathPrepend(needs: seq<seq<nat>>, v: nat, rest: seq<nat>)
    requires v < |needs| && Path(needs, rest) && rest != [] && rest[0] in needs[v]
    ensures Path(needs, [v] + rest)
  {
    var path := [v] + rest;
    forall k | 0 <= k < |path| - 1
      ensures path[k + 1] in needs[path[k]]
    {
      if k > 0 {
        assert rest[k - 1 + 1] in needs[rest[k - 1]];
      }
    }
  }

  /** The sort ends with exactly the modules that reach no cycle. */
  lemma EmittedIffAcyclic(needs: seq<seq<nat>>, order: seq<nat>, inDegree: seq<nat>)
    requires WellFormed(needs) && KahnInv(needs, order, |order|, inDegree)
    ensures EmittedAreAcyclic(needs, order)
  {
    assert order[..|order|] == order;
    OutsideIsEndless(needs, order, inDegree);
    forall v | 0 <= v < |needs|
      ensures v in order <==> !ReachesCycle(needs, v)
    {
      if v in order {
        var a :| 0 <= a < |order| && order[a] == v;
        forall path | Path(needs, path) && path != [] && path[0] == v
          ensures !Repeats(path)
        {
          NoRepeats(needs, order, path, a);
        }
      } else {
        var path := WalkOn(needs, order, v, |needs|);
        TooLong(needs, path);
      }
    }
  }

  lemma OutsideIsEndless(needs: seq<seq<nat>>, order: seq<nat>, inDegree: seq<nat>)
    requires Degrees(needs, order, inDegree) && ZeroIff(needs, order, inDegree)
    ensures Endless(needs, order)
  {
    forall u | 0 <= u < |needs| && u !in order
      ensures NeedsOutside(needs, order, u)
    {
      RemainingZero(needs[u], order);
    }
  }

  lemma TooLong(needs: seq<seq<nat>>, path: seq<nat>)
    requires Path(needs, path) && |path| > |needs|
    ensures Repeats(path)
  {
    if Distinct(path) {
      DistinctBelow(path, |needs|);
    }
  }

  // ---- the whole computation ----

  /** The modules without providers, in registration order. */
  method CollectFree(inDegree: array<nat>) returns (queue: seq<nat>)
    ensures FirstQueue(queue, inDegree.Length, inDegree[..])
  {
    queue := [];
    var i := 0;
    while i < inDegree.Length
      invariant 0 <= i <= inDegree.Length
      invariant FirstQueue(queue, i, inDegree[..])
    {
      if inDegree[i] == 0 {
        queue := queue + [i];
      }
      i := i + 1;
    }
  }

  /** The queue phase. */
  method EmitQueue(ghost needs: seq<seq<nat>>, inDegree: array<nat>, graph: seq<seq<nat>>, free: seq<nat>,
      visited: array<bool>)
    returns (order: seq<nat>)
    requires HasGraph(needs, graph) && KahnInv(needs, free, 0, inDegree[..])
    requires visited.Length == |needs| && Marked([], visited[..])
    modifies inDegree, visited
    ensures KahnInv(needs, order, |order|, inDegree[..]) && Marked(order, visited[..])
  {
    order := [];
    var queue := free;
    ghost var all, degrees := free, inDegree[..];
    while queue != []
      invariant (all, inDegree[..]) == Rounds(graph, free, degrees, |order|)
      invariant forall j | 0 <= j < |order| :: j < |Rounds(graph, free, degrees, j).0|
      invariant |order| <= |all| && order == all[..|order|] && queue == all[|order|..]
      invariant Marked(order, visited[..])
      decreases |needs| - |order|
    {
      var cur := queue[0];
      ghost var k := |order|;
      ghost var d := inDegree[..];
      InRange(needs, graph, free, degrees, k);
      assert order + [cur] == all[..k + 1] && queue[1..] == all[k + 1..];
      DropAppends(graph[cur], |graph[cur]|, d, all[..k + 1], queue[1..]);
      assert all[..k + 1] + queue[1..] == all;
      Mark(visited, cur, order);
      queue := ReleaseSuccessors(graph[cur], inDegree, queue[1..]);
      order := order + [cur];
      all := order + queue;
    }
    assert order == all;
    RoundsInv(needs, graph, free, degrees, |order|);
  }

  lemma InRange(needs: seq<seq<nat>>, graph: seq<seq<nat>>, free: seq<nat>, degrees: seq<nat>, k: nat)
    requires HasGraph(needs, graph) && KahnInv(needs, free, 0, degrees)
    requires forall j | 0 <= j <= k :: j < |Rounds(graph, free, degrees, j).0|
    ensures var (all, d) := Rounds(graph, free, degrees, k);
            && k < |needs| == |d| && all[k] < |needs| && Below(graph[all[k]], |needs|)
  {
    RoundsInv(needs, graph, free, degrees, k);
    DistinctBelow(Rounds(graph, free, degrees, k).0, |needs|);
  }

  method Mark(visited: array<bool>, cur: nat, ghost order: seq<nat>)
    requires cur < visited.Length && Marked(order, visited[..])
    modifies visited
    ensures Marked(order + [cur], visited[..])
  {
    visited[cur] := true;
    assert forall v :: v in order + [cur] <==> v in order || v == cur;
  }

  /** Some number of modules is emitted by the sort, the others follow. */
  ghost predicate StartsBy(needs: seq<seq<nat>>, order: seq<nat>) {
    exists cut: nat :: IsStartOrder(needs, order, cut)
  }

  method ComputeStartOrder(ms: seq<Module>) returns (order: seq<nat>)
    ensures StartsBy(AllProviders(ms), order)
  {
    ghost var needs := AllProviders(ms);
    var inDegree, succ := BuildGraph(ms);
    GraphFits(ms, inDegree[..], succ[..]);
    var free := CollectFree(inDegree);
    FirstRound(needs, free, inDegree[..]);
    var visited := new bool[|ms|](_ => false);
    order := EmitQueue(needs, inDegree, succ[..], free, visited);
    EmittedIffAcyclic(needs, order, inDegree[..]);
    ghost var emitted := order;
    order := AppendRest(order, visited);
    DistinctBelow(order, |ms|);
    assert IsStartOrder(needs, order, |emitted|);
  }

  lemma GraphFits(ms: seq<Module>, inDegree: seq<nat>, succ: seq<seq<nat>>)
    requires GraphOf(ms, inDegree, succ)
    ensures HasGraph(AllProviders(ms), succ) && WellFormed(AllProviders(ms))
    ensures forall v | 0 <= v < |ms| :: inDegree[v] == |AllProviders(ms)[v]|
  {}

  ghost predicate Marked(order: seq<nat>, visited: seq<bool>) {
    forall v | 0 <= v < |visited| :: visited[v] <==> v in order
  }

  lemma NotYet(all: seq<nat>, k: nat)
    requires Distinct(all) && k < |all|
    ensures all[k] !in all[..k]
  {}

  /** The modules the sort left out, in registration order. */
  method AppendRest(emitted: seq<nat>, visited: array<bool>) returns (order: seq<nat>)
    requires Below(emitted, visited.Length) && Distinct(emitted) && Marked(emitted, visited[..])
    ensures RestOk(emitted, order, visited.Length, visited.Length)
  {
    order := emitted;
    var i := 0;
    while i < visited.Length
      invariant 0 <= i <= visited.Length
      invariant RestOk(emitted, order, i, visited.Length)
    {
      assert visited[..][i] == visited[i];
      if !visited[i] {
        order := order + [i];
      }
      i := i + 1;
    }
  }

  ghost predicate RestOk(emitted: seq<nat>, order: seq<nat>, i: nat, n: nat) {
    && |emitted| <= |order| && order[..|emitted|] == emitted
    && Below(order, n) && Distinct(order)
    && (forall v: nat | v < n :: v in order <==> v < i || v in emitted)
    && (forall a | |emitted| <= a < |order| :: order[a] < i)
    && (forall a, b | |emitted| <= a < b < |order| :: order[a] < order[b])
  }
}
