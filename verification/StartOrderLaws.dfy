/**
 What the start order's description implies: there is only one such order, duplicate dependencies do
 not matter, and when modules of one dependency level keep their registration order.
 */
module StartOrderLaws {
  import opened StartOrder

  /** The sorted part of a start order, by itself. */
  ghost predicate IsSorted(needs: seq<seq<nat>>, e: seq<nat>) {
    EmittedAreAcyclic(needs, e) && Ordered(needs, e)
  }

  ghost predicate Ordered(needs: seq<seq<nat>>, e: seq<nat>) {
    Below(e, |needs|) && Distinct(e) && Provided(needs, e, |e|) && Sorted(needs, e, |e|)
  }

  lemma KeyOrder(needs: seq<seq<nat>>, e: seq<nat>, a: nat, b: nat)
    requires Ordered(needs, e) && a < b < |e|
    ensures Precedes(Key(needs, e, e[a]), e[a], Key(needs, e, e[b]), e[b]) && e[a] != e[b]
  {}

  /** The key of module v. */
  function Key(needs: seq<seq<nat>>, e: seq<nat>, v: nat): nat
    requires v < |needs|
  {
    Release(needs[v], e, |e|)
  }

  lemma {:induction false} ReleaseCut(ps: seq<nat>, e: seq<nat>, k: nat, b: nat)
    requires b <= k <= |e| && forall a | b <= a < k :: e[a] !in ps
    ensures Release(ps, e, k) == Release(ps, e, b)
    decreases k
  {
    if b < k {
      ReleaseCut(ps, e, k - 1, b);
    }
  }

  lemma {:induction false} ReleaseSame(ps: seq<nat>, qs: seq<nat>, e: seq<nat>, f: seq<nat>, b: nat)
    requires b <= |e| && b <= |f| && e[..b] == f[..b] && forall p :: p in ps <==> p in qs
    ensures Release(ps, e, b) == Release(qs, f, b)
    decreases b
  {
    if b > 0 {
      assert e[..b][b - 1] == f[..b][b - 1];
      assert e[..b][..b - 1] == e[..b - 1] && f[..b][..b - 1] == f[..b - 1];
      ReleaseSame(ps, qs, e, f, b - 1);
    }
  }

  /** The key of a module whose providers are all among the first b depends on those only. */
  lemma KeyAtPrefix(needs: seq<seq<nat>>, e: seq<nat>, v: nat, b: nat)
    requires v < |needs| && Distinct(e) && b <= |e| && forall p | p in needs[v] :: p in e[..b]
    ensures Key(needs, e, v) == Release(needs[v], e, b)
  {
    forall a | b <= a < |e|
      ensures e[a] !in needs[v]
    {
      assert e[a] !in e[..b];
    }
    ReleaseCut(needs[v], e, |e|, b);
  }

  lemma PositionOf(e: seq<nat>, v: nat, b: nat) returns (c: nat)
    requires v in e && b <= |e| && v !in e[..b]
    ensures b <= c < |e| && e[c] == v
  {
    assert forall k | 0 <= k < b :: e[..b][k] == e[k];
    c :| 0 <= c < |e| && e[c] == v;
  }

  /** The key of position b is not larger than that of a module that comes later. */
  lemma NextPrecedes(needs: seq<seq<nat>>, e: seq<nat>, b: nat, y: nat)
    requires Ordered(needs, e) && b < |e| && y in e && y !in e[..b] && y != e[b]
    ensures y < |needs| && Precedes(Key(needs, e, e[b]), e[b], Key(needs, e, y), y)
  {
    var c := PositionOf(e, y, b);
    KeyOrder(needs, e, b, c);
  }

  /** What is known of the next module of f, seen from an e that agrees so far. */
  lemma NextKey(needs: seq<seq<nat>>, e: seq<nat>, f: seq<nat>, b: nat)
    requires Distinct(e) && Distinct(f) && Below(f, |needs|) && Provided(needs, f, |f|)
    requires b < |f| && b <= |e| && e[..b] == f[..b]
    ensures f[b] !in e[..b] && Key(needs, e, f[b]) == Key(needs, f, f[b])
  {
    assert forall c | 0 <= c < b :: f[..b][c] == f[c];
    assert ProvidedAt(needs, f, |f|, b);
    KeyAtPrefix(needs, e, f[b], b);
    KeyAtPrefix(needs, f, f[b], b);
    ReleaseSame(needs[f[b]], needs[f[b]], e, f, b);
  }

  lemma NextAgrees(needs: seq<seq<nat>>, e: seq<nat>, f: seq<nat>, b: nat)
    requires IsSorted(needs, e) && IsSorted(needs, f) && b < |e| && b < |f| && e[..b] == f[..b]
    ensures e[b] == f[b]
  {
    SameMember(needs, e, f, b);
    SameMember(needs, f, e, b);
    NextKey(needs, e, f, b);
    NextKey(needs, f, e, b);
    if e[b] != f[b] {
      NextPrecedes(needs, e, b, f[b]);
      NextPrecedes(needs, f, b, e[b]);
    }
  }

  lemma OwnKey(needs: seq<seq<nat>>, e: seq<nat>, b: nat)
    requires Below(e, |needs|) && Distinct(e) && Provided(needs, e, |e|) && b < |e|
    ensures Key(needs, e, e[b]) == Release(needs[e[b]], e, b)
  {
    assert ProvidedAt(needs, e, |e|, b);
    KeyAtPrefix(needs, e, e[b], b);
  }

  lemma {:induction false} PrefixAgrees(needs: seq<seq<nat>>, e: seq<nat>, f: seq<nat>, b: nat)
    requires IsSorted(needs, e) && IsSorted(needs, f) && b <= |e| && b <= |f|
    ensures e[..b] == f[..b]
    decreases b
  {
    if b > 0 {
      PrefixAgrees(needs, e, f, b - 1);
      NextAgrees(needs, e, f, b - 1);
      assert e[..b] == e[..b - 1] + [e[b - 1]] && f[..b] == f[..b - 1] + [f[b - 1]];
    }
  }

  lemma NextIsNew(e: seq<nat>, f: seq<nat>)
    requires Distinct(f) && |e| < |f| && e == f[..|e|]
    ensures f[|e|] !in e
  {
    assert forall c | 0 <= c < |e| :: e[c] == f[c];
  }

  lemma SameMember(needs: seq<seq<nat>>, e: seq<nat>, f: seq<nat>, b: nat)
    requires EmittedAreAcyclic(needs, e) && EmittedAreAcyclic(needs, f) && Below(f, |needs|) && b < |f|
    ensures f[b] in e
  {
    assert f[b] in f;
  }

  lemma SortedUnique(needs: seq<seq<nat>>, e: seq<nat>, f: seq<nat>)
    requires IsSorted(needs, e) && IsSorted(needs, f)
    ensures e == f
  {
    var b := if |e| < |f| then |e| else |f|;
    PrefixAgrees(needs, e, f, b);
    assert e[..|e|] == e && f[..|f|] == f;
    if |e| < |f| {
      SameMember(needs, e, f, |e|);
      NextIsNew(e, f);
    } else if |f| < |e| {
      SameMember(needs, f, e, |f|);
      NextIsNew(f, e);
    }
  }

  ghost predicate Increasing(s: seq<nat>) {
    forall a, b | 0 <= a < b < |s| :: s[a] < s[b]
  }

  /** Two increasing lists with the same members are equal. */
  lemma {:induction false} IncreasingUnique(s: seq<nat>, t: seq<nat>)
    requires Increasing(s) && Increasing(t) && forall v :: v in s <==> v in t
    ensures s == t
    decreases |s|
  {
    if s == [] {
      if t != [] {
        HasMember(t);
      }
    } else {
      assert s[0] in t && t != [] && t[0] in s;
      var a :| 0 <= a < |t| && t[a] == s[0];
      var b :| 0 <= b < |s| && s[b] == t[0];
      assert s[0] == t[0];
      forall v
        ensures v in s[1..] <==> v in t[1..]
      {
        TailHas(s, v);
        TailHas(t, v);
      }
      IncreasingUnique(s[1..], t[1..]);
    }
  }

  lemma HasMember(t: seq<nat>)
    requires t != []
    ensures exists v :: v in t
  {
    assert t[0] in t;
  }

  lemma TailHas(s: seq<nat>, v: nat)
    requires s != [] && Increasing(s)
    ensures v in s[1..] <==> v in s && v != s[0]
  {
    if v in s && v != s[0] {
      var a :| 0 <= a < |s| && s[a] == v;
      assert s[1..][a - 1] == v;
    }
  }

  lemma Parts(needs: seq<seq<nat>>, order: seq<nat>, cut: nat)
    requires IsStartOrder(needs, order, cut)
    ensures IsSorted(needs, order[..cut]) && Increasing(order[cut..])
    ensures forall v: nat :: v in order[cut..] <==> v < |needs| && v !in order[..cut]
  {
    forall v: nat
      ensures v in order[cut..] <==> v < |needs| && v !in order[..cut]
    {
      assert v in order[cut..] ==> exists b | cut <= b < |order| :: order[b] == v;
      if v < |needs| && v !in order[..cut] {
        var b := PositionOf(order, v, cut);
        assert order[cut..][b - cut] == v;
      }
    }
  }

  /** The start order is the only list with its properties. */
  lemma StartOrderUnique(needs: seq<seq<nat>>, o: seq<nat>, c: nat, o': seq<nat>, c': nat)
    requires IsStartOrder(needs, o, c) && IsStartOrder(needs, o', c')
    ensures o == o' && c == c'
  {
    Parts(needs, o, c);
    Parts(needs, o', c');
    SortedUnique(needs, o[..c], o'[..c']);
    assert |o[..c]| == c && |o'[..c']| == c';
    IncreasingUnique(o[c..], o'[c..]);
    assert o == o[..c] + o[c..] && o' == o'[..c] + o'[c..];
  }

  ghost predicate SameProviders(needs: seq<seq<nat>>, needs': seq<seq<nat>>) {
    |needs| == |needs'| && forall v | 0 <= v < |needs| :: SameMembers(needs[v], needs'[v])
  }

  ghost predicate SameMembers(ps: seq<nat>, qs: seq<nat>) {
    forall p :: p in ps <==> p in qs
  }

  /** Declaring a dependency twice, or dependencies in another order, changes nothing. */
  lemma DuplicatesDoNotMatter(needs: seq<seq<nat>>, needs': seq<seq<nat>>, o: seq<nat>, c: nat, o': seq<nat>, c': nat)
    requires SameProviders(needs, needs') && IsStartOrder(needs, o, c) && IsStartOrder(needs', o', c')
    ensures o == o' && c == c'
  {
    var e := o[..c];
    SameCycles(needs, needs', e);
    SameShape(needs, needs', e, c);
    StartOrderUnique(needs', o, c, o', c');
  }

  lemma SameCycles(needs: seq<seq<nat>>, needs': seq<seq<nat>>, e: seq<nat>)
    requires SameProviders(needs, needs') && EmittedAreAcyclic(needs, e)
    ensures EmittedAreAcyclic(needs', e)
  {
    forall path
      ensures Path(needs, path) <==> Path(needs', path)
    {
      assert forall k | 0 <= k < |path| && path[k] < |needs| :: SameMembers(needs[path[k]], needs'[path[k]]);
    }
    assert forall v | 0 <= v < |needs| :: ReachesCycle(needs, v) <==> ReachesCycle(needs', v);
  }

  lemma SameShape(needs: seq<seq<nat>>, needs': seq<seq<nat>>, e: seq<nat>, k: nat)
    requires SameProviders(needs, needs') && Below(e, |needs|) && k == |e|
    requires Provided(needs, e, k) && Sorted(needs, e, k)
    ensures Provided(needs', e, k) && Sorted(needs', e, k)
  {
    forall b | 0 <= b < |e|
      ensures ProvidedAt(needs', e, k, b) && Release(needs'[e[b]], e, k) == Release(needs[e[b]], e, k)
    {
      assert SameMembers(needs[e[b]], needs'[e[b]]);
      assert ProvidedAt(needs, e, k, b);
      ReleaseSame(needs[e[b]], needs'[e[b]], e, e, k);
    }
  }

  /** Without dependencies the start order is the registration order. */
  lemma NoDependencies(needs: seq<seq<nat>>, order: seq<nat>, cut: nat)
    requires IsStartOrder(needs, order, cut) && forall v | 0 <= v < |needs| :: needs[v] == []
    ensures cut == |order| && forall a | 0 <= a < |order| :: order[a] == a
  {
    var identity := seq(|needs|, v requires 0 <= v < |needs| => v);
    forall v | 0 <= v < |needs|
      ensures v in identity && !ReachesCycle(needs, v)
    {
      assert identity[v] == v;
      forall path | Path(needs, path) && path != [] && path[0] == v
        ensures !Repeats(path)
      {
        if |path| > 1 {
          LinkNeedsProvider(needs, path);
        }
      }
    }
    assert identity[..|needs|] == identity;
    StartOrderUnique(needs, order, cut, identity, |needs|);
  }

  lemma LinkNeedsProvider(needs: seq<seq<nat>>, path: seq<nat>)
    requires Path(needs, path) && |path| > 1
    ensures needs[path[0]] != []
  {
    assert path[0 + 1] in needs[path[0]];
  }

  // ---- levels ----

  /** `levels` gives each acyclic module the length of its longest provider chain. */
  ghost predicate IsLevel(needs: seq<seq<nat>>, e: seq<nat>, levels: seq<nat>) {
    |levels| == |needs| && Below(e, |needs|) && forall b | 0 <= b < |e| :: LevelAt(needs, levels, e[b])
  }

  /** All providers of v are on lower levels, one of them just below unless v is on level 0. */
  ghost predicate LevelAt(needs: seq<seq<nat>>, levels: seq<nat>, v: nat)
    requires |levels| == |needs| && v < |needs|
  {
    && (forall p | p in needs[v] :: p < |needs| && levels[p] < levels[v])
    && (levels[v] > 0 ==> exists p :: TopProvider(needs, levels, v, p))
  }

  /** Every list has a highest member. */
  lemma {:induction false} Highest(ps: seq<nat>, levels: seq<nat>) returns (top: nat)
    requires ps != [] && Below(ps, |levels|)
    ensures top in ps && forall p | p in ps :: levels[p] <= levels[top]
    decreases |ps|
  {
    top := ps[0];
    if |ps| > 1 {
      var rest := Highest(ps[1..], levels);
      if levels[rest] > levels[top] {
        top := rest;
      }
      assert ps == [ps[0]] + ps[1..];
    }
  }

  /** Levels exist for every sorted part: each module is one above its highest provider. */
  lemma {:induction false} LevelsExist(needs: seq<seq<nat>>, e: seq<nat>, k: nat) returns (levels: seq<nat>)
    requires Below(e, |needs|) && Distinct(e) && Provided(needs, e, |e|) && WellFormed(needs) && k <= |e|
    ensures |levels| == |needs| && forall b | 0 <= b < k :: LevelAt(needs, levels, e[b])
    ensures k == |e| ==> IsLevel(needs, e, levels)
    decreases k
  {
    if k == 0 {
      levels := seq(|needs|, _ => 0);
    } else {
      var before := LevelsExist(needs, e, k - 1);
      var v := e[k - 1];
      var top := 0;
      if needs[v] != [] {
        top := Highest(needs[v], before);
      }
      levels := before[v := if needs[v] == [] then 0 else before[top] + 1];
      OwnProviders(needs, e, k - 1);
      OnTop(needs, before, levels, v, top);
      forall b | 0 <= b < k - 1
        ensures LevelAt(needs, levels, e[b])
      {
        assert LevelAt(needs, before, e[b]) && ProvidedAt(needs, e, |e|, b);
        NotNeeded(needs, e, b, k - 1);
        Untouched(needs, before, levels, e[b], v);
      }
    }
  }

  /** A later module is no provider of an earlier one, nor of itself. */
  lemma NotNeeded(needs: seq<seq<nat>>, e: seq<nat>, b: nat, c: nat)
    requires Below(e, |needs|) && Distinct(e) && Provided(needs, e, |e|) && b <= c < |e|
    ensures e[c] !in needs[e[b]]
  {
    assert ProvidedAt(needs, e, |e|, b);
    assert forall a | 0 <= a < b :: e[..b][a] == e[a];
  }

  lemma OwnProviders(needs: seq<seq<nat>>, e: seq<nat>, b: nat)
    requires Below(e, |needs|) && Distinct(e) && Provided(needs, e, |e|) && b < |e|
    ensures e[b] !in needs[e[b]]
  {
    NotNeeded(needs, e, b, b);
  }

  lemma Untouched(needs: seq<seq<nat>>, before: seq<nat>, levels: seq<nat>, x: nat, v: nat)
    requires |before| == |levels| == |needs| && x < |needs| && v < |needs| && LevelAt(needs, before, x)
    requires x != v && v !in needs[x] && forall y | 0 <= y < |needs| && y != v :: levels[y] == before[y]
    ensures LevelAt(needs, levels, x)
  {
    if levels[x] > 0 {
      var p :| TopProvider(needs, before, x, p);
      assert TopProvider(needs, levels, x, p);
    }
  }

  lemma OnTop(needs: seq<seq<nat>>, before: seq<nat>, levels: seq<nat>, v: nat, top: nat)
    requires |before| == |levels| == |needs| && WellFormed(needs) && v < |needs| && v !in needs[v]
    requires forall y | 0 <= y < |needs| && y != v :: levels[y] == before[y]
    requires needs[v] == [] ==> levels[v] == 0
    requires needs[v] != [] ==> top in needs[v] && top < |needs| && levels[v] == before[top] + 1
    requires needs[v] != [] ==> forall p | p in needs[v] :: p < |needs| && before[p] <= before[top]
    ensures LevelAt(needs, levels, v)
  {
    if needs[v] != [] {
      assert TopProvider(needs, levels, v, top);
    }
  }

  /** A provider of v one level below. */
  ghost predicate TopProvider(needs: seq<seq<nat>>, levels: seq<nat>, v: nat, p: nat) {
    v < |needs| == |levels| && p in needs[v] && p < |levels| && levels[p] + 1 == levels[v]
  }

  /** Every provider is at or before the last one's position. */
  lemma ProviderPosition(needs: seq<seq<nat>>, e: seq<nat>, b: nat, p: nat) returns (a: nat)
    requires Below(e, |needs|) && Distinct(e) && Provided(needs, e, |e|) && b < |e| && p in needs[e[b]]
    ensures a < Key(needs, e, e[b]) <= b && e[a] == p
  {
    assert ProvidedAt(needs, e, |e|, b);
    assert p in e[..b];
    a :| 0 <= a < b && e[..b][a] == p;
    assert e[a] == p;
    OwnKey(needs, e, b);
  }

  /** Keys and levels by position: what the sort and the levels say about them. */
  ghost predicate Positions(keys: seq<nat>, ls: seq<nat>) {
    && |keys| == |ls|
    && (forall b | 0 <= b < |keys| :: PositionOk(keys[b], ls, b))
    && (forall a, b | 0 <= a < b < |keys| :: keys[a] <= keys[b])
  }

  /** No provider means level 0; else the last one is lower, and there is one just below. */
  ghost predicate PositionOk(k: nat, ls: seq<nat>, b: nat)
    requires b < |ls|
  {
    && k <= b
    && (k == 0 ==> ls[b] == 0)
    && (k > 0 ==> ls[k - 1] < ls[b] && OneBelow(ls, k, ls[b]))
  }

  /** Before position k there is one just below level l. */
  ghost predicate OneBelow(ls: seq<nat>, k: nat, l: nat) {
    exists a :: 0 <= a < k && a < |ls| && ls[a] + 1 == l
  }

  /** The queue phase goes level by level. */
  lemma {:induction false} LevelsAscend(keys: seq<nat>, ls: seq<nat>, a: nat, b: nat)
    requires Positions(keys, ls) && a <= b < |ls|
    ensures ls[a] <= ls[b]
    decreases b
  {
    assert PositionOk(keys[a], ls, a) && PositionOk(keys[b], ls, b);
    if a < b && keys[a] > 0 {
      assert keys[a] <= keys[b];
      var c :| 0 <= c < keys[a] && c < |ls| && ls[c] + 1 == ls[a];
      LevelsAscend(keys, ls, c, keys[b] - 1);
    }
  }

  /** The provider emitted last is one level below: nothing emitted before it is higher. */
  lemma LastIsOneBelow(keys: seq<nat>, ls: seq<nat>, b: nat)
    requires Positions(keys, ls) && b < |ls| && ls[b] > 0
    ensures 0 < keys[b] <= b && ls[keys[b] - 1] + 1 == ls[b]
  {
    assert PositionOk(keys[b], ls, b);
    var c :| 0 <= c < keys[b] && c < |ls| && ls[c] + 1 == ls[b];
    LevelsAscend(keys, ls, c, keys[b] - 1);
  }

  function Keys(needs: seq<seq<nat>>, e: seq<nat>): (ks: seq<nat>)
    requires Below(e, |needs|)
    ensures |ks| == |e| && forall b | 0 <= b < |e| :: ks[b] == Key(needs, e, e[b])
  {
    seq(|e|, b requires 0 <= b < |e| => Key(needs, e, e[b]))
  }

  function LevelsOf(e: seq<nat>, levels: seq<nat>): (ls: seq<nat>)
    requires Below(e, |levels|)
    ensures |ls| == |e| && forall b | 0 <= b < |e| :: ls[b] == levels[e[b]]
  {
    seq(|e|, b requires 0 <= b < |e| => levels[e[b]])
  }

  /** One position: no provider means level 0, else there is a last one and one just below. */
  lemma OnePosition(needs: seq<seq<nat>>, e: seq<nat>, levels: seq<nat>, b: nat)
    requires Below(e, |needs|) && Distinct(e) && Provided(needs, e, |e|) && b < |e|
    requires |levels| == |needs| && LevelAt(needs, levels, e[b])
    ensures PositionOk(Key(needs, e, e[b]), LevelsOf(e, levels), b)
  {
    var k := Key(needs, e, e[b]);
    OwnKey(needs, e, b);
    if k > 0 {
      assert e[k - 1] in needs[e[b]];
    }
    if levels[e[b]] > 0 {
      var p :| TopProvider(needs, levels, e[b], p);
      var a := ProviderPosition(needs, e, b, p);
      assert LevelsOf(e, levels)[a] + 1 == levels[e[b]];
    }
  }

  lemma KeysAscend(needs: seq<seq<nat>>, e: seq<nat>)
    requires Ordered(needs, e)
    ensures forall a, b | 0 <= a < b < |e| :: Keys(needs, e)[a] <= Keys(needs, e)[b]
  {
    forall a, b | 0 <= a < b < |e|
      ensures Keys(needs, e)[a] <= Keys(needs, e)[b]
    {
      KeyOrder(needs, e, a, b);
    }
  }

  lemma PositionsAreOk(needs: seq<seq<nat>>, e: seq<nat>, levels: seq<nat>, b: nat)
    requires Below(e, |needs|) && Distinct(e) && Provided(needs, e, |e|) && IsLevel(needs, e, levels) && b < |e|
    ensures PositionOk(Keys(needs, e)[b], LevelsOf(e, levels), b)
  {
    assert LevelAt(needs, levels, e[b]);
    OnePosition(needs, e, levels, b);
  }

  lemma PositionsHold(needs: seq<seq<nat>>, e: seq<nat>, levels: seq<nat>)
    requires Ordered(needs, e) && IsLevel(needs, e, levels)
    ensures Positions(Keys(needs, e), LevelsOf(e, levels))
  {
    var keys, ls := Keys(needs, e), LevelsOf(e, levels);
    KeysAscend(needs, e);
    forall b | 0 <= b < |e|
      ensures PositionOk(keys[b], ls, b)
    {
      PositionsAreOk(needs, e, levels, b);
    }
  }

  /** So the last provider is a top provider. */
  lemma LastIsTop(needs: seq<seq<nat>>, e: seq<nat>, levels: seq<nat>, b: nat)
    requires Ordered(needs, e) && IsLevel(needs, e, levels) && b < |e| && levels[e[b]] > 0
    ensures 0 < Key(needs, e, e[b]) <= b && TopProvider(needs, levels, e[b], e[Key(needs, e, e[b]) - 1])
  {
    PositionsHold(needs, e, levels);
    LastIsOneBelow(Keys(needs, e), LevelsOf(e, levels), b);
    assert e[Key(needs, e, e[b]) - 1] in needs[e[b]];
  }

  /** Modules of one level are emitted in registration order. */
  ghost predicate KeepsLevels(e: seq<nat>, levels: seq<nat>)
    requires Below(e, |levels|)
  {
    forall a, b | 0 <= a < b < |e| && levels[e[a]] == levels[e[b]] :: e[a] < e[b]
  }

  /**
   Of two modules on one level, the one registered first has no top provider (one on the level below)
   that is registered behind all top providers of the other.
   */
  ghost predicate Aligned(needs: seq<seq<nat>>, e: seq<nat>, levels: seq<nat>) {
    forall x, y, p | x in e && y in e && x < y && x < |levels| && y < |levels|
               && levels[x] == levels[y] && TopProvider(needs, levels, x, p) ::
      AtLeastOneBehind(needs, levels, y, p)
  }

  ghost predicate AtLeastOneBehind(needs: seq<seq<nat>>, levels: seq<nat>, y: nat, p: nat) {
    exists q :: TopProvider(needs, levels, y, q) && p <= q
  }

  /** The comment in the source promises registration order inside each level; this is when it holds. */
  lemma LevelOrderIff(needs: seq<seq<nat>>, e: seq<nat>, levels: seq<nat>)
    requires Ordered(needs, e) && IsLevel(needs, e, levels)
    ensures KeepsLevels(e, levels) <==> Aligned(needs, e, levels)
  {
    if KeepsLevels(e, levels) {
      forall x, y, p | x in e && y in e && x < y && x < |levels| && y < |levels|
               && levels[x] == levels[y] && TopProvider(needs, levels, x, p)
        ensures AtLeastOneBehind(needs, levels, y, p)
      {
        KeptAligns(needs, e, levels, x, y, p);
      }
    }
    if Aligned(needs, e, levels) {
      forall a, b | 0 <= a < b < |e| && levels[e[a]] == levels[e[b]]
        ensures e[a] < e[b]
      {
        AlignedKeeps(needs, e, levels, a, b);
      }
    }
  }

  lemma KeptAligns(needs: seq<seq<nat>>, e: seq<nat>, levels: seq<nat>, x: nat, y: nat, p: nat)
    requires Ordered(needs, e) && IsLevel(needs, e, levels) && KeepsLevels(e, levels)
    requires x in e && y in e && x < y && x < |levels| && y < |levels| && levels[x] == levels[y]
    requires TopProvider(needs, levels, x, p)
    ensures AtLeastOneBehind(needs, levels, y, p)
  {
    var a, b := InOrder(e, levels, x, y);
    KeyOrder(needs, e, a, b);
    var c := ProviderPosition(needs, e, a, p);
    LastIsTop(needs, e, levels, b);
    NotBefore(e, levels, c, Key(needs, e, y) - 1);
  }

  lemma InOrder(e: seq<nat>, levels: seq<nat>, x: nat, y: nat) returns (a: nat, b: nat)
    requires Below(e, |levels|) && KeepsLevels(e, levels) && x in e && y in e && x < y && levels[x] == levels[y]
    ensures a < b < |e| && e[a] == x && e[b] == y
  {
    a :| 0 <= a < |e| && e[a] == x;
    b :| 0 <= b < |e| && e[b] == y;
  }

  lemma NotBefore(e: seq<nat>, levels: seq<nat>, c: nat, r: nat)
    requires Below(e, |levels|) && KeepsLevels(e, levels) && c <= r < |e| && levels[e[c]] == levels[e[r]]
    ensures e[c] <= e[r]
  {}

  lemma {:induction false} AlignedKeeps(needs: seq<seq<nat>>, e: seq<nat>, levels: seq<nat>, a: nat, b: nat)
    requires Ordered(needs, e) && IsLevel(needs, e, levels) && Aligned(needs, e, levels)
    requires a < b < |e| && levels[e[a]] == levels[e[b]]
    ensures e[a] < e[b]
    decreases b
  {
    KeyOrder(needs, e, a, b);
    if e[a] > e[b] {
      var r := Key(needs, e, e[b]) - 1;
      var c := EarlierPair(needs, e, levels, a, b);
      AlignedKeeps(needs, e, levels, c, r);
    }
  }

  /** If two modules of one level are in the wrong order, so are two of the level below, earlier. */
  lemma EarlierPair(needs: seq<seq<nat>>, e: seq<nat>, levels: seq<nat>, a: nat, b: nat) returns (c: nat)
    requires Ordered(needs, e) && IsLevel(needs, e, levels) && Aligned(needs, e, levels)
    requires a < b < |e| && levels[e[a]] == levels[e[b]] && e[a] > e[b]
    ensures 0 < Key(needs, e, e[b]) <= b && c < Key(needs, e, e[b]) - 1
    ensures var r := Key(needs, e, e[b]) - 1; levels[e[c]] == levels[e[r]] && e[c] >= e[r]
  {
    KeyOrder(needs, e, a, b);
    assert LevelAt(needs, levels, e[b]);
    OnePosition(needs, e, levels, b);
    LastIsTop(needs, e, levels, b);
    var r := Key(needs, e, e[b]) - 1;
    assert e[a] in e && e[b] in e;
    assert AtLeastOneBehind(needs, levels, e[a], e[r]);
    var q :| TopProvider(needs, levels, e[a], q) && e[r] <= q;
    c := ProviderPosition(needs, e, a, q);
  }

  /** Two modules of one level, started against their registration order. */
  lemma LevelOrderCanBreak()
    ensures var ms := [Module(1, []), Module(2, []), Module(3, [2]), Module(4, [1])];
            && IsStartOrder(AllProviders(ms), [0, 1, 3, 2], 4)
            && IsLevel(AllProviders(ms), [0, 1, 3, 2], [0, 0, 1, 1])
            && !KeepsLevels([0, 1, 3, 2], [0, 0, 1, 1])
  {
    var ms := [Module(1, []), Module(2, []), Module(3, [2]), Module(4, [1])];
    var needs := AllProviders(ms);
    SampleFirst(ms);
    assert Resolved(ms, 2, 0) == [] && Resolved(ms, 3, 0) == [];
    assert Resolved(ms, 2, 1) == [1] && Resolved(ms, 3, 1) == [0];
    assert needs[0] == [] && needs[1] == [];
    assert needs == [[], [], [1], [0]];
    SampleOrder(needs, [0, 1, 3, 2]);
    SampleLevels(needs, [0, 1, 3, 2], [0, 0, 1, 1]);
  }

  lemma SampleFirst(ms: seq<Module>)
    requires ms == [Module(1, []), Module(2, []), Module(3, [2]), Module(4, [1])]
    ensures FirstWith(ms, 2, 4) == Known(1) && FirstWith(ms, 1, 4) == Known(0)
  {
    assert FirstWith(ms, 2, 0) == Nobody && FirstWith(ms, 2, 1) == Nobody;
    assert FirstWith(ms, 2, 2) == Known(1) && FirstWith(ms, 2, 3) == Known(1);
    assert FirstWith(ms, 1, 0) == Nobody && FirstWith(ms, 1, 1) == Known(0);
    assert FirstWith(ms, 1, 2) == Known(0) && FirstWith(ms, 1, 3) == Known(0);
  }

  lemma SampleOrder(needs: seq<seq<nat>>, e: seq<nat>)
    requires needs == [[], [], [1], [0]] && e == [0, 1, 3, 2]
    ensures IsStartOrder(needs, e, 4)
  {
    assert e[..4] == e;
    assert Release([], e, 4) == 0 && Release([1], e, 4) == 2 && Release([0], e, 4) == 1 by {
      assert Release([1], e, 2) == 2 && Release([1], e, 3) == 2;
      assert Release([0], e, 1) == 1 && Release([0], e, 2) == 1 && Release([0], e, 3) == 1;
    }
    SampleProvided(needs, e);
    ProvidedAreAcyclic(needs, e);
  }

  lemma SampleProvided(needs: seq<seq<nat>>, e: seq<nat>)
    requires needs == [[], [], [1], [0]] && e == [0, 1, 3, 2]
    ensures Provided(needs, e, 4)
  {
    assert e[..2] == [0, 1] && e[..3] == [0, 1, 3];
    assert ProvidedAt(needs, e, 4, 0) && ProvidedAt(needs, e, 4, 1)
           && ProvidedAt(needs, e, 4, 2) && ProvidedAt(needs, e, 4, 3);
  }

  lemma SampleLevels(needs: seq<seq<nat>>, e: seq<nat>, levels: seq<nat>)
    requires needs == [[], [], [1], [0]] && e == [0, 1, 3, 2] && levels == [0, 0, 1, 1]
    ensures IsLevel(needs, e, levels) && !KeepsLevels(e, levels)
  {
    assert TopProvider(needs, levels, 2, 1) && TopProvider(needs, levels, 3, 0);
    assert levels[e[2]] == levels[e[3]] && e[2] > e[3];
  }

  /** A list of all modules in which everybody comes after its providers. */
  lemma ProvidedAreAcyclic(needs: seq<seq<nat>>, e: seq<nat>)
    requires Below(e, |needs|) && Distinct(e) && Provided(needs, e, |e|) && forall v: nat | v < |needs| :: v in e
    ensures EmittedAreAcyclic(needs, e)
  {
    forall v | 0 <= v < |needs|
      ensures !ReachesCycle(needs, v)
    {
      assert v in e;
      var a :| 0 <= a < |e| && e[a] == v;
      forall path | Path(needs, path) && path != [] && path[0] == v
        ensures !Repeats(path)
      {
        NoRepeats(needs, e, path, a);
      }
    }
  }
}
