/**
 The multi-tenant store: one table of items, per-tenant statistics kept beside it, and a sequence
 number that only grows, which clients use as a cursor.
 */
module FileStore {
  import opened Basics

  /** Ids and tenant names; only their identity matters, and that 0 stands for the empty string. */
  type Name = nat

  const Empty: Name := 0

  datatype ItemKind = Text | File

  datatype Item = Item(kind: ItemKind, tenant: Name, name: string, from: string, text: seq<Byte>, data: seq<Byte>,
      seqNo: nat) {
    function Size(): nat {
      if kind.Text? then |text| else |data|
    }
  }

  /** 0 means no limit. */
  datatype Limits = Limits(maxItems: nat, maxTotalBytes: nat, maxItemBytes: nat)

  datatype Stat = Stat(items: nat, bytes: nat)

  /** The table, the statistics, and the last sequence number given out. */
  datatype Store = Store(items: map<Name, Item>, stats: map<Name, Stat>, nextSeq: nat)

  // ---- the fold the statistics must agree with ----

  function CountOf(tenant: Name): Item -> nat {
    (item: Item) => if item.tenant == tenant then 1 else 0
  }

  function BytesOf(tenant: Name): Item -> nat {
    (item: Item) => if item.tenant == tenant then item.Size() else 0
  }

  ghost function SomeId(items: map<Name, Item>): (id: Name)
    requires items != map[]
    ensures id in items
  {
    var id :| id in items;
    id
  }

  /** The weight of a whole table. */
  ghost function Sum(items: map<Name, Item>, weight: Item -> nat): nat
    decreases |items|
  {
    if items == map[] then 0
    else
      var id := SomeId(items);
      Sum(items - {id}, weight) + weight(items[id])
  }

  /** Count and byte sum over a tenant's items. */
  ghost function Fold(items: map<Name, Item>, tenant: Name): Stat {
    Stat(Sum(items, CountOf(tenant)), Sum(items, BytesOf(tenant)))
  }

  /** Any item may be split off: the sum does not depend on the order. */
  lemma {:induction false} SumSplit(items: map<Name, Item>, weight: Item -> nat, id: Name)
    requires id in items
    ensures Sum(items, weight) == Sum(items - {id}, weight) + weight(items[id])
    decreases |items|
  {
    var first := SomeId(items);
    if first != id {
      var less := items - {first};
      assert less[id] == items[id];
      SumSplit(less, weight, id);
      SumSplit(items - {id}, weight, first);
      WithoutTwo(items, first, id);
    }
  }

  lemma WithoutTwo(items: map<Name, Item>, a: Name, b: Name)
    ensures items - {a} - {b} == items - {b} - {a}
  {}

  lemma SumAdd(items: map<Name, Item>, weight: Item -> nat, id: Name, item: Item)
    requires id !in items
    ensures Sum(items[id := item], weight) == Sum(items, weight) + weight(item)
  {
    var more := items[id := item];
    assert more - {id} == items;
    SumSplit(more, weight, id);
  }

  /** What the statistics say of a tenant. */
  function StatOf(stats: map<Name, Stat>, tenant: Name): Stat {
    if tenant in stats then stats[tenant] else Stat(0, 0)
  }

  ghost predicate StatsAgree(s: Store) {
    forall tenant :: StatOf(s.stats, tenant) == Fold(s.items, tenant)
  }

  ghost predicate Valid(s: Store) {
    StatsAgree(s) && Numbered(s) && forall tenant | tenant in s.stats :: s.stats[tenant] != Stat(0, 0)
  }

  /** Items are not empty and have different numbers, none beyond the last one given out. */
  ghost predicate Numbered(s: Store) {
    && (forall id | id in s.items :: 0 < s.items[id].seqNo <= s.nextSeq && s.items[id].Size() > 0)
    && (forall id, other | id in s.items && other in s.items && s.items[id].seqNo == s.items[other].seqNo ::
          id == other)
  }

  // ---- the operations as functions ----

  /** Saving under these limits is refused. */
  predicate OverLimit(stat: Stat, size: nat, limits: Limits) {
    || (limits.maxItems > 0 && stat.items >= limits.maxItems)
    || (limits.maxItemBytes > 0 && size > limits.maxItemBytes)
    || (limits.maxTotalBytes > 0 && stat.bytes + size > limits.maxTotalBytes)
  }

  /** Adding an accepted item under a fresh id, with the next sequence number. */
  function Added(s: Store, id: Name, item: Item): Store {
    var seqNo := s.nextSeq + 1;
    var stat := StatOf(s.stats, item.tenant);
    Store(s.items[id := item.(seqNo := seqNo)],
          s.stats[item.tenant := Stat(stat.items + 1, stat.bytes + item.Size())], seqNo)
  }

  function Saved(s: Store, id: Name, item: Item, limits: Limits): (Store, Name) {
    if item.tenant == Empty || item.Size() == 0 || OverLimit(StatOf(s.stats, item.tenant), item.Size(), limits)
    then (s, Empty)
    else (Added(s, id, item), id)
  }

  /** Removing, with the guards against going below zero; `ClampsNeverAct` shows that they are not needed. */
  function Removed(s: Store, tenant: Name, id: Name): Store
    requires id in s.items
  {
    var stat := StatOf(s.stats, tenant);
    var size := s.items[id].Size();
    var left := Stat(if stat.items >= 1 then stat.items - 1 else 0,
                     if stat.bytes >= size then stat.bytes - size else 0);
    Store(s.items - {id}, if left == Stat(0, 0) then s.stats - {tenant} else s.stats[tenant := left], s.nextSeq)
  }

  /** Clearing; the sequence number is not reset. */
  function Cleared(s: Store): Store {
    Store(map[], map[], s.nextSeq)
  }

  class CFileStore {
    var items: map<Name, Item>
    var stats: map<Name, Stat>
    var nextSeq: nat

    constructor ()
      ensures State() == Store(map[], map[], 0) && Valid(State())
    {
      items, stats, nextSeq := map[], map[], 0;
    }

    ghost function State(): Store
      reads this
    {
      Store(items, stats, nextSeq)
    }

    /** Since state s, exactly this item has come in, with the next number. */
    ghost predicate Holds(s: Store, id: Name, item: Item)
      reads this
    {
      nextSeq == s.nextSeq + 1 && items == s.items[id := item.(seqNo := nextSeq)]
    }

    /** `freshId` is the id the generator found: non-empty and not in the table. */
    method SaveText(tenant: Name, content: seq<Byte>, from: string, limits: Limits, freshId: Name) returns (id: Name)
      requires Valid(State()) && freshId !in items && freshId != Empty
      modifies this
      ensures (State(), id) == Saved(old(State()), freshId, Item(Text, tenant, "", from, content, [], 0), limits)
      ensures id != Empty
              <==> tenant != Empty && content != [] && Fits(old(items), tenant, |content|, limits)
      ensures id != Empty ==> Holds(old(State()), freshId, Item(Text, tenant, "", from, content, [], 0))
      ensures Valid(State())
    {
      SaveSucceedsIff(State(), freshId, Item(Text, tenant, "", from, content, [], 0), limits);
      if tenant == Empty || content == [] {
        return Empty;
      }
      id := Insert(Item(Text, tenant, "", from, content, [], 0), limits, freshId);
    }

    method SaveFile(tenant: Name, name: string, data: seq<Byte>, from: string, limits: Limits, freshId: Name)
      returns (id: Name)
      requires Valid(State()) && freshId !in items && freshId != Empty
      modifies this
      ensures (State(), id) ==
              Saved(old(State()), freshId,
                    Item(File, tenant, if name == "" then "file.bin" else name, from, [], data, 0), limits)
      ensures id != Empty
              <==> tenant != Empty && data != [] && Fits(old(items), tenant, |data|, limits)
      ensures id != Empty ==>
                Holds(old(State()), freshId,
                      Item(File, tenant, if name == "" then "file.bin" else name, from, [], data, 0))
      ensures Valid(State())
    {
      SaveSucceedsIff(State(), freshId,
                      Item(File, tenant, if name == "" then "file.bin" else name, from, [], data, 0), limits);
      if tenant == Empty || data == [] {
        return Empty;
      }
      id := Insert(Item(File, tenant, if name == "" then "file.bin" else name, from, [], data, 0), limits, freshId);
    }

    /** The common part of the two: quota check, table and statistics. */
    method Insert(item: Item, limits: Limits, freshId: Name) returns (id: Name)
      requires Valid(State()) && freshId !in items && freshId != Empty && item.tenant != Empty && item.Size() > 0
      modifies this
      ensures (State(), id) == Saved(old(State()), freshId, item, limits)
      ensures id != Empty <==> Fits(old(items), item.tenant, item.Size(), limits)
      ensures id != Empty ==> Holds(old(State()), freshId, item)
      ensures Valid(State())
    {
      InsertMeans(State(), freshId, item, limits);
      var stat := Stat(0, 0);
      if item.tenant in stats {
        stat := stats[item.tenant];
      }
      var size := item.Size();
      if (limits.maxItems > 0 && stat.items >= limits.maxItems)
        || (limits.maxItemBytes > 0 && size > limits.maxItemBytes)
        || (limits.maxTotalBytes > 0 && stat.bytes + size > limits.maxTotalBytes)
      {
        return Empty;
      }
      nextSeq := nextSeq + 1;
      id := freshId;
      items := items[id := item.(seqNo := nextSeq)];
      stats := stats[item.tenant := Stat(stat.items + 1, stat.bytes + size)];
    }

    /** An item of another tenant is treated as missing. */
    method Remove(tenant: Name, id: Name) returns (ok: bool)
      requires Valid(State())
      modifies this
      ensures ok <==> id in old(items) && old(items)[id].tenant == tenant
      ensures ok ==> items == old(items) - {id} && nextSeq == old(nextSeq)
      ensures State() == if ok then Removed(old(State()), tenant, id) else old(State())
      ensures Valid(State())
    {
      if id !in items || items[id].tenant != tenant {
        return false;
      }
      RemovedValid(State(), tenant, id);
      var payload := items[id].Size();
      items := items - {id};
      if tenant in stats {
        var stat := stats[tenant];
        stat := Stat(if stat.items > 0 then stat.items - 1 else 0,
                     if stat.bytes >= payload then stat.bytes - payload else 0);
        if stat.items == 0 && stat.bytes == 0 {
          stats := stats - {tenant};
        } else {
          stats := stats[tenant := stat];
        }
      }
      ok := true;
    }

    method Count(tenant: Name) returns (n: nat)
      requires Valid(State())
      ensures n == Fold(items, tenant).items
    {
      assert StatOf(stats, tenant) == Fold(items, tenant);
      n := if tenant !in stats then 0 else stats[tenant].items;
    }

    method TotalBytes(tenant: Name) returns (n: nat)
      requires Valid(State())
      ensures n == Fold(items, tenant).bytes
    {
      assert StatOf(stats, tenant) == Fold(items, tenant);
      n := if tenant !in stats then 0 else stats[tenant].bytes;
    }

    method Clear()
      modifies this
      ensures State() == Cleared(old(State())) && items == map[] && Valid(State())
    {
      items, stats := map[], map[];
    }

    /** The tenant's items behind the cursor, in ascending order of their numbers. */
    method ListSince(tenant: Name, since: nat) returns (list: seq<Name>)
      requires Valid(State())
      ensures IsListing(State(), tenant, since, list)
    {
      list := [];
      var rest := items.Keys;
      while rest != {}
        invariant rest <= items.Keys
        invariant ListedFrom(State(), tenant, since, items.Keys - rest, list)
        decreases |rest|
      {
        var id :| id in rest;
        if items[id].tenant == tenant && items[id].seqNo > since {
          list := InsertSorted(list, id, rest, tenant, since);
        }
        rest := rest - {id};
      }
    }

    /** Putting one more item into its place. */
    method InsertSorted(list: seq<Name>, id: Name, ghost rest: set<Name>, tenant: Name, since: nat)
      returns (sorted: seq<Name>)
      requires Valid(State()) && rest <= items.Keys && id in rest && items[id].tenant == tenant
      requires items[id].seqNo > since
      requires ListedFrom(State(), tenant, since, items.Keys - rest, list)
      ensures ListedFrom(State(), tenant, since, items.Keys - (rest - {id}), sorted)
    {
      var k := 0;
      while k < |list| && items[list[k]].seqNo < items[id].seqNo
        invariant 0 <= k <= |list|
        invariant forall j | 0 <= j < k :: items[list[j]].seqNo < items[id].seqNo
      {
        k := k + 1;
      }
      sorted := list[..k] + [id] + list[k..];
      InsertKeeps(State(), tenant, since, items.Keys - rest, list, id, k);
      assert items.Keys - rest + {id} == items.Keys - (rest - {id});
    }
  }

  /** `list` holds exactly the tenant's ids of `from` behind the cursor, by ascending number. */
  ghost predicate ListedFrom(s: Store, tenant: Name, since: nat, from: set<Name>, list: seq<Name>)
    requires from <= s.items.Keys
  {
    && (forall id :: id in list <==> id in from && s.items[id].tenant == tenant && s.items[id].seqNo > since)
    && Ascending(s, list)
  }

  ghost predicate IsListing(s: Store, tenant: Name, since: nat, list: seq<Name>) {
    ListedFrom(s, tenant, since, s.items.Keys, list)
  }

  lemma InsertKeeps(s: Store, tenant: Name, since: nat, from: set<Name>, list: seq<Name>, id: Name, k: nat)
    requires Numbered(s) && from <= s.items.Keys && id in s.items && id !in from && s.items[id].tenant == tenant
    requires s.items[id].seqNo > since
    requires ListedFrom(s, tenant, since, from, list) && k <= |list|
    requires forall j | 0 <= j < k :: list[j] in s.items && s.items[list[j]].seqNo < s.items[id].seqNo
    requires k < |list| ==> list[k] in s.items && s.items[list[k]].seqNo >= s.items[id].seqNo
    ensures ListedFrom(s, tenant, since, from + {id}, list[..k] + [id] + list[k..])
  {
    assert list == list[..k] + list[k..];
    assert forall x :: x in list[..k] + [id] + list[k..] <==> x in list || x == id;
    InsertSorts(s, list, id, k);
  }

  lemma InsertSorts(s: Store, list: seq<Name>, id: Name, k: nat)
    requires Numbered(s) && id in s.items && id !in list && k <= |list|
    requires Ascending(s, list)
    requires forall j | 0 <= j < k :: list[j] in s.items && s.items[list[j]].seqNo < s.items[id].seqNo
    requires k < |list| ==> list[k] in s.items && s.items[list[k]].seqNo >= s.items[id].seqNo
    ensures Ascending(s, list[..k] + [id] + list[k..])
  {
    if k < |list| {
      assert list[k] in list;
    }
    forall j | k <= j < |list|
      ensures list[j] in s.items && s.items[id].seqNo < s.items[list[j]].seqNo
    {
      assert k < j ==> s.items[list[k]].seqNo < s.items[list[j]].seqNo;
    }
  }

  // ---- the statistics ----

  lemma AddedStat(s: Store, id: Name, item: Item, tenant: Name)
    requires StatsAgree(s) && id !in s.items
    ensures StatOf(Added(s, id, item).stats, tenant) == Fold(Added(s, id, item).items, tenant)
  {
    var numbered := item.(seqNo := s.nextSeq + 1);
    SumAdd(s.items, CountOf(tenant), id, numbered);
    SumAdd(s.items, BytesOf(tenant), id, numbered);
    assert StatOf(s.stats, tenant) == Fold(s.items, tenant);
  }

  lemma AddedNumbered(s: Store, id: Name, item: Item)
    requires Numbered(s) && id !in s.items && item.Size() > 0
    ensures Numbered(Added(s, id, item))
  {}

  lemma AddedValid(s: Store, id: Name, item: Item)
    requires Valid(s) && id !in s.items && item.Size() > 0
    ensures Valid(Added(s, id, item))
  {
    forall tenant
      ensures StatOf(Added(s, id, item).stats, tenant) == Fold(Added(s, id, item).items, tenant)
    {
      AddedStat(s, id, item, tenant);
    }
    AddedNumbered(s, id, item);
  }

  /** The clamps of Remove never act: the statistics cover every item in the table. */
  lemma ClampsNeverAct(s: Store, id: Name)
    requires Valid(s) && id in s.items
    ensures var tenant := s.items[id].tenant;
            tenant in s.stats && s.stats[tenant].items >= 1 && s.stats[tenant].bytes >= s.items[id].Size()
  {
    var tenant := s.items[id].tenant;
    SumSplit(s.items, CountOf(tenant), id);
    SumSplit(s.items, BytesOf(tenant), id);
    assert StatOf(s.stats, tenant) == Fold(s.items, tenant);
  }

  lemma RemovedStat(s: Store, tenant: Name, id: Name, t: Name)
    requires Valid(s) && id in s.items && s.items[id].tenant == tenant
    ensures StatOf(Removed(s, tenant, id).stats, t) == Fold(Removed(s, tenant, id).items, t)
  {
    ClampsNeverAct(s, id);
    SumSplit(s.items, CountOf(t), id);
    SumSplit(s.items, BytesOf(t), id);
    assert StatOf(s.stats, t) == Fold(s.items, t);
  }

  lemma RemovedValid(s: Store, tenant: Name, id: Name)
    requires Valid(s) && id in s.items && s.items[id].tenant == tenant
    ensures Valid(Removed(s, tenant, id))
  {
    forall t
      ensures StatOf(Removed(s, tenant, id).stats, t) == Fold(Removed(s, tenant, id).items, t)
    {
      RemovedStat(s, tenant, id, t);
    }
  }

  /** A successful save leaves the tenant within the limits it was given. */
  lemma SavedWithinLimits(s: Store, id: Name, item: Item, limits: Limits)
    requires Valid(s) && id !in s.items && id != Empty
    ensures var (s', r) := Saved(s, id, item, limits);
            var now := Fold(s'.items, item.tenant);
            && Valid(s')
            && (r == Empty ==> s' == s)
            && (r != Empty ==> r in s'.items && s'.items[r] == item.(seqNo := s.nextSeq + 1))
            && (r != Empty && limits.maxItems > 0 ==> now.items <= limits.maxItems)
            && (r != Empty && limits.maxTotalBytes > 0 ==> now.bytes <= limits.maxTotalBytes)
            && (r != Empty && limits.maxItemBytes > 0 ==> item.Size() <= limits.maxItemBytes)
  {
    if Saved(s, id, item, limits).1 != Empty {
      AddedValid(s, id, item);
      assert StatOf(Added(s, id, item).stats, item.tenant) == Fold(Added(s, id, item).items, item.tenant);
    }
  }

  /** One more item of this size leaves the tenant's items, counted in the table, within each limit set. */
  ghost predicate Fits(items: map<Name, Item>, tenant: Name, size: nat, limits: Limits) {
    var now := Fold(items, tenant);
    && (limits.maxItems == 0 || now.items + 1 <= limits.maxItems)
    && (limits.maxItemBytes == 0 || size <= limits.maxItemBytes)
    && (limits.maxTotalBytes == 0 || now.bytes + size <= limits.maxTotalBytes)
  }

  /** When a save has to succeed: it names a tenant, holds something, and fits. */
  lemma SaveSucceedsIff(s: Store, id: Name, item: Item, limits: Limits)
    requires Valid(s) && id !in s.items && id != Empty
    ensures Saved(s, id, item, limits).1 != Empty
            <==> item.tenant != Empty && item.Size() > 0 && Fits(s.items, item.tenant, item.Size(), limits)
  {
    assert StatOf(s.stats, item.tenant) == Fold(s.items, item.tenant);
  }

  lemma InsertMeans(s: Store, id: Name, item: Item, limits: Limits)
    requires Valid(s) && id !in s.items && id != Empty && item.tenant != Empty && item.Size() > 0
    ensures Saved(s, id, item, limits).1 != Empty <==> Fits(s.items, item.tenant, item.Size(), limits)
    ensures Valid(Saved(s, id, item, limits).0)
  {
    SaveSucceedsIff(s, id, item, limits);
    AddedValid(s, id, item);
  }

  /** The part of the table a tenant can see. */
  ghost function Visible(s: Store, tenant: Name): map<Name, Item> {
    map id | id in s.items && s.items[id].tenant == tenant :: s.items[id]
  }

  /** Nothing another tenant can see differs: its items, the fold over them, its stored statistics. */
  ghost predicate SameFor(s: Store, s': Store, other: Name) {
    && Visible(s', other) == Visible(s, other)
    && Fold(s'.items, other) == Fold(s.items, other)
    && (other in s'.stats <==> other in s.stats)
    && StatOf(s'.stats, other) == StatOf(s.stats, other)
  }

  lemma SaveIsIsolated(s: Store, id: Name, item: Item, limits: Limits, other: Name)
    requires id !in s.items && id != Empty && other != item.tenant
    ensures SameFor(s, Saved(s, id, item, limits).0, other)
  {
    if Saved(s, id, item, limits).1 != Empty {
      var numbered := item.(seqNo := s.nextSeq + 1);
      SumAdd(s.items, CountOf(other), id, numbered);
      SumAdd(s.items, BytesOf(other), id, numbered);
    }
  }

  lemma RemoveIsIsolated(s: Store, tenant: Name, id: Name, other: Name)
    requires id in s.items && s.items[id].tenant == tenant && other != tenant
    ensures SameFor(s, Removed(s, tenant, id), other)
  {
    SumSplit(s.items, CountOf(other), id);
    SumSplit(s.items, BytesOf(other), id);
  }

  /** Saving and removing touch nothing another tenant can see, neither items nor statistics. */
  lemma TenantsAreIsolated(s: Store, id: Name, item: Item, limits: Limits, tenant: Name, other: Name)
    requires id !in s.items && id != Empty && item.tenant == tenant && other != tenant
    ensures SameFor(s, Saved(s, id, item, limits).0, other)
    ensures forall gone | gone in s.items && s.items[gone].tenant == tenant ::
          SameFor(s, Removed(s, tenant, gone), other)
  {
    SaveIsIsolated(s, id, item, limits, other);
    forall gone | gone in s.items && s.items[gone].tenant == tenant
      ensures SameFor(s, Removed(s, tenant, gone), other)
    {
      RemoveIsIsolated(s, tenant, gone, other);
    }
  }

  // ---- a client that polls with a cursor ----

  /** What happens to the store, and the polls of one client of one tenant. */
  datatype Event =
    | Save(id: Name, item: Item, limits: Limits)
    | Remove(tenant: Name, id: Name)
    | Clear
    | Poll(list: seq<Name>)

  /** The store, the client's cursor, and the sequence numbers it was given, in order. */
  datatype World = World(store: Store, cursor: nat, seen: seq<nat>)

  ghost predicate Enabled(w: World, tenant: Name, e: Event) {
    match e
    case Save(id, _, _) => id !in w.store.items && id != Empty
    case Poll(list) => IsListing(w.store, tenant, w.cursor, list)
    case _ => true
  }

  function Numbers(s: Store, list: seq<Name>): (ns: seq<nat>)
    requires forall id | id in list :: id in s.items
    ensures |ns| == |list| && forall k | 0 <= k < |list| :: list[k] in s.items && ns[k] == s.items[list[k]].seqNo
  {
    seq(|list|, k requires 0 <= k < |list| => assert list[k] in list; s.items[list[k]].seqNo)
  }

  ghost function Apply(w: World, tenant: Name, e: Event): World
    requires Enabled(w, tenant, e)
  {
    match e
    case Save(id, item, limits) => w.(store := Saved(w.store, id, item, limits).0)
    case Remove(t, id) =>
      if id in w.store.items && w.store.items[id].tenant == t then w.(store := Removed(w.store, t, id)) else w
    case Clear => w.(store := Cleared(w.store))
    case Poll(list) =>
      var ns := Numbers(w.store, list);
      w.(cursor := if list == [] then w.cursor else ns[|ns| - 1], seen := w.seen + ns)
  }

  /** Whatever the tenant has at or below the cursor was given to the client; nothing was given twice. */
  ghost predicate Synced(w: World, tenant: Name) {
    && Valid(w.store)
    && w.cursor <= w.store.nextSeq
    && (forall k | 0 <= k < |w.seen| :: w.seen[k] <= w.cursor)
    && (forall j, k | 0 <= j < k < |w.seen| :: w.seen[j] < w.seen[k])
    && (forall id | id in w.store.items && w.store.items[id].tenant == tenant && w.store.items[id].seqNo <= w.cursor ::
          w.store.items[id].seqNo in w.seen)
  }

  lemma PollNumbers(w: World, tenant: Name, list: seq<Name>)
    requires Synced(w, tenant) && Enabled(w, tenant, Poll(list))
    ensures var ns := Numbers(w.store, list);
            var w' := Apply(w, tenant, Poll(list));
            && w.cursor <= w'.cursor <= w.store.nextSeq
            && (forall k | 0 <= k < |ns| :: w.cursor < ns[k] <= w'.cursor)
            && (forall j, k | 0 <= j < k < |ns| :: ns[j] < ns[k])
  {
    var ns := Numbers(w.store, list);
    forall k | 0 <= k < |list|
      ensures list[k] in w.store.items && w.cursor < ns[k] <= w.store.nextSeq
    {
      assert list[k] in list;
    }
  }

  /** After a poll the client has all the tenant has. */
  lemma PollGivesAll(w: World, tenant: Name, list: seq<Name>, id: Name)
    requires Synced(w, tenant) && Enabled(w, tenant, Poll(list)) && id in w.store.items
    requires w.store.items[id].tenant == tenant
    ensures w.store.items[id].seqNo in Apply(w, tenant, Poll(list)).seen
  {
    var w' := Apply(w, tenant, Poll(list));
    if w.store.items[id].seqNo > w.cursor {
      assert id in list;
      var k :| 0 <= k < |list| && list[k] == id;
      assert w'.seen[|w.seen| + k] == w.store.items[id].seqNo;
    }
  }

  lemma PollSynced(w: World, tenant: Name, list: seq<Name>)
    requires Synced(w, tenant) && Enabled(w, tenant, Poll(list))
    ensures Synced(Apply(w, tenant, Poll(list)), tenant)
    ensures var w' := Apply(w, tenant, Poll(list));
            forall id | id in w.store.items && w.store.items[id].tenant == tenant :: w.store.items[id].seqNo in w'.seen
  {
    var w' := Apply(w, tenant, Poll(list));
    forall id | id in w.store.items && w.store.items[id].tenant == tenant
      ensures w.store.items[id].seqNo in w'.seen
    {
      PollGivesAll(w, tenant, list, id);
    }
    PollNumbers(w, tenant, list);
    SeenAscends(w.seen, Numbers(w.store, list), w.cursor);
  }

  lemma SeenAscends(seen: seq<nat>, ns: seq<nat>, cursor: nat)
    requires forall k | 0 <= k < |seen| :: seen[k] <= cursor
    requires forall j, k | 0 <= j < k < |seen| :: seen[j] < seen[k]
    requires forall k | 0 <= k < |ns| :: cursor < ns[k]
    requires forall j, k | 0 <= j < k < |ns| :: ns[j] < ns[k]
    ensures forall j, k | 0 <= j < k < |seen + ns| :: (seen + ns)[j] < (seen + ns)[k]
  {}

  lemma StepSynced(w: World, tenant: Name, e: Event)
    requires Synced(w, tenant) && Enabled(w, tenant, e)
    ensures Synced(Apply(w, tenant, e), tenant)
  {
    match e
    case Save(id, item, limits) =>
      if Saved(w.store, id, item, limits).1 != Empty {
        AddedValid(w.store, id, item);
      }
    case Remove(t, id) =>
      if id in w.store.items && w.store.items[id].tenant == t {
        RemovedValid(w.store, t, id);
      }
    case Clear =>
    case Poll(list) => PollSynced(w, tenant, list);
  }

  ghost predicate ValidRun(w: World, tenant: Name, events: seq<Event>)
    decreases |events|, 0
  {
    events != [] ==>
      ValidRun(w, tenant, events[..|events| - 1])
      && Enabled(After(w, tenant, events[..|events| - 1]), tenant, events[|events| - 1])
  }

  ghost function After(w: World, tenant: Name, events: seq<Event>): World
    requires ValidRun(w, tenant, events)
    decreases |events|, 1
  {
    if events == [] then w else Apply(After(w, tenant, events[..|events| - 1]), tenant, events[|events| - 1])
  }

  lemma {:induction false} RunSynced(w: World, tenant: Name, events: seq<Event>)
    requires Synced(w, tenant) && ValidRun(w, tenant, events)
    ensures Synced(After(w, tenant, events), tenant)
    decreases |events|
  {
    if events != [] {
      RunSynced(w, tenant, events[..|events| - 1]);
      StepSynced(After(w, tenant, events[..|events| - 1]), tenant, events[|events| - 1]);
    }
  }

  /**
   Over any run of saves, removals, clears and polls, a client that polls with its last number is given
   every item at most once, in ascending order, and after a poll has been given everything its tenant
   has in the table at that moment, before and after any Clear.
   */
  lemma CursorMissesNothing(tenant: Name, events: seq<Event>, list: seq<Name>)
    requires var start := World(Store(map[], map[], 0), 0, []);
             ValidRun(start, tenant, events) && Enabled(After(start, tenant, events), tenant, Poll(list))
    ensures var w := After(World(Store(map[], map[], 0), 0, []), tenant, events);
            var w' := Apply(w, tenant, Poll(list));
            && (forall j, k | 0 <= j < k < |w'.seen| :: w'.seen[j] < w'.seen[k])
            && w.seen <= w'.seen
            && (forall id | id in w.store.items && w.store.items[id].tenant == tenant ::
                  w.store.items[id].seqNo in w'.seen)
  {
    var start := World(Store(map[], map[], 0), 0, []);
    assert Synced(start, tenant);
    RunSynced(start, tenant, events);
    PollSynced(After(start, tenant, events), tenant, list);
  }

  /** A listing is determined by the store: there is only one. */
  lemma ListingUnique(s: Store, tenant: Name, since: nat, a: seq<Name>, b: seq<Name>)
    requires IsListing(s, tenant, since, a) && IsListing(s, tenant, since, b)
    ensures a == b
  {
    SameLists(s, a, b);
  }

  ghost predicate Ascending(s: Store, a: seq<Name>) {
    forall j, k | 0 <= j < k < |a| :: a[j] in s.items && a[k] in s.items && s.items[a[j]].seqNo < s.items[a[k]].seqNo
  }

  lemma {:induction false} SameLists(s: Store, a: seq<Name>, b: seq<Name>)
    requires Ascending(s, a) && Ascending(s, b) && forall id :: id in a <==> id in b
    ensures a == b
    decreases |a|
  {
    if a == [] {
      if b != [] {
        HasMember(b);
      }
    } else {
      assert a[0] in b;
      var k :| 0 <= k < |b| && b[k] == a[0];
      assert b[0] in a;
      var j :| 0 <= j < |a| && a[j] == b[0];
      assert a[0] == b[0];
      forall id
        ensures id in a[1..] <==> id in b[1..]
      {
        TailMember(s, a, id);
        TailMember(s, b, id);
      }
      SameLists(s, a[1..], b[1..]);
    }
  }

  lemma HasMember(b: seq<Name>)
    requires b != []
    ensures exists id :: id in b
  {
    assert b[0] in b;
  }

  lemma TailMember(s: Store, a: seq<Name>, id: Name)
    requires a != [] && Ascending(s, a)
    ensures id in a[1..] <==> id in a && id != a[0]
  {
    if id in a && id != a[0] {
      var j :| 0 <= j < |a| && a[j] == id;
      assert a[1..][j - 1] == id;
    }
  }
}
