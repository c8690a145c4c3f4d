/**
 * Stale-while-revalidate caching with an LRU bound and shared in-flight fetches
 * (engine-bridge/src/chain-state-cache.ts).
 *
 * Three layers: `Store` is the insertion-ordered Map with the primitive operations the code
 * applies to it; `Reference` is a least-recently-used cache with explicit timestamps that the
 * Map refines; `Session` is the scheduler's view, in which any number of callers, fetches and
 * background revalidations interleave at their awaits.
 */
module ChainStateCaching {
  import opened Wrappers

  type Key = string
  type Data = string
  type FetchId = nat

  datatype Item = Item(data: Data, updatedAt: int, isRevalidating: bool)

  /** A JavaScript Map: the entries, and their keys in insertion order. */
  datatype Store = Store(order: seq<Key>, items: map<Key, Item>) {
    ghost predicate Valid() {
      && (forall i, j :: 0 <= i < j < |order| ==> order[i] != order[j])
      && (forall k :: k in order <==> k in items)
    }
  }

  function Without(order: seq<Key>, k: Key): seq<Key> {
    if order == [] then []
    else if order[0] == k then order[1..]
    else [order[0]] + Without(order[1..], k)
  }

  // ----- the primitive operations of the Map -----

  /** `touch`: the entry moves to the end. */
  function Touch(s: Store, k: Key): Store {
    if k in s.items then s.(order := Without(s.order, k) + [k]) else s
  }

  /** `cache.set`: a present key keeps its position, a new one goes to the end. */
  function Put(s: Store, k: Key, item: Item): Store {
    Store(if k in s.items then s.order else s.order + [k], s.items[k := item])
  }

  function Delete(s: Store, k: Key): Store {
    Store(Without(s.order, k), s.items - {k})
  }

  /** `evictIfNeeded`: drop from the front while there are too many. */
  function Evict(s: Store, max: Option<nat>): Store
    decreases |s.order|
  {
    if max.None? || |s.order| <= max.value then s
    else Evict(Store(s.order[1..], s.items - {s.order[0]}), max)
  }

  datatype StoreOp =
    | Use(key: Key)
    | Write(key: Key, item: Item)
    | Flag(key: Key, isRevalidating: bool)
    | Drop(key: Key)
    | DropAll

  function Do(s: Store, max: Option<nat>, op: StoreOp): Store {
    match op
    case Use(k) => Touch(s, k)
    case Write(k, item) => Evict(Put(s, k, item), max)
    case Flag(k, on) => if k in s.items then s.(items := s.items[k := s.items[k].(isRevalidating := on)]) else s
    case Drop(k) => Delete(s, k)
    case DropAll => Store([], map[])
  }

  function DoAll(s: Store, max: Option<nat>, ops: seq<StoreOp>): Store
    decreases |ops|
  {
    if ops == [] then s else Do(DoAll(s, max, ops[..|ops| - 1]), max, ops[|ops| - 1])
  }

  // ----- the reference: least recently used, by timestamp -----

  datatype Stamped = Stamped(item: Item, lastUse: nat)

  datatype Reference = Reference(entries: map<Key, Stamped>, clock: nat)

  ghost predicate IsOldest(entries: map<Key, Stamped>, k: Key) {
    k in entries && forall l :: l in entries ==> entries[k].lastUse <= entries[l].lastUse
  }

  lemma {:induction false} OldestExists(entries: map<Key, Stamped>)
    requires entries != map[]
    ensures exists k :: IsOldest(entries, k)
    decreases |entries|
  {
    var k :| k in entries;
    var rest := entries - {k};
    assert entries.Keys == rest.Keys + {k};
    if rest == map[] {
      assert IsOldest(entries, k);
    } else {
      OldestExists(rest);
      var l :| IsOldest(rest, l);
      assert IsOldest(entries, if entries[k].lastUse <= entries[l].lastUse then k else l);
    }
  }

  ghost function Oldest(entries: map<Key, Stamped>): Key
    requires entries != map[]
  {
    OldestExists(entries);
    var k :| IsOldest(entries, k);
    k
  }

  /** One entry over the bound costs the least recently used one. */
  ghost function RefEvict(r: Reference, max: Option<nat>): Reference
    decreases |r.entries|
  {
    if max.None? || |r.entries| <= max.value then r
    else RefEvict(r.(entries := r.entries - {Oldest(r.entries)}), max)
  }

  /** Reading an entry and storing a key that was absent are uses; overwriting and flagging are not. */
  ghost function RefDo(r: Reference, max: Option<nat>, op: StoreOp): Reference {
    match op
    case Use(k) =>
      if k in r.entries then
        Reference(r.entries[k := r.entries[k].(lastUse := r.clock)], r.clock + 1)
      else r
    case Write(k, item) =>
      if k in r.entries then
        RefEvict(r.(entries := r.entries[k := r.entries[k].(item := item)]), max)
      else
        RefEvict(Reference(r.entries[k := Stamped(item, r.clock)], r.clock + 1), max)
    case Flag(k, on) =>
      if k in r.entries then
        r.(entries := r.entries[k := r.entries[k].(item := r.entries[k].item.(isRevalidating := on))])
      else r
    case Drop(k) => r.(entries := r.entries - {k})
    case DropAll => r.(entries := map[])
  }

  ghost function RefDoAll(r: Reference, max: Option<nat>, ops: seq<StoreOp>): Reference
    decreases |ops|
  {
    if ops == [] then r else RefDo(RefDoAll(r, max, ops[..|ops| - 1]), max, ops[|ops| - 1])
  }

  // ----- refinement -----

  ghost predicate SortedByUse(order: seq<Key>, entries: map<Key, Stamped>) {
    && (forall i :: 0 <= i < |order| ==> order[i] in entries)
    && (forall i, j :: 0 <= i < j < |order| ==> entries[order[i]].lastUse < entries[order[j]].lastUse)
  }

  /** Same entries, and the Map's order is the order of last use. */
  ghost predicate Refines(s: Store, r: Reference) {
    && s.Valid()
    && r.entries.Keys == s.items.Keys
    && (forall k :: k in s.items ==> s.items[k] == r.entries[k].item)
    && (forall k :: k in r.entries ==> r.entries[k].lastUse < r.clock)
    && SortedByUse(s.order, r.entries)
  }

  lemma SkippingLater(order: seq<Key>, p: nat)
    requires 0 < p <= |order|
    ensures order == [order[0]] + order[1..]
    ensures p < |order| ==> order[..p] + order[p + 1..] == [order[0]] + (order[1..][..p - 1] + order[1..][p..])
  {
  }

  /** Removing a key keeps the rest in place. */
  lemma {:induction false} WithoutAt(order: seq<Key>, k: Key, p: nat)
    requires p <= |order| && (forall i :: 0 <= i < p ==> order[i] != k) && (p < |order| ==> order[p] == k)
    ensures Without(order, k) == if p < |order| then order[..p] + order[p + 1..] else order
  {
    if p > 0 {
      WithoutAt(order[1..], k, p - 1);
      assert Without(order, k) == [order[0]] + Without(order[1..], k);
      SkippingLater(order, p);
    }
  }

  /** Where a key stands; the length of the order if it does not. */
  function PlaceOf(order: seq<Key>, k: Key): (p: nat)
    ensures p <= |order| && (p < |order| ==> order[p] == k)
    ensures forall i :: 0 <= i < p ==> order[i] != k
  {
    if order == [] || order[0] == k then 0 else 1 + PlaceOf(order[1..], k)
  }

  lemma SkippingKeepsSorted(order: seq<Key>, p: nat, entries: map<Key, Stamped>)
    requires SortedByUse(order, entries) && p < |order|
    ensures SortedByUse(order[..p] + order[p + 1..], entries)
  {
    var rest := order[..p] + order[p + 1..];
    assert forall i :: 0 <= i < |rest| ==> rest[i] == order[if i < p then i else i + 1];
  }

  lemma SkippingDropsOne(order: seq<Key>, p: nat)
    requires p < |order| && forall i, j :: 0 <= i < j < |order| ==> order[i] != order[j]
    ensures forall l :: l in order[..p] + order[p + 1..] <==> l in order && l != order[p]
  {
    var rest := order[..p] + order[p + 1..];
    forall l | l in order && l != order[p] ensures l in rest {
      var i :| 0 <= i < |order| && order[i] == l;
      assert rest[if i < p then i else i - 1] == l;
    }
  }

  lemma WithoutIsSorted(order: seq<Key>, k: Key, entries: map<Key, Stamped>)
    requires SortedByUse(order, entries)
    ensures SortedByUse(Without(order, k), entries)
    ensures forall l :: l in Without(order, k) <==> l in order && l != k
  {
    var p := PlaceOf(order, k);
    WithoutAt(order, k, p);
    if p < |order| {
      SkippingKeepsSorted(order, p, entries);
      SortedIsDistinct(order, entries);
      SkippingDropsOne(order, p);
    }
  }

  lemma SortedIsDistinct(order: seq<Key>, entries: map<Key, Stamped>)
    requires SortedByUse(order, entries)
    ensures forall i, j :: 0 <= i < j < |order| ==> order[i] != order[j]
  {
  }

  lemma FrontIsOldest(s: Store, r: Reference)
    requires Refines(s, r) && |s.order| > 0
    ensures r.entries != map[] && Oldest(r.entries) == s.order[0]
  {
  }

  lemma OrderCounts(s: Store)
    requires s.Valid()
    ensures |s.order| == |s.items|
  {
    DistinctCounts(s.order, s.items.Keys);
    assert |s.items| == |s.items.Keys|;
  }

  lemma {:induction false} DistinctCounts(order: seq<Key>, keys: set<Key>)
    requires forall i, j :: 0 <= i < j < |order| ==> order[i] != order[j]
    requires forall k :: k in order <==> k in keys
    ensures |order| == |keys|
    decreases |order|
  {
    if order == [] {
      assert keys == {};
    } else {
      assert forall k :: k in order <==> k == order[0] || k in order[1..];
      DistinctCounts(order[1..], keys - {order[0]});
    }
  }

  lemma DropFrontRefines(s: Store, r: Reference)
    requires Refines(s, r) && |s.order| > 0
    ensures Refines(Store(s.order[1..], s.items - {s.order[0]}), r.(entries := r.entries - {s.order[0]}))
  {
  }

  lemma SameCount(s: Store, r: Reference)
    requires Refines(s, r)
    ensures |s.order| == |r.entries|
  {
    OrderCounts(s);
    assert |s.items| == |s.items.Keys| && |r.entries| == |r.entries.Keys|;
  }

  lemma {:induction false} EvictRefines(s: Store, r: Reference, max: Option<nat>)
    requires Refines(s, r)
    ensures Refines(Evict(s, max), RefEvict(r, max))
    decreases |s.order|
  {
    SameCount(s, r);
    if max.Some? && |s.order| > max.value {
      var s', r' := Store(s.order[1..], s.items - {s.order[0]}), r.(entries := r.entries - {s.order[0]});
      FrontIsOldest(s, r);
      DropFrontRefines(s, r);
      EvictRefines(s', r', max);
      assert Evict(s, max) == Evict(s', max) && RefEvict(r, max) == RefEvict(r', max);
    }
  }

  lemma UseRefines(s: Store, r: Reference, k: Key)
    requires Refines(s, r) && k in s.items
    ensures Refines(Touch(s, k), RefDo(r, None, Use(k)))
  {
    WithoutIsSorted(s.order, k, r.entries);
    var rest, entries := Without(s.order, k), r.entries[k := r.entries[k].(lastUse := r.clock)];
    UsedLastIsSorted(rest, k, r.entries, entries, r.clock);
    MovedRefines(s, r, rest, entries, k);
  }

  lemma MovedRefines(s: Store, r: Reference, rest: seq<Key>, entries: map<Key, Stamped>, k: Key)
    requires Refines(s, r) && k in s.items && SortedByUse(rest + [k], entries)
    requires forall l :: l in rest <==> l in s.order && l != k
    requires entries == r.entries[k := r.entries[k].(lastUse := r.clock)]
    ensures Refines(s.(order := rest + [k]), Reference(entries, r.clock + 1))
  {
    SortedIsDistinct(rest + [k], entries);
    forall l ensures l in rest + [k] <==> l in s.items {
      assert l in rest + [k] <==> l in rest || l == k;
    }
    assert entries.Keys == r.entries.Keys;
  }

  lemma UsedLastIsSorted(rest: seq<Key>, k: Key, entries: map<Key, Stamped>, entries': map<Key, Stamped>, clock: nat)
    requires SortedByUse(rest, entries) && k !in rest
    requires forall l :: l in entries ==> entries[l].lastUse < clock
    requires k in entries' && entries'[k].lastUse == clock
    requires forall l :: l in rest ==> l in entries' && entries'[l] == entries[l]
    ensures SortedByUse(rest + [k], entries')
  {
  }

  lemma OverwriteRefines(s: Store, r: Reference, k: Key, item: Item)
    requires Refines(s, r) && k in s.items
    ensures Refines(s.(items := s.items[k := item]), r.(entries := r.entries[k := r.entries[k].(item := item)]))
  {
  }

  lemma InsertRefines(s: Store, r: Reference, k: Key, item: Item)
    requires Refines(s, r) && k !in s.items
    ensures Refines(Store(s.order + [k], s.items[k := item]),
                    Reference(r.entries[k := Stamped(item, r.clock)], r.clock + 1))
  {
  }

  lemma DropRefines(s: Store, r: Reference, k: Key)
    requires Refines(s, r)
    ensures Refines(Delete(s, k), RefDo(r, None, Drop(k)))
  {
    WithoutIsSorted(s.order, k, r.entries);
    var rest := Without(s.order, k);
    assert forall i :: 0 <= i < |rest| ==> rest[i] in rest;
  }

  /** `cache.set` before any eviction. */
  lemma PutRefines(s: Store, r: Reference, k: Key, item: Item)
    requires Refines(s, r)
    ensures Refines(Put(s, k, item), RefDo(r, None, Write(k, item)))
  {
    if k in s.items {
      OverwriteRefines(s, r, k, item);
    } else {
      InsertRefines(s, r, k, item);
    }
  }

  lemma WriteRefines(s: Store, r: Reference, max: Option<nat>, k: Key, item: Item)
    requires Refines(s, r)
    ensures Refines(Do(s, max, Write(k, item)), RefDo(r, max, Write(k, item)))
  {
    PutRefines(s, r, k, item);
    EvictRefines(Put(s, k, item), RefDo(r, None, Write(k, item)), max);
  }

  lemma DoRefines(s: Store, r: Reference, max: Option<nat>, op: StoreOp)
    requires Refines(s, r)
    ensures Refines(Do(s, max, op), RefDo(r, max, op))
  {
    match op
    case Use(k) => if k in s.items { UseRefines(s, r, k); }
    case Write(k, item) => WriteRefines(s, r, max, k, item);
    case Flag(k, on) => if k in s.items { OverwriteRefines(s, r, k, s.items[k].(isRevalidating := on)); }
    case Drop(k) => DropRefines(s, r, k);
    case DropAll =>
  }

  /** Over every sequence of operations the Map is the timestamped LRU cache. */
  lemma {:induction false} MapRefinesLru(max: Option<nat>, ops: seq<StoreOp>)
    ensures Refines(DoAll(Store([], map[]), max, ops), RefDoAll(Reference(map[], 0), max, ops))
    decreases |ops|
  {
    if ops != [] {
      var past := ops[..|ops| - 1];
      MapRefinesLru(max, past);
      DoRefines(DoAll(Store([], map[]), max, past), RefDoAll(Reference(map[], 0), max, past), max, ops[|ops| - 1]);
    }
  }

  ghost predicate Bounded(s: Store, max: Option<nat>) {
    max.Some? ==> |s.order| <= max.value
  }

  lemma {:induction false} EvictBounds(s: Store, max: Option<nat>)
    ensures Bounded(Evict(s, max), max)
    decreases |s.order|
  {
    if max.Some? && |s.order| > max.value {
      EvictBounds(Store(s.order[1..], s.items - {s.order[0]}), max);
    }
  }

  lemma {:induction false} WithoutShortens(order: seq<Key>, k: Key)
    ensures |Without(order, k)| == if k in order then |order| - 1 else |order|
  {
    if order != [] && order[0] != k {
      WithoutShortens(order[1..], k);
    }
  }

  lemma DoKeepsBound(s: Store, max: Option<nat>, op: StoreOp)
    requires s.Valid() && Bounded(s, max)
    ensures Bounded(Do(s, max, op), max)
  {
    match op
    case Use(k) => WithoutShortens(s.order, k);
    case Write(k, item) => EvictBounds(Put(s, k, item), max);
    case Drop(k) => WithoutShortens(s.order, k);
    case _ =>
  }

  /**
   * With room for at least one entry, a write costs at most one other entry: the least recently
   * used one, and only when a new key does not fit. The key just written stays.
   */
  lemma WriteEvictsOnlyTheOldest(s: Store, r: Reference, max: Option<nat>, k: Key, item: Item)
    requires Refines(s, r) && Bounded(s, max) && max != Some(0)
    ensures var v := Do(s, max, Write(k, item));
            && k in v.items && v.items[k] == item
            && if k !in s.items && max == Some(|s.items|) then
                 r.entries != map[] && v.items == s.items[k := item] - {Oldest(r.entries)} && Oldest(r.entries) != k
               else
                 v.items == s.items[k := item] && (k in s.items ==> v.order == s.order)
  {
    OrderCounts(s);
    if k !in s.items && max == Some(|s.items|) {
      FrontIsOldest(s, r);
      assert s.order[0] in s.order;
      var p := Put(s, k, item);
      assert Evict(p, max) == Store(p.order[1..], p.items - {p.order[0]});
    }
  }

  // ----- callers, fetches and revalidations -----

  datatype Kind = Miss | Revalidation

  datatype Progress = Running | Fulfilled(data: Data) | Rejected

  datatype Fetch = Fetch(key: Key, kind: Kind, progress: Progress)

  /**
   * What `getSwr` hands its caller: data at once, the promise of a fetch, or what the fetcher threw instead of
   * starting one.
   */
  datatype Reply = Got(data: Data) | Awaits(fetch: FetchId) | Refused

  datatype Caller = Caller(key: Key, reply: Reply)

  predicate Stale(item: Item, staleTimeMs: int, now: int) {
    now - item.updatedAt > staleTimeMs
  }

  /** What a call of `getSwr` does to the Map before it awaits or returns; its fetcher may throw at once. */
  function GetOps(s: Store, k: Key, staleTimeMs: int, now: int, throws: bool): seq<StoreOp> {
    if k !in s.items then []
    else if Revalidates(s, k, staleTimeMs, now) && !throws then [Use(k), Flag(k, true)]
    else [Use(k)]
  }

  predicate Revalidates(s: Store, k: Key, staleTimeMs: int, now: int) {
    k in s.items && Stale(s.items[k], staleTimeMs, now) && !s.items[k].isRevalidating
  }

  /** The fetch a call of `getSwr` starts, if any. */
  function GetStarts(s: Store, inflight: map<Key, FetchId>, k: Key, staleTimeMs: int, now: int, throws: bool)
    : Option<Kind>
  {
    if throws then None
    else if k in s.items then
      if Revalidates(s, k, staleTimeMs, now) then Some(Revalidation) else None
    else if k in inflight then None
    else Some(Miss)
  }

  function GetReply(s: Store, inflight: map<Key, FetchId>, k: Key, next: FetchId, throws: bool): Reply {
    if k in s.items then Got(s.items[k].data)
    else if k in inflight then Awaits(inflight[k])
    else if throws then Refused
    else Awaits(next)
  }

  /** What the end of a fetch does to the Map. */
  function SettleOps(k: Key, kind: Kind, now: int, progress: Progress): seq<StoreOp> {
    match (kind, progress)
    case (_, Fulfilled(data)) => [Write(k, Item(data, now, false))]
    case (Revalidation, Rejected) => [Flag(k, false)]
    case _ => []
  }

  class ChainStateCache {
    var order: seq<Key>
    var items: map<Key, Item>
    var inflight: map<Key, FetchId>
    const maxEntries: Option<nat>

    function Map(): Store
      reads this
    {
      Store(order, items)
    }

    constructor (maxEntries: Option<nat>)
      ensures Map() == Store([], map[]) && inflight == map[] && this.maxEntries == maxEntries
    {
      order, items, inflight := [], map[], map[];
      this.maxEntries := maxEntries;
    }

    method TouchEntry(k: Key)
      modifies this`order
      ensures Map() == Touch(old(Map()), k)
    {
      if k in items {
        order := Without(order, k) + [k];
      }
    }

    method EvictIfNeeded()
      modifies this`order, this`items
      ensures Map() == Evict(old(Map()), maxEntries)
    {
      while maxEntries.Some? && |order| > maxEntries.value
        invariant Evict(Map(), maxEntries) == Evict(old(Map()), maxEntries)
        decreases |order|
      {
        var lru := order[0];
        order, items := order[1..], items - {lru};
      }
    }

    method SetEntry(k: Key, item: Item)
      modifies this`order, this`items
      ensures Map() == Put(old(Map()), k, item)
      ensures order == (if k in old(items) then old(order) else old(order) + [k]) && items == old(items)[k := item]
    {
      if k !in items {
        order := order + [k];
      }
      items := items[k := item];
    }

    /** `getSwr` up to its first await; `next` is the promise it may create. */
    method GetSwr(k: Key, staleTimeMs: int, now: int, next: FetchId, throws: bool)
      returns (reply: Reply, started: Option<Kind>)
      modifies this
      ensures Map() == DoAll(old(Map()), maxEntries, GetOps(old(Map()), k, staleTimeMs, now, throws))
      ensures reply == GetReply(old(Map()), old(inflight), k, next, throws)
      ensures started == GetStarts(old(Map()), old(inflight), k, staleTimeMs, now, throws)
      ensures inflight == if started == Some(Miss) then old(inflight)[k := next] else old(inflight)
      ensures k in old(items)
              ==> var item := old(items)[k];
                  var revalidates := now - item.updatedAt > staleTimeMs && !item.isRevalidating && !throws;
                  && order == Without(old(order), k) + [k]
                  && items == old(items)[k := item.(isRevalidating := item.isRevalidating || revalidates)]
                  && reply == Got(item.data) && started == (if revalidates then Some(Revalidation) else None)
      ensures k !in old(items) ==> order == old(order) && items == old(items)
      ensures k !in old(items) && k in old(inflight) ==> reply == Awaits(old(inflight)[k]) && started == None
      ensures k !in old(items) && k !in old(inflight)
              ==> if throws then reply == Refused && started == None else reply == Awaits(next) && started == Some(Miss)
    {
      ghost var before := Map();
      DoAllOfTwo(before, maxEntries, Use(k), Flag(k, true));
      if k in items {
        var item := items[k];
        TouchEntry(k);
        if now - item.updatedAt > staleTimeMs && !item.isRevalidating {
          items := items[k := item.(isRevalidating := true)];
          if throws {
            items := items[k := item.(isRevalidating := false)];
            return Got(item.data), None;
          }
          return Got(item.data), Some(Revalidation);
        }
        return Got(item.data), None;
      }
      if k in inflight {
        return Awaits(inflight[k]), None;
      }
      if throws {
        return Refused, None;
      }
      inflight := inflight[k := next];
      return Awaits(next), Some(Miss);
    }

    /** The continuation of a fetch, whichever way it ended. */
    method SettleFetch(k: Key, kind: Kind, now: int, progress: Progress)
      requires !progress.Running?
      modifies this
      ensures Map() == DoAll(old(Map()), maxEntries, SettleOps(k, kind, now, progress))
      ensures inflight == if kind.Miss? then old(inflight) - {k} else old(inflight)
      ensures progress.Rejected?
              ==> && order == old(order)
                  && items == if kind.Revalidation? && k in old(items)
                              then old(items)[k := old(items)[k].(isRevalidating := false)] else old(items)
    {
      DoAllOfOne(Map(), maxEntries, SettleOps(k, kind, now, progress));
      if progress.Fulfilled? {
        SetEntry(k, Item(progress.data, now, false));
        EvictIfNeeded();
      } else if kind.Revalidation? && k in items {
        items := items[k := items[k].(isRevalidating := false)];
      }
      if kind.Miss? {
        inflight := inflight - {k};
      }
    }

    method Invalidate(k: Key)
      modifies this`order, this`items
      ensures Map() == Delete(old(Map()), k) && inflight == old(inflight)
    {
      order, items := Without(order, k), items - {k};
    }

    method Clear()
      modifies this`order, this`items
      ensures Map() == Store([], map[]) && inflight == old(inflight)
    {
      order, items := [], map[];
    }
  }

  lemma DoAllOfOne(s: Store, max: Option<nat>, ops: seq<StoreOp>)
    requires |ops| <= 1
    ensures DoAll(s, max, ops) == if ops == [] then s else Do(s, max, ops[0])
  {
  }

  lemma DoAllOfTwo(s: Store, max: Option<nat>, op: StoreOp, op': StoreOp)
    ensures DoAll(s, max, [op]) == Do(s, max, op)
    ensures DoAll(s, max, [op, op']) == Do(Do(s, max, op), max, op')
  {
  }

  // ----- the scheduler's view -----

  /**
   * `latest` and `setter` are history: which fetch last stored a key, and which revalidation
   * last raised a key's flag.
   */
  datatype Session = Session(
    store: Store, inflight: map<Key, FetchId>, fetches: seq<Fetch>, callers: seq<Caller>,
    latest: map<Key, FetchId>, setter: map<Key, FetchId>)

  datatype Step =
    | Get(key: Key, staleTimeMs: int, now: int, throws: bool)
    | Settle(fetch: FetchId, now: int, progress: Progress)
    | InvalidateKey(key: Key)
    | ClearAll

  datatype Run = Start | Then(past: Run, step: Step)

  const FRESH := Session(Store([], map[]), map[], [], [], map[], map[])

  predicate Enabled(s: Session, step: Step) {
    step.Settle? ==>
      step.fetch < |s.fetches| && s.fetches[step.fetch].progress.Running? && !step.progress.Running?
  }

  function OpsOf(s: Session, step: Step): seq<StoreOp>
    requires Enabled(s, step)
  {
    match step
    case Get(k, staleTimeMs, now, throws) => GetOps(s.store, k, staleTimeMs, now, throws)
    case Settle(f, now, progress) => SettleOps(s.fetches[f].key, s.fetches[f].kind, now, progress)
    case InvalidateKey(k) => [Drop(k)]
    case ClearAll => [DropAll]
  }

  function Next(s: Session, max: Option<nat>, step: Step): Session
    requires Enabled(s, step)
  {
    var t := s.(store := DoAll(s.store, max, OpsOf(s, step)));
    match step
    case Get(k, staleTimeMs, now, throws) =>
      var id := |s.fetches|;
      var started := GetStarts(s.store, s.inflight, k, staleTimeMs, now, throws);
      t.(callers := s.callers + [Caller(k, GetReply(s.store, s.inflight, k, id, throws))],
         fetches := if started.Some? then s.fetches + [Fetch(k, started.value, Running)] else s.fetches,
         inflight := if started == Some(Miss) then s.inflight[k := id] else s.inflight,
         setter := if started == Some(Revalidation) then s.setter[k := id] else s.setter)
    case Settle(f, now, progress) =>
      var fetch := s.fetches[f];
      t.(fetches := s.fetches[f := fetch.(progress := progress)],
         inflight := if fetch.kind.Miss? then s.inflight - {fetch.key} else s.inflight,
         latest := if progress.Fulfilled? then s.latest[fetch.key := f] else s.latest)
    case _ => t
  }

  ghost predicate Legal(run: Run, max: Option<nat>)
    decreases run, 0
  {
    run.Then? ==> Legal(run.past, max) && Enabled(After(run.past, max), run.step)
  }

  ghost function After(run: Run, max: Option<nat>): Session
    requires Legal(run, max)
    decreases run, 1
  {
    match run
    case Start => FRESH
    case Then(past, step) => Next(After(past, max), max, step)
  }

  // ----- what an operation may do to one key's entry -----

  lemma {:induction false} EvictKeepsOnly(s: Store, max: Option<nat>, k: Key)
    ensures k in Evict(s, max).items ==> k in s.items && Evict(s, max).items[k] == s.items[k]
    decreases |s.order|
  {
    if max.Some? && |s.order| > max.value {
      EvictKeepsOnly(Store(s.order[1..], s.items - {s.order[0]}), max, k);
    }
  }

  function Reflagged(item: Item, changed: bool, flag: bool): Item {
    if changed then item.(isRevalidating := flag) else item
  }

  /** After an operation an entry is the old one, the one just written, or the old one with its flag changed. */
  lemma EntryAfter(s: Store, max: Option<nat>, op: StoreOp, k: Key)
    ensures var v := Do(s, max, op);
            k in v.items ==>
              if op.Write? && op.key == k then v.items[k] == op.item
              else k in s.items
                   && v.items[k] == Reflagged(s.items[k], op.Flag? && op.key == k, op.Flag? && op.isRevalidating)
  {
    if op.Write? {
      EvictKeepsOnly(Put(s, op.key, op.item), max, k);
    }
  }

  // ----- one outstanding fetch per key, nobody stuck stale, and where data comes from -----

  ghost predicate Outstanding(s: Session, k: Key, f: FetchId) {
    f < |s.fetches| && s.fetches[f] == Fetch(k, Miss, Running)
  }

  /** The in-flight map lists exactly the running miss-fetches, at most one to a key. */
  ghost predicate InflightExact(s: Session) {
    && (forall k :: k in s.inflight ==> Outstanding(s, k, s.inflight[k]))
    && (forall k, f: nat :: Outstanding(s, k, f) ==> k in s.inflight && s.inflight[k] == f)
  }

  /** An entry marked as being revalidated is: the revalidation that marked it still runs. */
  ghost predicate NobodyStuckStale(s: Session) {
    forall k :: k in s.store.items && s.store.items[k].isRevalidating ==>
      k in s.setter && s.setter[k] < |s.fetches| && s.fetches[s.setter[k]] == Fetch(k, Revalidation, Running)
  }

  ghost predicate Delivered(s: Session, k: Key, data: Data, f: FetchId) {
    f < |s.fetches| && s.fetches[f].key == k && s.fetches[f].progress == Fulfilled(data)
  }

  /** What is stored under a key is what the last successful fetch of that key brought. */
  ghost predicate StoresLatest(s: Session) {
    && (forall k :: k in s.store.items ==> k in s.latest)
    && (forall k :: k in s.latest ==> s.latest[k] < |s.fetches| && s.fetches[s.latest[k]].key == k)
    && (forall k :: k in s.store.items ==> Delivered(s, k, s.store.items[k].data, s.latest[k]))
  }

  /** Every caller has data some fetch of its own key brought, or awaits a miss-fetch of that key. */
  ghost predicate RepliesSound(s: Session) {
    forall c :: 0 <= c < |s.callers| ==>
      match s.callers[c].reply
      case Got(data) => exists f: nat :: Delivered(s, s.callers[c].key, data, f)
      case Awaits(f) => f < |s.fetches| && s.fetches[f].key == s.callers[c].key && s.fetches[f].kind.Miss?
      case Refused => true
  }

  ghost predicate Sound(s: Session) {
    InflightExact(s) && NobodyStuckStale(s) && StoresLatest(s) && RepliesSound(s)
  }

  /** How the entry of a key can differ after a step. */
  lemma EntryAfterStep(s: Session, max: Option<nat>, step: Step, k: Key)
    requires Enabled(s, step) && k in Next(s, max, step).store.items
    ensures var item := Next(s, max, step).store.items[k];
            match step
            case Get(l, staleTimeMs, now, throws) =>
              k in s.store.items
              && item == Reflagged(s.store.items[k], l == k && Revalidates(s.store, k, staleTimeMs, now) && !throws, true)
            case Settle(f, now, progress) =>
              if s.fetches[f].key != k then k in s.store.items && item == s.store.items[k]
              else if progress.Fulfilled? then item == Item(progress.data, now, false)
              else k in s.store.items && item == Reflagged(s.store.items[k], s.fetches[f].kind.Revalidation?, false)
            case _ => k in s.store.items && item == s.store.items[k]
  {
    var ops := OpsOf(s, step);
    if |ops| == 2 {
      DoAllOfTwo(s.store, max, ops[0], ops[1]);
      assert ops == [ops[0], ops[1]];
      EntryAfter(s.store, max, ops[0], k);
      EntryAfter(Do(s.store, max, ops[0]), max, ops[1], k);
    } else {
      DoAllOfOne(s.store, max, ops);
      if ops != [] {
        EntryAfter(s.store, max, ops[0], k);
      }
    }
  }

  lemma StepKeepsInflight(s: Session, max: Option<nat>, step: Step)
    requires InflightExact(s) && Enabled(s, step)
    ensures InflightExact(Next(s, max, step))
  {
    var v := Next(s, max, step);
    forall k, f: nat | Outstanding(v, k, f) ensures k in v.inflight && v.inflight[k] == f {
      if f < |s.fetches| {
        assert Outstanding(s, k, f);
        if step.Settle? && s.fetches[step.fetch].kind.Miss? {
          assert Outstanding(s, s.fetches[step.fetch].key, step.fetch);
        }
      }
    }
    forall k | k in v.inflight ensures Outstanding(v, k, v.inflight[k]) {
      if k in s.inflight && v.inflight[k] == s.inflight[k] {
        assert Outstanding(s, k, s.inflight[k]);
      }
    }
  }

  lemma StepKeepsFlags(s: Session, max: Option<nat>, step: Step)
    requires NobodyStuckStale(s) && Enabled(s, step)
    ensures NobodyStuckStale(Next(s, max, step))
  {
    var v := Next(s, max, step);
    forall k | k in v.store.items && v.store.items[k].isRevalidating
      ensures k in v.setter && v.setter[k] < |v.fetches| && v.fetches[v.setter[k]] == Fetch(k, Revalidation, Running)
    {
      EntryAfterStep(s, max, step, k);
    }
  }

  lemma StepKeepsLatest(s: Session, max: Option<nat>, step: Step)
    requires StoresLatest(s) && Enabled(s, step)
    ensures StoresLatest(Next(s, max, step))
  {
    var v := Next(s, max, step);
    forall k | k in v.store.items ensures k in v.latest && Delivered(v, k, v.store.items[k].data, v.latest[k]) {
      EntryAfterStep(s, max, step, k);
      if k in s.store.items {
        assert Delivered(s, k, s.store.items[k].data, s.latest[k]);
      }
    }
  }

  /** What has been delivered stays delivered. */
  lemma DeliveredStays(s: Session, max: Option<nat>, step: Step, k: Key, data: Data, f: FetchId)
    requires Enabled(s, step) && Delivered(s, k, data, f)
    ensures Delivered(Next(s, max, step), k, data, f)
  {
  }

  lemma StepKeepsReplies(s: Session, max: Option<nat>, step: Step)
    requires Sound(s) && Enabled(s, step)
    ensures RepliesSound(Next(s, max, step))
  {
    var v := Next(s, max, step);
    forall c | 0 <= c < |v.callers| && v.callers[c].reply.Got?
      ensures exists f: nat :: Delivered(v, v.callers[c].key, v.callers[c].reply.data, f)
    {
      var k, data := v.callers[c].key, v.callers[c].reply.data;
      var f: nat;
      if c < |s.callers| {
        f :| Delivered(s, k, data, f);
      } else {
        f := s.latest[k];
      }
      DeliveredStays(s, max, step, k, data, f);
    }
    forall c | 0 <= c < |v.callers| && v.callers[c].reply.Awaits?
      ensures v.callers[c].reply.fetch < |v.fetches|
      ensures v.fetches[v.callers[c].reply.fetch].key == v.callers[c].key
              && v.fetches[v.callers[c].reply.fetch].kind.Miss?
    {
      if c == |s.callers| && v.callers[c].reply.fetch < |s.fetches| {
        assert Outstanding(s, step.key, s.inflight[step.key]);
      }
    }
  }

  /**
   * In every run: the in-flight map is exact, so each key has at most one miss-fetch outstanding;
   * a raised flag always has its revalidation running; stored data is what the last successful
   * fetch of its key brought; and every caller's data, present or awaited, is of its own key.
   */
  lemma {:induction false} RunIsSound(run: Run, max: Option<nat>)
    requires Legal(run, max)
    ensures Sound(After(run, max))
  {
    match run
    case Start =>
    case Then(past, step) =>
      RunIsSound(past, max);
      var s := After(past, max);
      StepKeepsInflight(s, max, step);
      StepKeepsFlags(s, max, step);
      StepKeepsLatest(s, max, step);
      StepKeepsReplies(s, max, step);
  }

  /**
   * What a caller meets in any run. On a hit: the stored data at once; one revalidation of the key
   * is started exactly when the entry is older than the stale time, none is marked as running and
   * the fetcher does not throw, and an entry that is older has one running then unless it threw. On
   * a miss: the one outstanding fetch of the key, which it starts only when there is none; if the
   * fetcher throws then, the caller gets that, and nothing is left in flight.
   */
  lemma GetMeets(run: Run, max: Option<nat>, k: Key, staleTimeMs: int, now: int, throws: bool)
    requires Legal(run, max)
    ensures var s := After(run, max);
            var v := Next(s, max, Get(k, staleTimeMs, now, throws));
            var reply := v.callers[|s.callers|].reply;
            if k in s.store.items then
              var item := s.store.items[k];
              && reply == Got(item.data)
              && v.fetches == s.fetches + (if now - item.updatedAt > staleTimeMs && !item.isRevalidating && !throws
                                           then [Fetch(k, Revalidation, Running)] else [])
              && (now - item.updatedAt > staleTimeMs && (item.isRevalidating || !throws) ==>
                    exists f :: 0 <= f < |v.fetches| && v.fetches[f] == Fetch(k, Revalidation, Running))
            else if throws && !(exists f: nat :: Outstanding(s, k, f)) then
              reply == Refused && v.fetches == s.fetches && k !in v.inflight
            else
              && reply.Awaits? && Outstanding(v, k, reply.fetch)
              && (forall f: nat :: Outstanding(v, k, f) ==> f == reply.fetch)
              && v.fetches
                 == s.fetches + (if exists f: nat :: Outstanding(s, k, f) then [] else [Fetch(k, Miss, Running)])
  {
    RunIsSound(run, max);
    var s := After(run, max);
    StepKeepsInflight(s, max, Get(k, staleTimeMs, now, throws));
    if k in s.store.items {
      HitMeets(s, max, k, staleTimeMs, now, throws);
    } else {
      MissMeets(s, max, k, staleTimeMs, now, throws);
    }
  }

  lemma HitMeets(s: Session, max: Option<nat>, k: Key, staleTimeMs: int, now: int, throws: bool)
    requires Sound(s) && k in s.store.items
    ensures var v, item := Next(s, max, Get(k, staleTimeMs, now, throws)), s.store.items[k];
            && v.callers[|s.callers|].reply == Got(item.data)
            && v.fetches == s.fetches + (if now - item.updatedAt > staleTimeMs && !item.isRevalidating && !throws
                                         then [Fetch(k, Revalidation, Running)] else [])
            && (now - item.updatedAt > staleTimeMs && (item.isRevalidating || !throws) ==>
                  exists f :: 0 <= f < |v.fetches| && v.fetches[f] == Fetch(k, Revalidation, Running))
  {
    var v, item := Next(s, max, Get(k, staleTimeMs, now, throws)), s.store.items[k];
    if now - item.updatedAt > staleTimeMs && (item.isRevalidating || !throws) {
      var f := if item.isRevalidating then s.setter[k] else |s.fetches|;
      assert v.fetches[f] == Fetch(k, Revalidation, Running);
    }
  }

  lemma MissMeets(s: Session, max: Option<nat>, k: Key, staleTimeMs: int, now: int, throws: bool)
    requires Sound(s) && k !in s.store.items
    requires InflightExact(Next(s, max, Get(k, staleTimeMs, now, throws)))
    ensures var v := Next(s, max, Get(k, staleTimeMs, now, throws));
            var reply := v.callers[|s.callers|].reply;
            if throws && !(exists f: nat :: Outstanding(s, k, f)) then
              reply == Refused && v.fetches == s.fetches && k !in v.inflight
            else
              && reply.Awaits? && Outstanding(v, k, reply.fetch)
              && (forall f: nat :: Outstanding(v, k, f) ==> f == reply.fetch)
              && v.fetches
                 == s.fetches + (if exists f: nat :: Outstanding(s, k, f) then [] else [Fetch(k, Miss, Running)])
  {
    var v := Next(s, max, Get(k, staleTimeMs, now, throws));
    if k in s.inflight {
      assert Outstanding(s, k, s.inflight[k]);
    } else if !throws {
      assert Outstanding(v, k, |s.fetches|);
    }
  }

  /** A fetch settles once, so all who await it get the same result, or the same error. */
  lemma SettledStays(s: Session, max: Option<nat>, step: Step, f: FetchId)
    requires Enabled(s, step) && f < |s.fetches| && !s.fetches[f].progress.Running?
    ensures f < |Next(s, max, step).fetches| && Next(s, max, step).fetches[f] == s.fetches[f]
  {
  }

  // ----- the bound and the order, in every run -----

  ghost function OpsOfRun(run: Run, max: Option<nat>): seq<StoreOp>
    requires Legal(run, max)
  {
    match run
    case Start => []
    case Then(past, step) => OpsOfRun(past, max) + OpsOf(After(past, max), step)
  }

  lemma {:induction false} DoAllConcat(s: Store, max: Option<nat>, ops: seq<StoreOp>, more: seq<StoreOp>)
    ensures DoAll(s, max, ops + more) == DoAll(DoAll(s, max, ops), max, more)
    decreases |more|
  {
    if more == [] {
      assert ops + more == ops;
    } else {
      DoAllConcat(s, max, ops, more[..|more| - 1]);
      assert (ops + more)[..|ops + more| - 1] == ops + more[..|more| - 1];
    }
  }

  lemma {:induction false} DoAllKeepsBound(max: Option<nat>, ops: seq<StoreOp>)
    ensures Bounded(DoAll(Store([], map[]), max, ops), max)
    decreases |ops|
  {
    if ops != [] {
      var past := DoAll(Store([], map[]), max, ops[..|ops| - 1]);
      DoAllKeepsBound(max, ops[..|ops| - 1]);
      MapRefinesLru(max, ops[..|ops| - 1]);
      DoKeepsBound(past, max, ops[|ops| - 1]);
    }
  }

  /**
   * Under every interleaving the Map holds the entries of the timestamped LRU cache that went
   * through the same operations, in the order of last use, and never more than the bound.
   */
  lemma {:induction false} RunRefinesLru(run: Run, max: Option<nat>)
    requires Legal(run, max)
    ensures After(run, max).store == DoAll(Store([], map[]), max, OpsOfRun(run, max))
    ensures Refines(After(run, max).store, RefDoAll(Reference(map[], 0), max, OpsOfRun(run, max)))
    ensures Bounded(After(run, max).store, max)
  {
    MapRefinesLru(max, OpsOfRun(run, max));
    DoAllKeepsBound(max, OpsOfRun(run, max));
    if run.Then? {
      RunRefinesLru(run.past, max);
      DoAllConcat(Store([], map[]), max, OpsOfRun(run.past, max), OpsOf(After(run.past, max), run.step));
    }
  }
}
