/**
 * What the cache keeps and what it drops, in every run (engine-bridge/src/chain-state-cache.ts). A
 * use of a key is read off the steps of the run: a `getSwr` that finds it, or a result stored for
 * it while it is absent.
 */
module CacheRuns {
  import opened ChainStateCaching
  import opened Wrappers

  predicate Uses(s: Session, step: Step, k: Key)
    requires Enabled(s, step)
  {
    match step
    case Get(l, _, _, _) => l == k && k in s.store.items
    case Settle(f, _, progress) => progress.Fulfilled? && s.fetches[f].key == k && k !in s.store.items
    case _ => false
  }

  function Length(run: Run): nat {
    match run
    case Start => 0
    case Then(past, _) => Length(past) + 1
  }

  /** How many steps in the key was last used. */
  ghost function LastUse(run: Run, max: Option<nat>, k: Key): (n: nat)
    requires Legal(run, max)
    ensures n <= Length(run)
  {
    match run
    case Start => 0
    case Then(past, step) => if Uses(After(past, max), step, k) then Length(run) else LastUse(past, max, k)
  }

  ghost predicate ByLastUse(run: Run, max: Option<nat>, order: seq<Key>)
    requires Legal(run, max)
  {
    forall i, j :: 0 <= i < j < |order| ==> LastUse(run, max, order[i]) < LastUse(run, max, order[j])
  }

  // ----- how a step moves the order -----

  /** Everything but this key, in the order it was. */
  ghost predicate LeavesOut(order: seq<Key>, k: Key, rest: seq<Key>) {
    exists p :: 0 <= p < |order| && order[p] == k && rest == order[..p] + order[p + 1..]
  }

  lemma WithoutLeavesOut(order: seq<Key>, k: Key)
    ensures if k in order then LeavesOut(order, k, Without(order, k)) else Without(order, k) == order
  {
    WithoutAt(order, k, PlaceOf(order, k));
  }

  /** A `getSwr` that finds its key makes it the last one, raises its flag if it revalidates, and changes nothing else. */
  lemma HitIsUsed(s: Session, max: Option<nat>, k: Key, staleTimeMs: int, now: int, throws: bool)
    requires s.store.Valid() && k in s.store.items
    ensures var v, item := Next(s, max, Get(k, staleTimeMs, now, throws)).store, s.store.items[k];
            var revalidates := now - item.updatedAt > staleTimeMs && !item.isRevalidating && !throws;
            && v.order != [] && v.order[|v.order| - 1] == k && LeavesOut(s.store.order, k, v.order[..|v.order| - 1])
            && v.items == s.store.items[k := item.(isRevalidating := item.isRevalidating || revalidates)]
  {
    var ops := GetOps(s.store, k, staleTimeMs, now, throws);
    WithoutLeavesOut(s.store.order, k);
    if |ops| == 2 {
      DoAllOfTwo(s.store, max, ops[0], ops[1]);
      assert ops == [ops[0], ops[1]];
    } else {
      DoAllOfOne(s.store, max, ops);
    }
    assert (Without(s.store.order, k) + [k])[..|Without(s.store.order, k)|] == Without(s.store.order, k);
  }

  lemma MissLeaves(s: Session, max: Option<nat>, k: Key, staleTimeMs: int, now: int, throws: bool)
    requires k !in s.store.items
    ensures Next(s, max, Get(k, staleTimeMs, now, throws)).store == s.store
  {
  }

  /** What exceeds the bound leaves from the front. */
  lemma {:induction false} EvictKeepsTail(s: Store, max: Option<nat>)
    ensures var n := if max.None? || |s.order| <= max.value then 0 else |s.order| - max.value;
            Evict(s, max).order == s.order[n..]
    decreases |s.order|
  {
    if max.Some? && |s.order| > max.value {
      EvictKeepsTail(Store(s.order[1..], s.items - {s.order[0]}), max);
    }
  }

  /** The order after a result is stored: the key keeps its place, or comes last and may push out the first. */
  lemma StoredOrder(s: Session, max: Option<nat>, step: Step)
    requires Enabled(s, step) && step.Settle? && step.progress.Fulfilled?
    requires Bounded(s.store, max)
    ensures var order, k := s.store.order, s.fetches[step.fetch].key;
            var v := Next(s, max, step).store.order;
            if k in s.store.items then v == order
            else if max.None? || |order| < max.value then v == order + [k]
            else v == (order + [k])[1..]
  {
    var k := s.fetches[step.fetch].key;
    var put := Put(s.store, k, Item(step.progress.data, step.now, false));
    DoAllOfOne(s.store, max, OpsOf(s, step));
    EvictKeepsTail(put, max);
  }

  lemma OtherOrder(s: Session, max: Option<nat>, step: Step)
    requires Enabled(s, step) && !(step.Settle? && step.progress.Fulfilled?)
    ensures var order, v := s.store.order, Next(s, max, step).store.order;
            match step
            case Get(k, _, _, _) => v == if k in s.store.items then Without(order, k) + [k] else order
            case Settle(_, _, _) => v == order
            case InvalidateKey(k) => v == Without(order, k)
            case ClearAll => v == []
  {
    var ops := OpsOf(s, step);
    if |ops| == 2 {
      DoAllOfTwo(s.store, max, ops[0], ops[1]);
      assert ops == [ops[0], ops[1]];
    } else {
      DoAllOfOne(s.store, max, ops);
    }
  }

  // ----- the order is that of last use, in every run -----

  lemma UnusedStayByUse(run: Run, max: Option<nat>, order: seq<Key>)
    requires Legal(run, max) && run.Then? && ByLastUse(run.past, max, order)
    requires forall k :: k in order ==> !Uses(After(run.past, max), run.step, k)
    ensures ByLastUse(run, max, order)
  {
    assert forall i :: 0 <= i < |order| ==> order[i] in order;
    assert forall i :: 0 <= i < |order| ==> LastUse(run, max, order[i]) == LastUse(run.past, max, order[i]);
  }

  lemma UsedComesLast(run: Run, max: Option<nat>, rest: seq<Key>, k: Key)
    requires Legal(run, max) && run.Then? && ByLastUse(run.past, max, rest)
    requires forall l :: l in rest ==> !Uses(After(run.past, max), run.step, l)
    requires Uses(After(run.past, max), run.step, k)
    ensures ByLastUse(run, max, rest + [k])
  {
    UnusedStayByUse(run, max, rest);
    assert forall i :: 0 <= i < |rest| ==> rest[i] in rest;
    forall i, j | 0 <= i < j < |rest + [k]|
      ensures LastUse(run, max, (rest + [k])[i]) < LastUse(run, max, (rest + [k])[j])
    {
      if j == |rest| {
        assert LastUse(run, max, rest[i]) == LastUse(run.past, max, rest[i]) <= Length(run.past);
      }
    }
  }

  lemma LeavingOutIsByUse(run: Run, max: Option<nat>, order: seq<Key>, k: Key)
    requires Legal(run, max) && ByLastUse(run, max, order)
    requires forall i, j :: 0 <= i < j < |order| ==> order[i] != order[j]
    ensures ByLastUse(run, max, Without(order, k))
    ensures forall l :: l in Without(order, k) ==> l in order && l != k
  {
    var p := PlaceOf(order, k);
    WithoutAt(order, k, p);
    if p < |order| {
      SkippingIsByUse(run, max, order, p);
      SkippingDropsOne(order, p);
    }
  }

  lemma SkippingIsByUse(run: Run, max: Option<nat>, order: seq<Key>, p: nat)
    requires Legal(run, max) && ByLastUse(run, max, order) && p < |order|
    ensures ByLastUse(run, max, order[..p] + order[p + 1..])
  {
    var rest := order[..p] + order[p + 1..];
    assert forall i :: 0 <= i < |rest| ==> rest[i] == order[if i < p then i else i + 1];
  }

  lemma StoredIsByUse(run: Run, max: Option<nat>)
    requires Legal(run, max) && run.Then? && run.step.Settle? && run.step.progress.Fulfilled?
    requires var s := After(run.past, max).store; s.Valid() && Bounded(s, max) && ByLastUse(run.past, max, s.order)
    ensures ByLastUse(run, max, After(run, max).store.order)
  {
    var s := After(run.past, max);
    var k := s.fetches[run.step.fetch].key;
    StoredOrder(s, max, run.step);
    if k in s.store.items {
      UnusedStayByUse(run, max, s.store.order);
    } else {
      UsedComesLast(run, max, s.store.order, k);
    }
  }

  lemma OtherIsByUse(run: Run, max: Option<nat>)
    requires Legal(run, max) && run.Then? && !(run.step.Settle? && run.step.progress.Fulfilled?)
    requires var s := After(run.past, max).store; s.Valid() && ByLastUse(run.past, max, s.order)
    ensures ByLastUse(run, max, After(run, max).store.order)
  {
    var s := After(run.past, max);
    OtherOrder(s, max, run.step);
    match run.step
    case Get(k, _, _, _) =>
      if k in s.store.items {
        LeavingOutIsByUse(run.past, max, s.store.order, k);
        UsedComesLast(run, max, Without(s.store.order, k), k);
      } else {
        UnusedStayByUse(run, max, s.store.order);
      }
    case InvalidateKey(k) =>
      LeavingOutIsByUse(run.past, max, s.store.order, k);
      UnusedStayByUse(run, max, Without(s.store.order, k));
    case Settle(_, _, _) => UnusedStayByUse(run, max, s.store.order);
    case ClearAll =>
  }

  /** In every run the keys stand in the order of their last use, none of them twice, and within the bound. */
  lemma {:induction false} OrderIsByLastUse(run: Run, max: Option<nat>)
    requires Legal(run, max)
    ensures var s := After(run, max).store; s.Valid() && Bounded(s, max) && ByLastUse(run, max, s.order)
  {
    RunRefinesLru(run, max);
    if run.Then? {
      OrderIsByLastUse(run.past, max);
      if run.step.Settle? && run.step.progress.Fulfilled? {
        StoredIsByUse(run, max);
      } else {
        OtherIsByUse(run, max);
      }
    }
  }

  lemma OthersKeep(s: Session, max: Option<nat>, step: Step, k: Key)
    requires Enabled(s, step) && !(step.Settle? && step.progress.Fulfilled?) && k in s.store.items
    requires step != InvalidateKey(k) && !step.ClearAll?
    ensures k in Next(s, max, step).store.items
  {
    var ops := OpsOf(s, step);
    if |ops| == 2 {
      DoAllOfTwo(s.store, max, ops[0], ops[1]);
      assert ops == [ops[0], ops[1]];
    } else {
      DoAllOfOne(s.store, max, ops);
    }
  }

  /** The only key that a stored result pushes out is the first. */
  lemma FirstIsPushedOut(s: Session, max: Option<nat>, step: Step, k: Key)
    requires Enabled(s, step) && step.Settle? && step.progress.Fulfilled? && Bounded(s.store, max)
    requires s.store.Valid() && Next(s, max, step).store.Valid()
    requires k in s.store.items && k !in Next(s, max, step).store.items
    ensures var order, l := s.store.order, s.fetches[step.fetch].key;
            && l !in s.store.items && max == Some(|order|) && |order| > 0 && order[0] == k
            && Next(s, max, step).store.order == order[1..] + [l]
  {
    var order, l := s.store.order, s.fetches[step.fetch].key;
    StoredOrder(s, max, step);
    AddedStays(order, l, k);
    if order[0] != k {
      OnlyFirstGoes(order, l, k);
    }
    assert (order + [l])[1..] == order[1..] + [l];
  }

  lemma AddedStays(order: seq<Key>, l: Key, k: Key)
    requires k in order
    ensures k in order + [l] && order != []
  {
  }

  lemma OnlyFirstGoes(order: seq<Key>, l: Key, k: Key)
    requires k in order && order[0] != k
    ensures k in (order + [l])[1..]
  {
    var i :| 0 <= i < |order| && order[i] == k;
    assert (order + [l])[1..][i - 1] == k;
  }

  lemma PushedOutIsLeast(run: Run, max: Option<nat>, l: Key)
    requires Legal(run, max) && run.Then? && var order := After(run.past, max).store.order;
               |order| > 0 && ByLastUse(run.past, max, order) && l !in order
               && After(run, max).store.order == order[1..] + [l]
    requires Uses(After(run.past, max), run.step, l)
    requires forall m :: m != l ==> !Uses(After(run.past, max), run.step, m)
    ensures var k := After(run.past, max).store.order[0];
            forall m :: m in After(run, max).store.order ==> LastUse(run, max, k) < LastUse(run, max, m)
  {
    var order := After(run.past, max).store.order;
    forall m | m in After(run, max).store.order ensures LastUse(run, max, order[0]) < LastUse(run, max, m) {
      if m != l {
        var i :| 0 <= i < |order[1..]| && order[1..][i] == m;
        assert m == order[i + 1];
      }
    }
  }

  /**
   * In every run an entry that is neither invalidated nor cleared goes only when the result of a
   * fetch is stored under a new key and the cache is full, and then it is the one whose last use
   * is longest ago.
   */
  lemma LeastUsedIsEvicted(run: Run, max: Option<nat>, k: Key)
    requires Legal(run, max) && run.Then?
    requires k in After(run.past, max).store.items && k !in After(run, max).store.items
    requires run.step != InvalidateKey(k) && !run.step.ClearAll?
    ensures run.step.Settle? && run.step.progress.Fulfilled?
    ensures var s := After(run.past, max);
            s.fetches[run.step.fetch].key !in s.store.items && max == Some(|s.store.items|)
    ensures forall l :: l in After(run, max).store.items ==> LastUse(run, max, k) < LastUse(run, max, l)
  {
    var s := After(run.past, max);
    OrderIsByLastUse(run.past, max);
    OrderIsByLastUse(run, max);
    if !(run.step.Settle? && run.step.progress.Fulfilled?) {
      OthersKeep(s, max, run.step, k);
    } else {
      FirstIsPushedOut(s, max, run.step, k);
      OrderCounts(s.store);
      PushedOutIsLeast(run, max, s.fetches[run.step.fetch].key);
    }
  }

  /** A result is stored as fetched, stamped with the time and unflagged, unless there is no room at all. */
  lemma ResultIsStored(run: Run, max: Option<nat>)
    requires Legal(run, max) && run.Then? && run.step.Settle? && run.step.progress.Fulfilled? && max != Some(0)
    ensures var k, v := After(run.past, max).fetches[run.step.fetch].key, After(run, max).store;
            && k in v.items && v.items[k] == Item(run.step.progress.data, run.step.now, false)
            && forall l :: l in v.items && l != k ==>
                 l in After(run.past, max).store.items && v.items[l] == After(run.past, max).store.items[l]
  {
    var s, v := After(run.past, max), After(run, max).store;
    var k := s.fetches[run.step.fetch].key;
    OrderIsByLastUse(run.past, max);
    OrderIsByLastUse(run, max);
    StoredOrder(s, max, run.step);
    assert k in v.order by {
      if k !in s.store.items {
        assert (s.store.order + [k])[|s.store.order|] == k;
        assert v.order[|v.order| - 1] == k;
      }
    }
    forall l | l in v.items ensures if l == k then v.items[l] == Item(run.step.progress.data, run.step.now, false)
                                    else l in s.store.items && v.items[l] == s.store.items[l]
    {
      EntryAfterStep(s, max, run.step, l);
    }
  }
}
