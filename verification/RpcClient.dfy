/** Round-robin failover with quarantine (engine-bridge/src/rpc-client.ts). */
module RpcFailover {
  import opened Wrappers

  const QUARANTINE_MS: int := 30_000
  const MAX_RETRIES: nat := 3

  /** When each endpoint's quarantine ends, and where the next scan starts. */
  datatype Pool = Pool(deadUntil: seq<int>, cursor: nat) {
    ghost predicate Valid() {
      cursor < |deadUntil|
    }

    predicate Live(e: nat, now: int) {
      e < |deadUntil| && deadUntil[e] <= now
    }

    /** How many endpoints a scan passes before it reaches `e`. */
    function Distance(e: nat): nat
      requires Valid() && e < |deadUntil|
    {
      (e + |deadUntil| - cursor) % |deadUntil|
    }

    /** The endpoint at this offset from the cursor. */
    function At(offset: nat): nat
      requires Valid()
    {
      (cursor + offset) % |deadUntil|
    }

    function Fail(e: nat, now: int): Pool
      requires e < |deadUntil|
    {
      this.(deadUntil := deadUntil[e := now + QUARANTINE_MS])
    }
  }

  /** The first offset from here on whose endpoint is live. */
  function Scan(p: Pool, now: int, from: nat): (r: Option<nat>)
    requires p.Valid() && from <= |p.deadUntil|
    ensures r.Some? ==> from <= r.value < |p.deadUntil| && p.Live(p.At(r.value), now)
    ensures forall k :: from <= k < (if r.Some? then r.value else |p.deadUntil|) ==> !p.Live(p.At(k), now)
    decreases |p.deadUntil| - from
  {
    if from == |p.deadUntil| then None
    else if p.Live(p.At(from), now) then Some(from)
    else Scan(p, now, from + 1)
  }

  function Pick(p: Pool, now: int): (r: (Pool, Option<nat>))
    requires p.Valid()
    ensures r.0.Valid() && r.0.deadUntil == p.deadUntil
    ensures r.1.Some? ==> p.Live(r.1.value, now)
  {
    match Scan(p, now, 0)
    case None => (p, None)
    case Some(offset) => (p.(cursor := p.At(offset + 1)), Some(p.At(offset)))
  }

  ghost function LiveSet(p: Pool, now: int): set<nat> {
    set e: nat | e < |p.deadUntil| && p.Live(e, now)
  }

  function LiveAmong(deadUntil: seq<int>, now: int): nat {
    if deadUntil == [] then 0
    else LiveAmong(deadUntil[..|deadUntil| - 1], now) + if deadUntil[|deadUntil| - 1] <= now then 1 else 0
  }

  class RpcClient {
    const deadUntil: array<int>
    var cursor: nat

    ghost predicate Valid()
      reads this
    {
      cursor < deadUntil.Length
    }

    function State(): Pool
      reads this, deadUntil
    {
      Pool(deadUntil[..], cursor)
    }

    constructor (endpoints: nat)
      requires endpoints > 0
      ensures Valid() && fresh(deadUntil)
      ensures State() == Pool(seq(endpoints, _ => 0), 0)
    {
      deadUntil := new int[endpoints](_ => 0);
      cursor := 0;
      new;
      assert deadUntil[..] == seq(endpoints, _ => 0);
    }

    method PickEndpoint(now: int) returns (picked: Option<nat>)
      requires Valid()
      modifies this`cursor
      ensures Valid() && (State(), picked) == Pick(old(State()), now)
      ensures picked.Some?
              ==> && picked.value < deadUntil.Length && deadUntil[picked.value] <= now
                  && cursor == (picked.value + 1) % deadUntil.Length
      ensures picked.Some? ==> forall e :: 0 <= e < deadUntil.Length && deadUntil[e] <= now
                                           ==> old(State()).Distance(picked.value) <= old(State()).Distance(e)
      ensures picked.None? ==> cursor == old(cursor) && forall e :: 0 <= e < deadUntil.Length ==> deadUntil[e] > now
    {
      PickExactly(State(), now);
      for i := 0 to deadUntil.Length
        invariant cursor == old(cursor)
        invariant Scan(State(), now, 0) == Scan(State(), now, i)
      {
        var e := (cursor + i) % deadUntil.Length;
        if deadUntil[e] <= now {
          cursor := (cursor + i + 1) % deadUntil.Length;
          return Some(e);
        }
      }
      return None;
    }

    method LiveCount(now: int) returns (count: nat)
      ensures count == |set e: nat | e < deadUntil.Length && deadUntil[e] <= now|
    {
      count := 0;
      for i := 0 to deadUntil.Length
        invariant count == LiveAmong(deadUntil[..i], now)
      {
        assert deadUntil[..i + 1][..i] == deadUntil[..i];
        if deadUntil[i] <= now {
          count := count + 1;
        }
      }
      assert deadUntil[..deadUntil.Length] == deadUntil[..];
      LiveAmongIsCardinality(deadUntil[..], now, cursor);
      assert LiveSet(State(), now) == set e: nat | e < deadUntil.Length && deadUntil[e] <= now;
    }

    method Quarantine(e: nat, now: int)
      requires Valid() && e < deadUntil.Length
      modifies deadUntil
      ensures State() == old(State()).Fail(e, now)
      ensures deadUntil[..] == old(deadUntil[..])[e := now + 30_000]
    {
      deadUntil[e] := now + QUARANTINE_MS;
    }

    /** What other calls do to the shared endpoints while one is awaited. */
    method Interleave(events: seq<Event>)
      requires Valid()
      modifies this`cursor, deadUntil
      ensures Valid() && State() == HappenAll(old(State()), events)
    {
      for k := 0 to |events|
        invariant Valid() && HappenAll(State(), events[k..]) == HappenAll(old(State()), events)
      {
        assert events[k..][1..] == events[k + 1..];
        match events[k]
        case PickAt(now) =>
          var _ := PickEndpoint(now);
        case FailAt(endpoint, now) =>
          if endpoint < deadUntil.Length {
            Quarantine(endpoint, now);
          }
      }
    }

    /** A call and its retries; other calls may run while each attempt is awaited. */
    method Call(c: Conditions) returns (outcome: Outcome)
      requires Valid()
      modifies this`cursor, deadUntil
      ensures Valid()
      ensures var t := Attempts(old(State()), 0, c); (State(), outcome) == (t.pool, t.outcome)
    {
      ghost var start := State();
      for attempt := 0 to MAX_RETRIES
        invariant Valid()
        invariant Attempts(start, 0, c).pool == Attempts(State(), attempt, c).pool
        invariant Attempts(start, 0, c).outcome == Attempts(State(), attempt, c).outcome
      {
        OneAttempt(State(), attempt, c);
        var picked := PickEndpoint(c.clock(2 * attempt));
        if picked.None? {
          return AllUnavailable;
        }
        Interleave(c.others(attempt));
        if c.answers(attempt, picked.value) {
          return Answered(picked.value);
        }
        Quarantine(picked.value, c.clock(2 * attempt + 1));
      }
      return Exhausted;
    }
  }

  lemma {:induction false} LiveAmongIsCardinality(deadUntil: seq<int>, now: int, cursor: nat)
    ensures LiveAmong(deadUntil, now) == |LiveSet(Pool(deadUntil, cursor), now)|
  {
    var n := |deadUntil|;
    if n == 0 {
      assert LiveSet(Pool(deadUntil, cursor), now) == {};
    } else {
      LiveAmongIsCardinality(deadUntil[..n - 1], now, cursor);
      var rest := LiveSet(Pool(deadUntil[..n - 1], cursor), now);
      assert LiveSet(Pool(deadUntil, cursor), now) == if deadUntil[n - 1] <= now then rest + {n - 1} else rest;
    }
  }

  // ----- scheduling -----

  lemma OffsetOf(p: Pool, e: nat)
    requires p.Valid() && e < |p.deadUntil|
    ensures p.Distance(e) < |p.deadUntil| && p.At(p.Distance(e)) == e
  {
    var n := |p.deadUntil|;
    ModSmall(e + n - p.cursor, n);
    ModSmall(p.cursor + p.Distance(e), n);
  }

  /** Nothing is picked exactly when no endpoint is live. */
  lemma PicksUnlessAllDead(p: Pool, now: int)
    requires p.Valid()
    ensures Pick(p, now).1.None? <==> |LiveSet(p, now)| == 0
  {
    if Pick(p, now).1.None? {
      forall e: nat | e < |p.deadUntil| ensures !p.Live(e, now) {
        OffsetOf(p, e);
      }
      assert LiveSet(p, now) == {};
    } else {
      assert Pick(p, now).1.value in LiveSet(p, now);
    }
  }

  /** A pick of anything else brings a live endpoint strictly nearer to the cursor. */
  lemma PickBringsNearer(p: Pool, now: int, e: nat)
    requires p.Valid() && p.Live(e, now)
    ensures var (q, picked) := Pick(p, now);
            picked.Some? && (picked.value == e || q.Distance(e) < p.Distance(e))
  {
    OffsetOf(p, e);
    var d, n := p.Distance(e), |p.deadUntil|;
    var offset := Scan(p, now, 0).value;
    assert offset <= d;
    if offset < d {
      var q := Pick(p, now).0;
      assert q.cursor == if p.cursor + offset + 1 < n then p.cursor + offset + 1 else p.cursor + offset + 1 - n by {
        ModSmall(p.cursor + offset + 1, n);
      }
      ModSmall(e + n - p.cursor, n);
      ModSmall(e + n - q.cursor, n);
    }
  }

  /** The pick is the first live endpoint from the cursor on, and the cursor moves just past it. */
  lemma PickExactly(p: Pool, now: int)
    requires p.Valid()
    ensures var (q, picked) := Pick(p, now);
            if picked.Some? then
              && picked.value < |p.deadUntil| && p.deadUntil[picked.value] <= now
              && q == Pool(p.deadUntil, (picked.value + 1) % |p.deadUntil|)
              && forall e: nat :: e < |p.deadUntil| && p.deadUntil[e] <= now ==> p.Distance(picked.value) <= p.Distance(e)
            else
              q == p && forall e: nat :: e < |p.deadUntil| ==> p.deadUntil[e] > now
  {
    var (q, picked) := Pick(p, now);
    forall e: nat | e < |p.deadUntil| && p.deadUntil[e] <= now
      ensures picked.Some? && p.Distance(picked.value) <= p.Distance(e)
    {
      OffsetOf(p, e);
      var offset := Scan(p, now, 0).value;
      DistanceOfAt(p, offset);
    }
    if picked.Some? {
      NextAfter(p, Scan(p, now, 0).value);
    }
  }

  lemma DistanceOfAt(p: Pool, offset: nat)
    requires p.Valid() && offset < |p.deadUntil|
    ensures p.At(offset) < |p.deadUntil| && p.Distance(p.At(offset)) == offset
  {
    ModSmall(p.cursor + offset, |p.deadUntil|);
    ModSmall(p.At(offset) + |p.deadUntil| - p.cursor, |p.deadUntil|);
  }

  lemma NextAfter(p: Pool, offset: nat)
    requires p.Valid() && offset < |p.deadUntil|
    ensures p.At(offset + 1) == (p.At(offset) + 1) % |p.deadUntil|
  {
    ModSmall(p.cursor + offset, |p.deadUntil|);
    ModSmall(p.At(offset) + 1, |p.deadUntil|);
    if p.cursor + offset + 1 < 2 * |p.deadUntil| {
      ModSmall(p.cursor + offset + 1, |p.deadUntil|);
    }
  }

  lemma ModSmall(x: nat, n: nat)
    requires n > 0 && x < 2 * n
    ensures x % n == if x < n then x else x - n
  {
  }

  /** Whatever any number of concurrent calls do to the pool: picks, and failures that quarantine. */
  datatype Event = PickAt(now: int) | FailAt(endpoint: nat, now: int)

  function Happen(p: Pool, e: Event): (q: Pool)
    requires p.Valid()
    ensures q.Valid() && |q.deadUntil| == |p.deadUntil|
  {
    match e
    case PickAt(now) => Pick(p, now).0
    case FailAt(endpoint, now) => if endpoint < |p.deadUntil| then p.Fail(endpoint, now) else p
  }

  function HappenAll(p: Pool, events: seq<Event>): (q: Pool)
    requires p.Valid()
    ensures q.Valid() && |q.deadUntil| == |p.deadUntil|
    decreases |events|
  {
    if events == [] then p else HappenAll(Happen(p, events[0]), events[1..])
  }

  /** The endpoints handed out along the way. */
  function Picked(p: Pool, events: seq<Event>): seq<nat>
    requires p.Valid()
    decreases |events|
  {
    if events == [] then
      []
    else
      var rest := Picked(Happen(p, events[0]), events[1..]);
      if events[0].PickAt? && Pick(p, events[0].now).1.Some? then [Pick(p, events[0].now).1.value] + rest else rest
  }

  /** This endpoint is live at every pick, until it is the one picked. */
  predicate LiveUntilPicked(p: Pool, events: seq<Event>, e: nat)
    requires p.Valid()
    decreases |events|
  {
    events != [] ==>
      && (events[0].PickAt? ==> p.Live(e, events[0].now))
      && (!(events[0].PickAt? && Pick(p, events[0].now).1 == Some(e)) ==>
            LiveUntilPicked(Happen(p, events[0]), events[1..], e))
  }

  /** An endpoint that is live at every pick until its own is handed out before the picks outnumber its distance. */
  lemma {:induction false} LiveEndpointIsReached(p: Pool, events: seq<Event>, e: nat)
    requires p.Valid() && e < |p.deadUntil| && LiveUntilPicked(p, events, e)
    requires |Picked(p, events)| > p.Distance(e)
    ensures e in Picked(p, events)[..p.Distance(e) + 1]
    decreases |events|
  {
    var q := Happen(p, events[0]);
    var rest := Picked(q, events[1..]);
    if events[0].PickAt? {
      PickBringsNearer(p, events[0].now, e);
      var first := Pick(p, events[0].now).1.value;
      assert Picked(p, events) == [first] + rest;
      if first != e {
        LiveEndpointIsReached(q, events[1..], e);
        var i :| 0 <= i < q.Distance(e) + 1 && rest[i] == e;
        assert Picked(p, events)[i + 1] == e;
      } else {
        assert Picked(p, events)[0] == e;
      }
    } else {
      assert Picked(p, events) == rest && q.Distance(e) == p.Distance(e);
      LiveEndpointIsReached(q, events[1..], e);
    }
  }

  /** So every n successive picks, n being the number of endpoints, include it: round-robin starves nobody. */
  lemma RoundRobinIsFair(p: Pool, events: seq<Event>, e: nat)
    requires p.Valid() && e < |p.deadUntil| && LiveUntilPicked(p, events, e)
    requires |Picked(p, events)| >= |p.deadUntil|
    ensures e in Picked(p, events)[..|p.deadUntil|]
  {
    OffsetOf(p, e);
    LiveEndpointIsReached(p, events, e);
    var i :| 0 <= i < p.Distance(e) + 1 && Picked(p, events)[i] == e;
    assert Picked(p, events)[..|p.deadUntil|][i] == e;
  }

  // ----- one call with its retries, among others -----

  datatype Outcome = Answered(endpoint: nat) | AllUnavailable | Exhausted

  /**
   * What a call meets: the clock at each of its picks (even) and failures (odd), whether an
   * endpoint answers at an attempt, and what other calls do while an attempt is awaited.
   */
  datatype Conditions = Conditions(clock: nat -> int, answers: (nat, nat) -> bool, others: nat -> seq<Event>)

  datatype Trail = Trail(pool: Pool, outcome: Outcome, tried: seq<nat>)

  function Attempts(p: Pool, attempt: nat, c: Conditions): (t: Trail)
    requires p.Valid()
    ensures t.pool.Valid() && |t.pool.deadUntil| == |p.deadUntil|
    ensures forall e :: e in t.tried ==> e < |p.deadUntil|
    decreases MAX_RETRIES - attempt
  {
    if attempt >= MAX_RETRIES then
      Trail(p, Exhausted, [])
    else
      var (q, picked) := Pick(p, c.clock(2 * attempt));
      if picked.None? then
        Trail(q, AllUnavailable, [])
      else
        var e, r := picked.value, HappenAll(q, c.others(attempt));
        if c.answers(attempt, e) then
          Trail(r, Answered(e), [e])
        else
          var t := Attempts(r.Fail(e, c.clock(2 * attempt + 1)), attempt + 1, c);
          t.(tried := [e] + t.tried)
  }

  /** An attempt gives up, returns the answer, or goes on without that endpoint. */
  lemma OneAttempt(p: Pool, attempt: nat, c: Conditions)
    requires p.Valid() && attempt < MAX_RETRIES
    ensures var (q, picked) := Pick(p, c.clock(2 * attempt));
            var t := Attempts(p, attempt, c);
            if picked.None? then (t.pool, t.outcome) == (q, AllUnavailable)
            else
              var r := HappenAll(q, c.others(attempt));
              if c.answers(attempt, picked.value) then (t.pool, t.outcome) == (r, Answered(picked.value))
              else var rest := Attempts(r.Fail(picked.value, c.clock(2 * attempt + 1)), attempt + 1, c);
                   (t.pool, t.outcome) == (rest.pool, rest.outcome)
  {
  }

  /** Times do not run backwards, for this call and for the others during each of its attempts. */
  predicate Timely(events: seq<Event>, from: int, to: int)
    decreases |events|
  {
    if events == [] then from <= to else from <= events[0].now <= to && Timely(events[1..], events[0].now, to)
  }

  predicate Clocked(c: Conditions) {
    && (forall i :: 0 <= i < 5 ==> c.clock(i) <= c.clock(i + 1))
    && (forall attempt :: 0 <= attempt < MAX_RETRIES ==>
          Timely(c.others(attempt), c.clock(2 * attempt), c.clock(2 * attempt + 1)))
  }

  lemma {:induction false} ClockRises(c: Conditions, i: nat, j: nat)
    requires Clocked(c) && i <= j <= 5
    ensures c.clock(i) <= c.clock(j)
  {
    if i < j {
      ClockRises(c, i, j - 1);
    }
  }

  /** No quarantine reaches further than one set right now would. */
  predicate Sane(p: Pool, now: int) {
    forall e :: 0 <= e < |p.deadUntil| ==> p.deadUntil[e] <= now + QUARANTINE_MS
  }

  /** Quarantines only ever get longer. */
  lemma {:induction false} OthersOnlyExtend(p: Pool, events: seq<Event>, from: int, to: int)
    requires p.Valid() && Sane(p, from) && Timely(events, from, to)
    ensures Sane(HappenAll(p, events), to)
    ensures forall e :: 0 <= e < |p.deadUntil| ==> p.deadUntil[e] <= HappenAll(p, events).deadUntil[e]
    decreases |events|
  {
    if events != [] {
      OthersOnlyExtend(Happen(p, events[0]), events[1..], events[0].now, to);
    }
  }

  /** Whatever a call tries was out of quarantine by the time of its last pick. */
  lemma {:induction false} TriedWereFree(p: Pool, attempt: nat, c: Conditions, e: nat)
    requires p.Valid() && attempt < MAX_RETRIES && Clocked(c) && Sane(p, c.clock(2 * attempt))
    requires e in Attempts(p, attempt, c).tried
    ensures p.deadUntil[e] <= c.clock(4)
    decreases MAX_RETRIES - attempt
  {
    ClockRises(c, 2 * attempt, 4);
    var (q, picked) := Pick(p, c.clock(2 * attempt));
    if picked.value != e {
      AfterFailure(p, attempt, c);
      TriedWereFree(NextPool(p, attempt, c), attempt + 1, c, e);
    }
  }

  /** The pool after an attempt whose endpoint did not answer. */
  function NextPool(p: Pool, attempt: nat, c: Conditions): (q: Pool)
    requires p.Valid() && Pick(p, c.clock(2 * attempt)).1.Some?
    ensures q.Valid() && |q.deadUntil| == |p.deadUntil|
  {
    var (q, picked) := Pick(p, c.clock(2 * attempt));
    HappenAll(q, c.others(attempt)).Fail(picked.value, c.clock(2 * attempt + 1))
  }

  lemma AfterFailure(p: Pool, attempt: nat, c: Conditions)
    requires p.Valid() && attempt < MAX_RETRIES && Clocked(c) && Sane(p, c.clock(2 * attempt))
    requires Pick(p, c.clock(2 * attempt)).1.Some?
    ensures attempt + 1 < MAX_RETRIES ==> Sane(NextPool(p, attempt, c), c.clock(2 * (attempt + 1)))
    ensures forall e :: 0 <= e < |p.deadUntil| ==> p.deadUntil[e] <= NextPool(p, attempt, c).deadUntil[e]
  {
    var (q, picked) := Pick(p, c.clock(2 * attempt));
    OthersOnlyExtend(q, c.others(attempt), c.clock(2 * attempt), c.clock(2 * attempt + 1));
    assert c.clock(2 * attempt) <= c.clock(2 * attempt + 1);
    if attempt + 1 < MAX_RETRIES {
      assert c.clock(2 * attempt + 1) <= c.clock(2 * attempt + 2);
    }
  }

  /** A call whose last pick comes within thirty seconds of its first failure never tries an endpoint twice. */
  lemma {:induction false} NeverTriesTwice(p: Pool, attempt: nat, c: Conditions)
    requires p.Valid() && attempt <= MAX_RETRIES && Clocked(c)
    requires attempt < MAX_RETRIES ==> Sane(p, c.clock(2 * attempt))
    requires c.clock(4) < c.clock(1) + QUARANTINE_MS
    ensures var tried := Attempts(p, attempt, c).tried;
            |tried| <= MAX_RETRIES - attempt && forall i, j :: 0 <= i < j < |tried| ==> tried[i] != tried[j]
    decreases MAX_RETRIES - attempt
  {
    if attempt < MAX_RETRIES {
      var (q, picked) := Pick(p, c.clock(2 * attempt));
      if picked.Some? && !c.answers(attempt, picked.value) {
        AfterFailure(p, attempt, c);
        var next := NextPool(p, attempt, c);
        NeverTriesTwice(next, attempt + 1, c);
        var rest := Attempts(next, attempt + 1, c).tried;
        ClockRises(c, 1, 2 * attempt + 1);
        if picked.value in rest {
          TriedWereFree(next, attempt + 1, c, picked.value);
        }
        assert forall i :: 0 <= i < |rest| ==> rest[i] in rest;
      }
    }
  }

  /** At each pick the call makes, from this attempt until one is answered, this endpoint is live. */
  ghost predicate AvailableThroughout(p: Pool, attempt: nat, c: Conditions, e: nat)
    requires p.Valid()
    decreases MAX_RETRIES - attempt
  {
    attempt < MAX_RETRIES ==>
      && p.Live(e, c.clock(2 * attempt))
      && var picked := Pick(p, c.clock(2 * attempt)).1;
         (picked.Some? && !c.answers(attempt, picked.value) ==>
            AvailableThroughout(NextPool(p, attempt, c), attempt + 1, c, e))
  }

  /** None of the endpoints tried from this attempt on answered. */
  predicate AllSilent(c: Conditions, attempt: nat, tried: seq<nat>) {
    forall i :: 0 <= i < |tried| ==> !c.answers(attempt + i, tried[i])
  }

  lemma {:induction false} FailsOnlyByFailing(p: Pool, attempt: nat, c: Conditions, good: nat)
    requires p.Valid() && attempt <= MAX_RETRIES && AvailableThroughout(p, attempt, c, good)
    ensures var t := Attempts(p, attempt, c);
            t.outcome.Answered?
            || (t.outcome.Exhausted? && |t.tried| == MAX_RETRIES - attempt && AllSilent(c, attempt, t.tried))
    decreases MAX_RETRIES - attempt
  {
    if attempt < MAX_RETRIES {
      PickBringsNearer(p, c.clock(2 * attempt), good);
      var picked := Pick(p, c.clock(2 * attempt)).1.value;
      if !c.answers(attempt, picked) {
        FailsOnlyByFailing(NextPool(p, attempt, c), attempt + 1, c, good);
        SilentTrail(c, attempt, picked, Attempts(NextPool(p, attempt, c), attempt + 1, c).tried);
      }
    }
  }

  lemma SilentTrail(c: Conditions, attempt: nat, first: nat, rest: seq<nat>)
    requires !c.answers(attempt, first)
    ensures AllSilent(c, attempt + 1, rest) ==> AllSilent(c, attempt, [first] + rest)
  {
  }

  /** All tried but the one that answered, if any, were silent; a call that gives up for good tried three. */
  predicate InTurn(c: Conditions, attempt: nat, outcome: Outcome, tried: seq<nat>) {
    match outcome
    case Answered(e) =>
      && tried != [] && tried[|tried| - 1] == e && c.answers(attempt + |tried| - 1, e)
      && AllSilent(c, attempt, tried[..|tried| - 1]) && attempt + |tried| <= 3
    case AllUnavailable => AllSilent(c, attempt, tried) && attempt + |tried| < 3
    case Exhausted => AllSilent(c, attempt, tried) && attempt + |tried| == 3
  }

  lemma OneMoreTurn(c: Conditions, attempt: nat, outcome: Outcome, first: nat, rest: seq<nat>)
    requires !c.answers(attempt, first) && InTurn(c, attempt + 1, outcome, rest)
    ensures InTurn(c, attempt, outcome, [first] + rest)
  {
    SilentTrail(c, attempt, first, rest);
    if outcome.Answered? {
      SilentTrail(c, attempt, first, rest[..|rest| - 1]);
      assert ([first] + rest)[..|rest|] == [first] + rest[..|rest| - 1];
    }
  }

  lemma FailedAttempt(p: Pool, attempt: nat, c: Conditions)
    requires p.Valid() && attempt < MAX_RETRIES && Pick(p, c.clock(2 * attempt)).1.Some?
    requires !c.answers(attempt, Pick(p, c.clock(2 * attempt)).1.value)
    ensures var t, rest := Attempts(p, attempt, c), Attempts(NextPool(p, attempt, c), attempt + 1, c);
            t.outcome == rest.outcome && t.tried == [Pick(p, c.clock(2 * attempt)).1.value] + rest.tried
  {
  }

  lemma LastAttempt(p: Pool, attempt: nat, c: Conditions)
    requires p.Valid() && attempt <= MAX_RETRIES
    requires attempt < MAX_RETRIES ==> Pick(p, c.clock(2 * attempt)).1.None?
                                       || c.answers(attempt, Pick(p, c.clock(2 * attempt)).1.value)
    ensures InTurn(c, attempt, Attempts(p, attempt, c).outcome, Attempts(p, attempt, c).tried)
  {
  }

  /** The endpoints are tried one after another until one answers, and that one's answer is the call's. */
  lemma {:induction false} TriedInTurn(p: Pool, attempt: nat, c: Conditions)
    requires p.Valid() && attempt <= MAX_RETRIES
    ensures InTurn(c, attempt, Attempts(p, attempt, c).outcome, Attempts(p, attempt, c).tried)
    decreases MAX_RETRIES - attempt
  {
    var picked := if attempt < MAX_RETRIES then Pick(p, c.clock(2 * attempt)).1 else None;
    if picked.Some? && !c.answers(attempt, picked.value) {
      var next := NextPool(p, attempt, c);
      TriedInTurn(next, attempt + 1, c);
      FailedAttempt(p, attempt, c);
      var rest := Attempts(next, attempt + 1, c);
      OneMoreTurn(c, attempt, rest.outcome, picked.value, rest.tried);
    } else {
      LastAttempt(p, attempt, c);
    }
  }

  /**
   * With some endpoint live throughout, a call within the window succeeds unless three endpoints
   * that could be reached by its last pick do not answer: fewer silent ones than retries cannot
   * defeat it, whatever the other calls do meanwhile.
   */
  lemma FailoverSucceeds(p: Pool, c: Conditions, good: nat, silent: set<nat>)
    requires p.Valid() && Clocked(c) && Sane(p, c.clock(0)) && c.clock(4) < c.clock(1) + QUARANTINE_MS
    requires AvailableThroughout(p, 0, c, good)
    requires forall e: nat, attempt: nat ::
               e < |p.deadUntil| && p.deadUntil[e] <= c.clock(4) && attempt < MAX_RETRIES && !c.answers(attempt, e)
               ==> e in silent
    requires |silent| < MAX_RETRIES
    ensures Attempts(p, 0, c).outcome.Answered?
  {
    FailsOnlyByFailing(p, 0, c, good);
    NeverTriesTwice(p, 0, c);
    var t := Attempts(p, 0, c);
    if t.outcome.Exhausted? {
      forall i | 0 <= i < 3 ensures t.tried[i] in silent {
        TriedWereFree(p, 0, c, t.tried[i]);
        assert !c.answers(0 + i, t.tried[i]);
      }
      ThreeAreTooMany(t.tried, silent);
    }
  }

  // ----- what a caller can see beforehand -----

  /** No other call finds this endpoint failing. */
  predicate Spares(events: seq<Event>, e: nat) {
    forall k :: 0 <= k < |events| && events[k].FailAt? ==> events[k].endpoint != e
  }

  lemma {:induction false} SparedStays(p: Pool, events: seq<Event>, e: nat)
    requires p.Valid() && e < |p.deadUntil| && Spares(events, e)
    ensures HappenAll(p, events).deadUntil[e] == p.deadUntil[e]
    decreases |events|
  {
    if events != [] {
      SparedStays(Happen(p, events[0]), events[1..], e);
    }
  }

  /** An endpoint that is live, answers this call whenever asked, and fails nobody else, stays available to it. */
  lemma {:induction false} HealthyIsAvailable(p: Pool, attempt: nat, c: Conditions, good: nat)
    requires p.Valid() && Clocked(c) && attempt < MAX_RETRIES && p.Live(good, c.clock(2 * attempt))
    requires forall i :: attempt <= i < MAX_RETRIES ==> c.answers(i, good) && Spares(c.others(i), good)
    ensures AvailableThroughout(p, attempt, c, good)
    decreases MAX_RETRIES - attempt
  {
    var (q, picked) := Pick(p, c.clock(2 * attempt));
    if picked.Some? && !c.answers(attempt, picked.value) && attempt + 1 < MAX_RETRIES {
      SparedStays(q, c.others(attempt), good);
      ClockRises(c, 2 * attempt, 2 * (attempt + 1));
      HealthyIsAvailable(NextPool(p, attempt, c), attempt + 1, c, good);
    }
  }

  /**
   * So a call in the window succeeds whenever one endpoint is live at its first pick, answers it and
   * fails nobody else meanwhile, and fewer than three of those in reach stay silent.
   */
  lemma HealthyEndpointSuffices(p: Pool, c: Conditions, good: nat, silent: set<nat>)
    requires p.Valid() && Clocked(c) && Sane(p, c.clock(0)) && c.clock(4) < c.clock(1) + QUARANTINE_MS
    requires p.Live(good, c.clock(0))
    requires forall i :: 0 <= i < MAX_RETRIES ==> c.answers(i, good) && Spares(c.others(i), good)
    requires forall e: nat, attempt: nat ::
               e < |p.deadUntil| && p.deadUntil[e] <= c.clock(4) && attempt < MAX_RETRIES && !c.answers(attempt, e)
               ==> e in silent
    requires |silent| < MAX_RETRIES
    ensures Attempts(p, 0, c).outcome.Answered?
  {
    HealthyIsAvailable(p, 0, c, good);
    FailoverSucceeds(p, c, good, silent);
  }

  lemma SilentAttempt(p: Pool, attempt: nat, c: Conditions)
    requires p.Valid() && attempt < MAX_RETRIES && p.Live(p.cursor, c.clock(2 * attempt))
    requires !c.answers(attempt, p.cursor) && c.others(attempt) == []
    ensures Pick(p, c.clock(2 * attempt)).1 == Some(p.cursor)
    ensures NextPool(p, attempt, c)
            == Pool(p.deadUntil[p.cursor := c.clock(2 * attempt + 1) + QUARANTINE_MS], p.At(1))
    ensures Attempts(p, attempt, c).outcome == Attempts(NextPool(p, attempt, c), attempt + 1, c).outcome
  {
    ModSmall(p.cursor, |p.deadUntil|);
  }

  lemma FirstThreeAreSilent(c: Conditions)
    requires forall i :: c.clock(i) == 0 && c.others(i) == []
    requires forall i, e :: 0 <= e < 3 ==> !c.answers(i, e)
    ensures Attempts(Pool([0, 0, 0, 0], 0), 0, c).outcome == Exhausted
  {
    var first := Pool([0, 0, 0, 0], 0);
    SilentAttempt(first, 0, c);
    var second := NextPool(first, 0, c);
    assert second.cursor == 1 && second.deadUntil[1] == 0 && second.deadUntil[2] == 0;
    SilentAttempt(second, 1, c);
    var third := NextPool(second, 1, c);
    assert third.cursor == 2 && third.deadUntil[2] == 0;
    SilentAttempt(third, 2, c);
  }

  /** Three silent endpoints do defeat it, with a fourth that is live and would have answered. */
  lemma ThreeSilentDefeat() returns (p: Pool, c: Conditions)
    ensures p == Pool([0, 0, 0, 0], 0) && Clocked(c) && Sane(p, c.clock(0)) && c.clock(4) < c.clock(1) + QUARANTINE_MS
    ensures p.Live(3, c.clock(0)) && forall i :: c.answers(i, 3) && Spares(c.others(i), 3)
    ensures forall i, e :: 0 <= e < 4 && !c.answers(i, e) ==> e in {0, 1, 2}
    ensures Attempts(p, 0, c).outcome == Exhausted
  {
    p, c := Pool([0, 0, 0, 0], 0), Conditions(_ => 0, (_, e) => e == 3, _ => []);
    FirstThreeAreSilent(c);
  }

  lemma ThreeAreTooMany(tried: seq<nat>, silent: set<nat>)
    requires |tried| == 3 && forall i, j :: 0 <= i < j < |tried| ==> tried[i] != tried[j]
    requires forall i :: 0 <= i < 3 ==> tried[i] in silent
    ensures |silent| >= 3
  {
    SubsetIsNoLarger({tried[0], tried[1], tried[2]}, silent);
  }

  lemma {:induction false} SubsetIsNoLarger(a: set<nat>, b: set<nat>)
    requires a <= b
    ensures |a| <= |b|
  {
    if x :| x in a {
      SubsetIsNoLarger(a - {x}, b - {x});
    }
  }
}
