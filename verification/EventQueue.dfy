/**
 * The table of queued events (engine-bridge/src/event-queue.ts).
 *
 * A database statement either takes effect or fails, which the code turns into false, null or
 * zero; parameters say which. Times are milliseconds.
 */
module EventQueueing {
  import opened Wrappers
  import opened MapSums

  type Id = string

  datatype Event = Event(id: Id, payload: string)

  datatype Status = Pending | Processing | Processed | Failed

  datatype Row = Row(
    payload: string, status: Status, attempts: nat, enqueueTime: int,
    processTime: Option<int>, error: Option<string>, nextAttempt: int)

  /** The events table, by primary key. */
  type Table = map<Id, Row>

  // ----- the statements -----

  function Enqueued(t: Table, e: Event, now: int, fault: bool): (Table, bool) {
    if fault || e.id in t then (t, false)
    else (t[e.id := Row(e.payload, Pending, 0, now, None, None, now)], true)
  }

  predicate Retrying(row: Row, maxRetries: int) {
    row.status.Failed? && row.attempts < maxRetries
  }

  predicate Eligible(row: Row, maxRetries: int, now: int) {
    (row.status.Pending? || Retrying(row, maxRetries)) && row.nextAttempt <= now
  }

  /** First in line: eligible, and enqueued no later than any other eligible row. */
  ghost predicate FirstInLine(t: Table, maxRetries: int, now: int, id: Id) {
    && id in t && Eligible(t[id], maxRetries, now)
    && forall other :: other in t && Eligible(t[other], maxRetries, now) ==> t[id].enqueueTime <= t[other].enqueueTime
  }

  /** Pending, or failed with retries left, from its next attempt on, and none such was enqueued earlier. */
  lemma TakeableExactly(t: Table, maxRetries: int, now: int, id: Id)
    ensures FirstInLine(t, maxRetries, now, id)
            <==> && id in t && t[id].nextAttempt <= now
                 && (t[id].status == Pending || (t[id].status == Failed && t[id].attempts < maxRetries))
                 && forall other :: other in t && t[other].nextAttempt <= now
                                    && (t[other].status == Pending
                                        || (t[other].status == Failed && t[other].attempts < maxRetries))
                                    ==> t[id].enqueueTime <= t[other].enqueueTime
  {
  }

  ghost predicate NothingDue(t: Table, maxRetries: int, now: int) {
    forall id :: id in t ==> !Eligible(t[id], maxRetries, now)
  }

  function Taken(t: Table, id: Id): Table
    requires id in t
  {
    t[id := t[id].(status := Processing, attempts := t[id].attempts + 1)]
  }

  function MarkedProcessed(t: Table, id: Id, now: int): Table {
    if id in t then t[id := t[id].(status := Processed, processTime := Some(now))] else t
  }

  function Pow2(n: nat): nat {
    if n == 0 then 1 else 2 * Pow2(n - 1)
  }

  /** The wait before a failed row may be taken again; none under test or once retries are used up. */
  function Backoff(attempts: nat, maxRetries: int, isTest: bool): nat {
    if attempts < maxRetries && !isTest then Pow2(attempts) * 1000 else 0
  }

  function MarkedFailed(t: Table, id: Id, error: string, now: int, maxRetries: int, isTest: bool): Table {
    if id in t then
      t[id := t[id].(status := Failed, error := Some(error),
                     nextAttempt := now + Backoff(t[id].attempts, maxRetries, isTest))]
    else
      t
  }

  function RecoveredRow(row: Row, maxRetries: int): Row {
    if row.status.Processing? || Retrying(row, maxRetries) then row.(status := Pending) else row
  }

  function Recovered(t: Table, maxRetries: int): Table {
    map id | id in t :: RecoveredRow(t[id], maxRetries)
  }

  predicate Expired(row: Row, maxAgeMs: int, now: int) {
    row.status.Processed? && (maxAgeMs <= 0 || (row.processTime.Some? && row.processTime.value <= now - maxAgeMs))
  }

  function Cleaned(t: Table, maxAgeMs: int, now: int): Table {
    map id | id in t && !Expired(t[id], maxAgeMs, now) :: t[id]
  }

  lemma {:induction false} EarliestExists(t: Table, ids: set<Id>)
    requires ids != {} && forall id :: id in ids ==> id in t
    ensures exists id :: id in ids && forall other :: other in ids ==> t[id].enqueueTime <= t[other].enqueueTime
  {
    var id :| id in ids;
    if ids != {id} {
      EarliestExists(t, ids - {id});
      var best :| best in ids - {id}
                  && forall other :: other in ids - {id} ==> t[best].enqueueTime <= t[other].enqueueTime;
      var winner := if t[id].enqueueTime <= t[best].enqueueTime then id else best;
      forall other | other in ids ensures t[winner].enqueueTime <= t[other].enqueueTime {
        assert other == id || other in ids - {id};
      }
    }
  }

  // ----- how often a row can still be taken by the drain -----

  function Weight(row: Row, maxRetries: int): nat {
    var left := if row.attempts < maxRetries then maxRetries - row.attempts else 0;
    match row.status
    case Pending => if left > 0 then left else 1
    case Processed => 0
    case _ => left
  }

  function Weights(t: Table, maxRetries: int): map<Id, int> {
    map id | id in t :: Weight(t[id], maxRetries)
  }

  ghost function TotalWeight(t: Table, maxRetries: int): int {
    Total(Weights(t, maxRetries))
  }

  lemma WeightOfUpdated(t: Table, id: Id, row: Row, maxRetries: int)
    requires id in t
    ensures TotalWeight(t[id := row], maxRetries)
            == TotalWeight(t, maxRetries) + Weight(row, maxRetries) - Weight(t[id], maxRetries)
  {
    TotalOfUpdated(Weights(t, maxRetries), id, Weight(row, maxRetries));
    assert Weights(t[id := row], maxRetries) == Weights(t, maxRetries)[id := Weight(row, maxRetries)];
  }

  lemma {:induction false} TotalIsNotNegative<K>(m: map<K, int>)
    requires forall k :: k in m ==> m[k] >= 0
    ensures Total(m) >= 0
    decreases |m|
  {
    if m != map[] {
      var k :| k in m;
      TotalOfRemoved(m, k);
      TotalIsNotNegative(m - {k});
    }
  }

  lemma WeightIsNotNegative(t: Table, maxRetries: int)
    ensures TotalWeight(t, maxRetries) >= 0
  {
    TotalIsNotNegative(Weights(t, maxRetries));
  }

  /** Taking a row uses up at least one unit of its weight. */
  lemma TakingLowersWeight(t: Table, id: Id, maxRetries: int, now: int)
    requires id in t && Eligible(t[id], maxRetries, now)
    ensures TotalWeight(Taken(t, id), maxRetries) < TotalWeight(t, maxRetries)
  {
    WeightOfUpdated(t, id, t[id].(status := Processing, attempts := t[id].attempts + 1), maxRetries);
  }

  /** Reporting on the row being processed never adds weight. */
  lemma ReportingAddsNoWeight(t: Table, id: Id, maxRetries: int, error: string, now: int, isTest: bool)
    requires id in t && t[id].status.Processing?
    ensures TotalWeight(MarkedProcessed(t, id, now), maxRetries) <= TotalWeight(t, maxRetries)
    ensures TotalWeight(MarkedFailed(t, id, error, now, maxRetries, isTest), maxRetries) <= TotalWeight(t, maxRetries)
  {
    WeightOfUpdated(t, id, MarkedProcessed(t, id, now)[id], maxRetries);
    WeightOfUpdated(t, id, MarkedFailed(t, id, error, now, maxRetries, isTest)[id], maxRetries);
  }

  function PendingIds(t: Table): set<Id> {
    set id | id in t && t[id].status.Pending?
  }

  /** No row twice, earliest enqueued first. */
  ghost predicate EarliestFirst(t: Table, list: seq<Id>) {
    && (forall id :: id in list ==> id in t)
    && (forall i, j :: 0 <= i < j < |list| ==> list[i] != list[j] && t[list[i]].enqueueTime <= t[list[j]].enqueueTime)
  }

  lemma EarliestFirstStays(t: Table, u: Table, list: seq<Id>)
    requires EarliestFirst(u, list)
    requires forall id :: id in u ==> id in t && t[id].enqueueTime == u[id].enqueueTime
    ensures EarliestFirst(t, list)
  {
    forall i, j | 0 <= i < j < |list| ensures list[i] != list[j] && t[list[i]].enqueueTime <= t[list[j]].enqueueTime {
      assert list[i] in list && list[j] in list;
    }
  }

  /** These rows, each once, earliest enqueued first. */
  ghost predicate InOrder(t: Table, list: seq<Id>, ids: set<Id>) {
    && (forall id :: id in ids ==> id in t)
    && (forall id :: id in list <==> id in ids)
    && EarliestFirst(t, list)
  }

  lemma OneMoreInOrder(t: Table, list: seq<Id>, ids: set<Id>, id: Id)
    requires InOrder(t, list, ids) && id in t && id !in ids
    requires forall other :: other in list ==> t[other].enqueueTime <= t[id].enqueueTime
    ensures InOrder(t, list + [id], ids + {id})
  {
    var more := list + [id];
    forall i, j | 0 <= i < j < |more| ensures more[i] != more[j] && t[more[i]].enqueueTime <= t[more[j]].enqueueTime {
      assert more[i] == list[i] && list[i] in list;
    }
  }

  // ----- statistics -----

  datatype Bucket = InPending | InProcessing | InRetrying | InProcessed | InFailed

  datatype QueueStats = QueueStats(total: nat, counts: map<Bucket, nat>, oldestAge: Option<int>)

  function BucketOf(row: Row, maxRetries: int): Bucket {
    match row.status
    case Pending => InPending
    case Processing => InProcessing
    case Processed => InProcessed
    case Failed => if row.attempts < maxRetries then InRetrying else InFailed
  }

  ghost function Members(t: Table, ids: set<Id>, b: Bucket, maxRetries: int): set<Id> {
    set id | id in ids && id in t && BucketOf(t[id], maxRetries) == b
  }

  lemma MembersByStatus(t: Table, maxRetries: int)
    ensures Members(t, t.Keys, InPending, maxRetries) == set id | id in t && t[id].status == Pending
    ensures Members(t, t.Keys, InProcessing, maxRetries) == set id | id in t && t[id].status == Processing
    ensures Members(t, t.Keys, InProcessed, maxRetries) == set id | id in t && t[id].status == Processed
    ensures Members(t, t.Keys, InRetrying, maxRetries)
            == set id | id in t && t[id].status == Failed && t[id].attempts < maxRetries
    ensures Members(t, t.Keys, InFailed, maxRetries)
            == set id | id in t && t[id].status == Failed && t[id].attempts >= maxRetries
  {
  }

  lemma CountingOneMore(t: Table, seen: set<Id>, id: Id, b: Bucket, maxRetries: int)
    requires id in t && id !in seen
    ensures |Members(t, seen + {id}, b, maxRetries)|
            == |Members(t, seen, b, maxRetries)| + if b == BucketOf(t[id], maxRetries) then 1 else 0
  {
    var before := Members(t, seen, b, maxRetries);
    assert Members(t, seen + {id}, b, maxRetries) == if b == BucketOf(t[id], maxRetries) then before + {id} else before;
  }

  const NO_COUNTS: map<Bucket, nat> :=
    map[InPending := 0, InProcessing := 0, InRetrying := 0, InProcessed := 0, InFailed := 0]

  function CountSum(c: map<Bucket, nat>): nat
    requires c.Keys == NO_COUNTS.Keys
  {
    c[InPending] + c[InProcessing] + c[InRetrying] + c[InProcessed] + c[InFailed]
  }

  ghost predicate CountsExactly(t: Table, seen: set<Id>, counts: map<Bucket, nat>, maxRetries: int) {
    && counts.Keys == NO_COUNTS.Keys
    && (forall b :: b in counts ==> counts[b] == |Members(t, seen, b, maxRetries)|)
    && CountSum(counts) == |seen|
  }

  lemma NothingCounted(t: Table, maxRetries: int)
    ensures CountsExactly(t, {}, NO_COUNTS, maxRetries)
  {
  }

  lemma SumOneMore(counts: map<Bucket, nat>, b: Bucket)
    requires counts.Keys == NO_COUNTS.Keys && b in counts
    ensures counts[b := counts[b] + 1].Keys == NO_COUNTS.Keys
            && CountSum(counts[b := counts[b] + 1]) == CountSum(counts) + 1
  {
  }

  lemma CountingKeepsExact(t: Table, seen: set<Id>, id: Id, counts: map<Bucket, nat>, maxRetries: int)
    requires id in t && id !in seen && CountsExactly(t, seen, counts, maxRetries)
    ensures var b := BucketOf(t[id], maxRetries);
            CountsExactly(t, seen + {id}, counts[b := counts[b] + 1], maxRetries)
  {
    var b := BucketOf(t[id], maxRetries);
    var more := counts[b := counts[b] + 1];
    forall c | c in more ensures more[c] == |Members(t, seen + {id}, c, maxRetries)| {
      BucketCounts(t, seen, id, counts, c, maxRetries);
    }
    SumOneMore(counts, b);
    assert |seen + {id}| == |seen| + 1;
  }

  lemma BucketCounts(t: Table, seen: set<Id>, id: Id, counts: map<Bucket, nat>, c: Bucket, maxRetries: int)
    requires id in t && id !in seen && c in counts && counts[c] == |Members(t, seen, c, maxRetries)|
    requires BucketOf(t[id], maxRetries) in counts
    ensures var b := BucketOf(t[id], maxRetries);
            counts[b := counts[b] + 1][c] == |Members(t, seen + {id}, c, maxRetries)|
  {
    CountingOneMore(t, seen, id, c, maxRetries);
  }

  class EventQueue {
    var rows: Table
    const maxRetries: int
    const isTest: bool

    constructor (maxRetries: int, isTest: bool)
      ensures rows == map[] && this.maxRetries == maxRetries && this.isTest == isTest
    {
      rows, this.maxRetries, this.isTest := map[], maxRetries, isTest;
    }

    method Enqueue(e: Event, now: int, fault: bool) returns (ok: bool)
      modifies this
      ensures ok <==> !fault && e.id !in old(rows)
      ensures ok ==> rows == old(rows)[e.id := Row(e.payload, Pending, 0, now, None, None, now)]
      ensures !ok ==> rows == old(rows)
    {
      if fault || e.id in rows {
        return false;
      }
      rows := rows[e.id := Row(e.payload, Pending, 0, now, None, None, now)];
      return true;
    }

    /**
     * The row taken is pending, or failed with retries left, from its next attempt on, and none
     * such was enqueued earlier. Which of several rows enqueued at the same instant it is is the
     * database's choice. A row whose payload does not parse is taken all the same, but not handed
     * out.
     */
    method Dequeue(now: int, fault: bool, parses: string -> bool) returns (taken: Option<Id>, ghost spoilt: Option<Id>)
      modifies this
      ensures taken.Some? || spoilt.Some?
              ==> var id := if taken.Some? then taken.value else spoilt.value;
                  && id in old(rows) && old(rows)[id].nextAttempt <= now
                  && (old(rows)[id].status == Pending
                      || (old(rows)[id].status == Failed && old(rows)[id].attempts < maxRetries))
                  && rows == old(rows)[id := old(rows)[id].(status := Processing,
                                                            attempts := old(rows)[id].attempts + 1)]
                  && FirstInLine(old(rows), maxRetries, now, id)
      ensures taken.Some? || spoilt.Some?
              ==> var id := if taken.Some? then taken.value else spoilt.value;
                  forall other :: other in old(rows) && old(rows)[other].nextAttempt <= now
                                  && (old(rows)[other].status == Pending
                                      || (old(rows)[other].status == Failed && old(rows)[other].attempts < maxRetries))
                                  ==> old(rows)[id].enqueueTime <= old(rows)[other].enqueueTime
      ensures taken.Some? ==> spoilt.None? && parses(old(rows)[taken.value].payload)
      ensures spoilt.Some? ==> taken.None? && !parses(old(rows)[spoilt.value].payload)
      ensures taken.None? && spoilt.None? ==> rows == old(rows)
      ensures taken.None? && spoilt.None?
              <==> fault || forall id :: id in old(rows) && old(rows)[id].nextAttempt <= now
                                         ==> old(rows)[id].status == Processing || old(rows)[id].status == Processed
                                             || (old(rows)[id].status == Failed && old(rows)[id].attempts >= maxRetries)
      ensures taken.None? && spoilt.None? && !fault ==> NothingDue(rows, maxRetries, now)
    {
      taken, spoilt := None, None;
      var line := set id | id in rows && Eligible(rows[id], maxRetries, now);
      if fault || line == {} {
        assert forall id :: id in rows && Eligible(rows[id], maxRetries, now) ==> id in line;
        return;
      }
      EarliestExists(rows, line);
      var id :| id in line && forall other :: other in line ==> rows[id].enqueueTime <= rows[other].enqueueTime;
      assert forall other :: other in rows && Eligible(rows[other], maxRetries, now) ==> other in line;
      var payload := rows[id].payload;
      rows := rows[id := rows[id].(status := Processing, attempts := rows[id].attempts + 1)];
      if parses(payload) {
        taken := Some(id);
      } else {
        spoilt := Some(id);
      }
    }

    method MarkProcessed(id: Id, now: int, fault: bool) returns (ok: bool)
      modifies this
      ensures ok == !fault
      ensures rows == if fault || id !in old(rows) then old(rows)
                      else old(rows)[id := old(rows)[id].(status := Processed, processTime := Some(now))]
    {
      if fault {
        return false;
      }
      if id in rows {
        rows := rows[id := rows[id].(status := Processed, processTime := Some(now))];
      }
      return true;
    }

    method MarkFailed(id: Id, error: string, now: int, fault: bool) returns (ok: bool)
      modifies this
      ensures ok == (!fault && id in old(rows))
      ensures rows == if fault || id !in old(rows) then old(rows)
                      else old(rows)[id := old(rows)[id].(
                                       status := Failed, error := Some(error),
                                       nextAttempt := if isTest || maxRetries <= old(rows)[id].attempts then now
                                                      else now + 1000 * Pow2(old(rows)[id].attempts))]
    {
      if fault || id !in rows {
        return false;
      }
      var row := rows[id];
      var hasMoreRetries := row.attempts < maxRetries;
      var delay := 0;
      if hasMoreRetries && !isTest {
        delay := Pow2(row.attempts) * 1000;
      }
      rows := rows[id := row.(status := Failed, error := Some(error), nextAttempt := now + delay)];
      return true;
    }

    /** The reset may take effect and reading the rows back fail, or one of them not parse. */
    method RecoverPending(resetFails: bool, readFails: bool) returns (pending: seq<Id>)
      modifies this
      ensures rows.Keys == old(rows).Keys
      ensures forall id :: id in rows ==>
                rows[id] == if !resetFails
                               && (old(rows)[id].status == Processing
                                   || (old(rows)[id].status == Failed && old(rows)[id].attempts < maxRetries))
                            then old(rows)[id].(status := Pending) else old(rows)[id]
      ensures resetFails || readFails ==> pending == []
      ensures !resetFails && !readFails ==> forall id :: id in pending <==> id in rows && rows[id].status == Pending
      ensures EarliestFirst(old(rows), pending)
    {
      if resetFails {
        return [];
      }
      rows := map id | id in rows :: RecoveredRow(rows[id], maxRetries);
      assert rows == Recovered(old(rows), maxRetries);
      if readFails {
        return [];
      }
      pending := [];
      var left := PendingIds(rows);
      while left != {}
        invariant rows == Recovered(old(rows), maxRetries)
        invariant left <= PendingIds(rows) && InOrder(rows, pending, PendingIds(rows) - left)
        invariant forall id, later :: id in pending && later in left ==> rows[id].enqueueTime <= rows[later].enqueueTime
        decreases left
      {
        EarliestExists(rows, left);
        var id :| id in left && forall other :: other in left ==> rows[id].enqueueTime <= rows[other].enqueueTime;
        OneMoreInOrder(rows, pending, PendingIds(rows) - left, id);
        assert PendingIds(rows) - left + {id} == PendingIds(rows) - (left - {id});
        pending := pending + [id];
        left := left - {id};
      }
      assert PendingIds(rows) - left == PendingIds(rows);
      EarliestFirstStays(old(rows), rows, pending);
    }

    /** Every row is counted in exactly one bucket. */
    method GetStats(now: int, fault: bool) returns (stats: QueueStats)
      ensures fault ==> stats == QueueStats(0, NO_COUNTS, None)
      ensures !fault
              ==> stats.total == |rows| && stats.counts.Keys == NO_COUNTS.Keys && CountSum(stats.counts) == stats.total
      ensures !fault
              ==> && stats.counts[InPending] == |set id | id in rows && rows[id].status == Pending|
                  && stats.counts[InProcessing] == |set id | id in rows && rows[id].status == Processing|
                  && stats.counts[InProcessed] == |set id | id in rows && rows[id].status == Processed|
      ensures !fault
              ==> && stats.counts[InRetrying]
                     == |set id | id in rows && rows[id].status == Failed && rows[id].attempts < maxRetries|
                  && stats.counts[InFailed]
                     == |set id | id in rows && rows[id].status == Failed && rows[id].attempts >= maxRetries|
      ensures !fault ==> (stats.oldestAge.None? <==> rows == map[])
      ensures !fault && stats.oldestAge.Some? ==>
                && (forall id :: id in rows ==> now - rows[id].enqueueTime <= stats.oldestAge.value)
                && (exists id :: id in rows && now - rows[id].enqueueTime == stats.oldestAge.value)
    {
      if fault {
        return QueueStats(0, NO_COUNTS, None);
      }
      var counts := CountBuckets();
      var age := OldestAge(now);
      MembersByStatus(rows, maxRetries);
      stats := QueueStats(|rows|, counts, age);
    }

    method CountBuckets() returns (counts: map<Bucket, nat>)
      ensures CountsExactly(rows, rows.Keys, counts, maxRetries)
    {
      var seen := {};
      counts := NO_COUNTS;
      NothingCounted(rows, maxRetries);
      while rows.Keys - seen != {}
        invariant seen <= rows.Keys && CountsExactly(rows, seen, counts, maxRetries)
        decreases rows.Keys - seen
      {
        var id :| id in rows.Keys - seen;
        CountingKeepsExact(rows, seen, id, counts, maxRetries);
        counts := counts[BucketOf(rows[id], maxRetries) := counts[BucketOf(rows[id], maxRetries)] + 1];
        seen := seen + {id};
      }
      assert seen == rows.Keys;
    }

    method OldestAge(now: int) returns (age: Option<int>)
      ensures age.None? <==> rows == map[]
      ensures age.Some? ==> forall id :: id in rows ==> now - rows[id].enqueueTime <= age.value
      ensures age.Some? ==> exists id :: id in rows && now - rows[id].enqueueTime == age.value
    {
      if rows == map[] {
        return None;
      }
      EarliestExists(rows, rows.Keys);
      var id :| id in rows.Keys
                && forall other :: other in rows.Keys ==> rows[id].enqueueTime <= rows[other].enqueueTime;
      age := Some(now - rows[id].enqueueTime);
    }

    method Cleanup(maxAgeMs: int, now: int, fault: bool) returns (removed: nat)
      modifies this
      ensures fault ==> rows == old(rows)
      ensures forall id :: id in rows ==> id in old(rows) && rows[id] == old(rows)[id]
      ensures !fault ==>
                forall id :: id in old(rows) ==>
                  (id !in rows <==> old(rows)[id].status == Processed
                                    && (maxAgeMs <= 0 || (old(rows)[id].processTime.Some?
                                                          && old(rows)[id].processTime.value + maxAgeMs <= now)))
      ensures rows == if fault then old(rows) else Cleaned(old(rows), maxAgeMs, now)
      ensures |old(rows)| == |rows| + removed
    {
      if fault {
        return 0;
      }
      var gone := set id | id in rows && Expired(rows[id], maxAgeMs, now);
      removed := |gone|;
      var kept := map id | id in rows && !Expired(rows[id], maxAgeMs, now) :: rows[id];
      assert rows.Keys == kept.Keys + gone;
      rows := kept;
    }
  }
}
