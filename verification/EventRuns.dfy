/**
 * How often events are taken and handled, and runs that are as bad as the bounds allow
 * (engine-bridge/src/event-propagator.ts, event-queue.ts).
 */
module EventRuns {
  import opened EventQueueing
  import opened EventDelivery
  import opened Wrappers

  // ----- the retry budget -----

  function Budget(maxRetries: int): nat {
    if maxRetries > 1 then maxRetries else 1
  }

  ghost predicate WithinBudget(w: World, maxRetries: int) {
    forall id :: id in w.rows ==>
      w.rows[id].attempts + (if w.rows[id].status.Pending? then 1 else 0) <= Budget(maxRetries) + w.recoveries
  }

  lemma RecoverKeepsBudget(w: World, step: Step, settings: Settings)
    requires WithinBudget(w, settings.maxRetries) && step.Recover?
    ensures WithinBudget(Next(w, step, settings), settings.maxRetries)
  {
  }

  lemma PollKeepsBudget(w: World, step: Step, settings: Settings)
    requires WithinBudget(w, settings.maxRetries) && step.Poll? && |step.faults| == |step.batch|
    ensures WithinBudget(Next(w, step, settings), settings.maxRetries)
  {
    PollAddsRows(w.rows, w.cursor, step.batch, step.now, step.faults);
  }

  lemma TakeKeepsBudget(w: World, step: Step, settings: Settings)
    requires WithinBudget(w, settings.maxRetries) && step.Take? && step.id in w.rows
    requires w.rows[step.id].status.Pending? || Retrying(w.rows[step.id], settings.maxRetries)
    ensures WithinBudget(Next(w, step, settings), settings.maxRetries)
  {
  }

  lemma SettleKeepsBudget(w: World, step: Step, settings: Settings)
    requires WithinBudget(w, settings.maxRetries) && step.Settle?
    ensures WithinBudget(Next(w, step, settings), settings.maxRetries)
  {
  }

  lemma StepKeepsBudget(w: World, step: Step, feed: seq<Event>, settings: Settings)
    requires WithinBudget(w, settings.maxRetries) && Enabled(w, step, feed, settings)
    ensures WithinBudget(Next(w, step, settings), settings.maxRetries)
  {
    match step
    case Poll(_, _, _, _) => PollKeepsBudget(w, step, settings);
    case Take(_, _, _) => TakeKeepsBudget(w, step, settings);
    case Settle(_, _, _, _) => SettleKeepsBudget(w, step, settings);
    case Recover(_, _) => RecoverKeepsBudget(w, step, settings);
    case _ =>
  }

  /** In every run a row is taken at most max(1, maxRetries) times, and once more for each recovery. */
  lemma {:induction false} AttemptsWithinBudget(run: Run, feed: seq<Event>, settings: Settings)
    requires Origin(run) == FRESH && Legal(run, feed, settings)
    ensures WithinBudget(After(run, feed, settings), settings.maxRetries)
  {
    if run.Then? {
      AttemptsWithinBudget(run.past, feed, settings);
      StepKeepsBudget(After(run.past, feed, settings), run.step, feed, settings);
    }
  }

  // ----- when a failed row is tried again -----

  /** A continuation in which nobody takes this row, reports on it or resets it. */
  predicate Spares(start: Run, run: Run, id: Id) {
    run == start
    || (run.Then? && Spares(start, run.past, id)
        && match run.step
           case Take(other, _, _) => other != id
           case Settle(other, _, _, _) => other != id
           case Recover(resetFails, _) => resetFails
           case _ => true)
  }

  lemma StepSparesFailed(w: World, step: Step, feed: seq<Event>, settings: Settings, id: Id)
    requires Enabled(w, step, feed, settings) && id in w.rows && w.rows[id].status.Failed?
    requires match step
             case Take(other, _, _) => other != id
             case Settle(other, _, _, _) => other != id
             case Recover(resetFails, _) => resetFails
             case _ => true
    ensures id in Next(w, step, settings).rows && Next(w, step, settings).rows[id] == w.rows[id]
  {
    if step.Poll? {
      PollAddsRows(w.rows, w.cursor, step.batch, step.now, step.faults);
    }
  }

  lemma {:induction false} SparedFailedStays(start: Run, run: Run, feed: seq<Event>, settings: Settings, id: Id)
    requires Legal(start, feed, settings) && Legal(run, feed, settings) && Spares(start, run, id)
    requires id in After(start, feed, settings).rows && After(start, feed, settings).rows[id].status.Failed?
    ensures id in After(run, feed, settings).rows
            && After(run, feed, settings).rows[id] == After(start, feed, settings).rows[id]
  {
    if run != start {
      SparedFailedStays(start, run.past, feed, settings, id);
      StepSparesFailed(After(run.past, feed, settings), run.step, feed, settings, id);
    }
  }

  /** A wait is a second for no attempt made, and doubles with each attempt. */
  lemma WaitDoubles(attempts: nat, maxRetries: int)
    requires attempts < maxRetries
    ensures Backoff(0, maxRetries, false) == 1000 && (1 < maxRetries ==> Backoff(1, maxRetries, false) == 2000)
    ensures attempts + 1 < maxRetries
            ==> Backoff(attempts + 1, maxRetries, false) == 2 * Backoff(attempts, maxRetries, false)
  {
  }

  lemma RefusedRow(past: Run, id: Id, error: string, failure: int, feed: seq<Event>, settings: Settings)
    requires Legal(past, feed, settings) && id in After(past, feed, settings).rows
    requires id in After(past, feed, settings).inHand
    ensures var w, v := After(past, feed, settings),
                        After(Then(past, Settle(id, Refused(error), failure, false)), feed, settings);
            var attempts := w.rows[id].attempts;
            && id in v.rows && v.rows[id].status.Failed? && v.rows[id].attempts == attempts
            && (attempts < settings.maxRetries
                ==> v.rows[id].nextAttempt == failure + if settings.isTest then 0 else 1000 * Pow2(attempts))
  {
  }

  /**
   * A row whose handlers failed, and which nobody takes, reports on or resets meanwhile, whatever
   * else goes on, can be taken exactly from 2^attempts seconds after the failure on (at once under
   * test), when none that was enqueued earlier can be; and not at all once its retries are used up.
   */
  lemma RetriedAfterBackoffExactly(past: Run, run: Run, id: Id, error: string, failure: int, now: int, parses: bool,
                                   feed: seq<Event>, settings: Settings)
    requires var start := Then(past, Settle(id, Refused(error), failure, false));
             Legal(start, feed, settings) && Legal(run, feed, settings) && Spares(start, run, id)
    requires id in After(past, feed, settings).rows
    ensures var rows, attempts := After(run, feed, settings).rows, After(past, feed, settings).rows[id].attempts;
            var wait := if settings.isTest then 0 else 1000 * Pow2(attempts);
            && id in rows
            && (Enabled(After(run, feed, settings), Take(id, now, parses), feed, settings)
                <==> attempts < settings.maxRetries && failure + wait <= now
                     && forall other :: other in rows && rows[other].nextAttempt <= now
                                        && (rows[other].status == Pending
                                            || (rows[other].status == Failed
                                                && rows[other].attempts < settings.maxRetries))
                                        ==> rows[id].enqueueTime <= rows[other].enqueueTime)
  {
    RefusedRow(past, id, error, failure, feed, settings);
    SparedFailedStays(Then(past, Settle(id, Refused(error), failure, false)), run, feed, settings, id);
    TakeableExactly(After(run, feed, settings).rows, settings.maxRetries, now, id);
  }

  // ----- how often handlers run for an event -----

  /**
   * An event that entered the table so many times was handed to the handlers no more often than
   * the budget of each entry and two for each recovery allow; and the row it has, if any, leaves
   * room for the takes it may still have.
   */
  predicate Accounted(times: nat, handed: nat, row: Option<Row>, budget: nat, recoveries: nat) {
    && handed <= times * budget + 2 * recoveries
    && (row.Some? ==>
          && times > 0
          && handed + (if row.value.status.Pending? then 1 else 0) <= times * budget + 2 * recoveries
          && handed <= (times - 1) * budget + 2 * recoveries + row.value.attempts)
  }

  function RowOf(t: Table, id: Id): Option<Row> {
    if id in t then Some(t[id]) else None
  }

  ghost predicate AllAccounted(t: Table, enqueued: seq<Id>, handed: multiset<Id>, budget: nat, recoveries: nat) {
    forall id :: Accounted(multiset(enqueued)[id], handed[id], RowOf(t, id), budget, recoveries)
  }

  lemma EntryIsAccounted(times: nat, handed: nat, row: Row, budget: nat, recoveries: nat)
    requires Accounted(times, handed, None, budget, recoveries) && Untouched(row) && budget > 0
    ensures Accounted(times + 1, handed, Some(row), budget, recoveries)
  {
    assert (times + 1) * budget == times * budget + budget;
  }

  lemma TakeIsAccounted(times: nat, handed: nat, row: Row, maxRetries: int, recoveries: nat, out: nat)
    requires Accounted(times, handed, Some(row), Budget(maxRetries), recoveries) && out <= 1
    requires row.status.Pending? || Retrying(row, maxRetries)
    ensures Accounted(times, handed + out, Some(row.(status := Processing, attempts := row.attempts + 1)),
                      Budget(maxRetries), recoveries)
  {
    assert times * Budget(maxRetries) == (times - 1) * Budget(maxRetries) + Budget(maxRetries);
  }

  lemma NewRowIsAccounted(t: Table, e: Event, now: int, enqueued: seq<Id>, handed: multiset<Id>, budget: nat,
                          recoveries: nat)
    requires budget > 0 && e.id !in t && AllAccounted(t, enqueued, handed, budget, recoveries)
    ensures AllAccounted(Enqueued(t, e, now, false).0, enqueued + [e.id], handed, budget, recoveries)
  {
    var next, more := Enqueued(t, e, now, false).0, enqueued + [e.id];
    forall id ensures Accounted(multiset(more)[id], handed[id], RowOf(next, id), budget, recoveries) {
      assert Accounted(multiset(enqueued)[id], handed[id], RowOf(t, id), budget, recoveries);
      if id == e.id {
        EntryIsAccounted(multiset(enqueued)[id], handed[id], next[id], budget, recoveries);
      } else {
        assert multiset(more)[id] == multiset(enqueued)[id] && RowOf(next, id) == RowOf(t, id);
      }
    }
  }

  lemma FetchesOneMore(t: Table, cursor: Option<Id>, batch: seq<Event>, now: int, faults: seq<bool>, enqueued: seq<Id>)
    requires |faults| == |batch| && batch != [] && !faults[0] && batch[0].id !in t
    ensures var all := FetchAll(t, cursor, batch, now, faults);
            var rest := FetchAll(Enqueued(t, batch[0], now, false).0, Some(batch[0].id), batch[1..], now, faults[1..]);
            all.0 == rest.0 && enqueued + Ids(batch)[..all.2] == enqueued + [batch[0].id] + Ids(batch[1..])[..rest.2]
  {
  }

  lemma {:induction false} PollIsAccounted(t: Table, cursor: Option<Id>, batch: seq<Event>, now: int, faults: seq<bool>,
                                           enqueued: seq<Id>, handed: multiset<Id>, budget: nat, recoveries: nat)
    requires |faults| == |batch| && budget > 0 && AllAccounted(t, enqueued, handed, budget, recoveries)
    ensures var (last, _, n) := FetchAll(t, cursor, batch, now, faults);
            AllAccounted(last, enqueued + Ids(batch)[..n], handed, budget, recoveries)
    decreases |batch|
  {
    if batch != [] && !faults[0] && batch[0].id !in t {
      FetchesOneMore(t, cursor, batch, now, faults, enqueued);
      var next, more := Enqueued(t, batch[0], now, false).0, enqueued + [batch[0].id];
      NewRowIsAccounted(t, batch[0], now, enqueued, handed, budget, recoveries);
      PollIsAccounted(next, Some(batch[0].id), batch[1..], now, faults[1..], more, handed, budget, recoveries);
    } else {
      assert enqueued + [] == enqueued;
    }
  }

  ghost predicate HandedWithin(w: World, maxRetries: int) {
    AllAccounted(w.rows, w.enqueued, w.handed, Budget(maxRetries), w.recoveries)
  }

  lemma RecoveryIsAccounted(times: nat, handed: nat, row: Option<Row>, budget: nat, recoveries: nat, out: nat,
                            row': Option<Row>)
    requires Accounted(times, handed, row, budget, recoveries) && out <= 1
    requires row'.Some? ==> row.Some? && row'.value.attempts == row.value.attempts
    ensures Accounted(times, handed + out, row', budget, recoveries + 1)
  {
  }

  /** The row is gone, or has the attempts it had and is not newly pending. */
  predicate NoFresher(row: Option<Row>, row': Option<Row>) {
    row'.Some? ==> row.Some? && row'.value.attempts == row.value.attempts
                   && (row'.value.status.Pending? ==> row.value.status.Pending?)
  }

  /** What is reported or cleaned away leaves no more room than there was. */
  lemma OtherIsAccounted(times: nat, handed: nat, row: Option<Row>, budget: nat, recoveries: nat, row': Option<Row>)
    requires Accounted(times, handed, row, budget, recoveries)
    requires NoFresher(row, row')
    ensures Accounted(times, handed, row', budget, recoveries)
  {
  }

  lemma RecoverAccountsFor(w: World, step: Step, settings: Settings, id: Id)
    requires HandedWithin(w, settings.maxRetries) && step.Recover?
    ensures var v := Next(w, step, settings);
            Accounted(multiset(v.enqueued)[id], v.handed[id], RowOf(v.rows, id), Budget(settings.maxRetries),
                      v.recoveries)
  {
    var v := Next(w, step, settings);
    RecoveryIsAccounted(multiset(w.enqueued)[id], w.handed[id], RowOf(w.rows, id), Budget(settings.maxRetries),
                        w.recoveries, v.handed[id] - w.handed[id], RowOf(v.rows, id));
  }

  lemma TakeAccountsFor(w: World, step: Step, settings: Settings, id: Id)
    requires HandedWithin(w, settings.maxRetries) && step.Take? && step.id in w.rows
    requires w.rows[step.id].status.Pending? || Retrying(w.rows[step.id], settings.maxRetries)
    ensures var v := Next(w, step, settings);
            Accounted(multiset(v.enqueued)[id], v.handed[id], RowOf(v.rows, id), Budget(settings.maxRetries),
                      v.recoveries)
  {
    var times := multiset(w.enqueued)[id];
    assert Accounted(times, w.handed[id], RowOf(w.rows, id), Budget(settings.maxRetries), w.recoveries);
    if step.id == id {
      TakeIsAccounted(times, w.handed[id], w.rows[id], settings.maxRetries, w.recoveries, if step.parses then 1 else 0);
    }
  }

  lemma ReportIsNoFresher(t: Table, reported: Id, verdict: Verdict, now: int, fault: bool, settings: Settings, id: Id)
    ensures NoFresher(RowOf(t, id), RowOf(Reported(t, reported, verdict, now, fault, settings), id))
  {
  }

  /** No other step adds a row or an attempt, or runs the handlers. */
  lemma OtherStepsAddNothing(w: World, step: Step, settings: Settings, id: Id)
    requires !step.Poll? && !step.Take? && !step.Recover?
    ensures NoFresher(RowOf(w.rows, id), RowOf(Next(w, step, settings).rows, id))
    ensures var v := Next(w, step, settings);
            v.enqueued == w.enqueued && v.handed == w.handed && v.recoveries == w.recoveries
  {
    if step.Settle? {
      ReportIsNoFresher(w.rows, step.id, step.verdict, step.now, step.fault, settings, id);
    }
  }

  lemma OtherAccountsFor(w: World, step: Step, settings: Settings, id: Id)
    requires HandedWithin(w, settings.maxRetries) && !step.Poll? && !step.Take? && !step.Recover?
    ensures var v := Next(w, step, settings);
            Accounted(multiset(v.enqueued)[id], v.handed[id], RowOf(v.rows, id), Budget(settings.maxRetries),
                      v.recoveries)
  {
    OtherStepsAddNothing(w, step, settings, id);
    OtherIsAccounted(multiset(w.enqueued)[id], w.handed[id], RowOf(w.rows, id), Budget(settings.maxRetries),
                     w.recoveries, RowOf(Next(w, step, settings).rows, id));
  }

  lemma StepAccountsFor(w: World, step: Step, feed: seq<Event>, settings: Settings, id: Id)
    requires HandedWithin(w, settings.maxRetries) && Enabled(w, step, feed, settings) && !step.Poll?
    ensures var v := Next(w, step, settings);
            Accounted(multiset(v.enqueued)[id], v.handed[id], RowOf(v.rows, id), Budget(settings.maxRetries),
                      v.recoveries)
  {
    if step.Take? {
      TakeAccountsFor(w, step, settings, id);
    } else if step.Recover? {
      RecoverAccountsFor(w, step, settings, id);
    } else {
      OtherAccountsFor(w, step, settings, id);
    }
  }

  lemma StepIsAccounted(w: World, step: Step, feed: seq<Event>, settings: Settings)
    requires HandedWithin(w, settings.maxRetries) && Enabled(w, step, feed, settings)
    ensures HandedWithin(Next(w, step, settings), settings.maxRetries)
  {
    var v, budget := Next(w, step, settings), Budget(settings.maxRetries);
    if step.Poll? {
      PollIsAccounted(w.rows, w.cursor, step.batch, step.now, step.faults, w.enqueued, w.handed, budget, w.recoveries);
    } else {
      forall id ensures Accounted(multiset(v.enqueued)[id], v.handed[id], RowOf(v.rows, id), budget, v.recoveries) {
        StepAccountsFor(w, step, feed, settings, id);
      }
    }
  }

  lemma {:induction false} RunIsAccounted(run: Run, feed: seq<Event>, settings: Settings)
    requires Origin(run) == FRESH && Legal(run, feed, settings)
    ensures HandedWithin(After(run, feed, settings), settings.maxRetries)
  {
    if run.Then? {
      RunIsAccounted(run.past, feed, settings);
      StepIsAccounted(After(run.past, feed, settings), run.step, feed, settings);
    }
  }

  /**
   * In every run the handlers are started for an event at most max(1, maxRetries) times for each
   * time it was enqueued, and twice more for each recovery: a recovery runs them without counting
   * an attempt, and leaves the row for the drain to take once more.
   */
  lemma HandlersWithinBudget(run: Run, feed: seq<Event>, settings: Settings, id: Id)
    requires Origin(run) == FRESH && Legal(run, feed, settings)
    ensures var w := After(run, feed, settings);
            w.handed[id] <= multiset(w.enqueued)[id] * Budget(settings.maxRetries) + 2 * w.recoveries
  {
    RunIsAccounted(run, feed, settings);
    var w := After(run, feed, settings);
    assert Accounted(multiset(w.enqueued)[id], w.handed[id], RowOf(w.rows, id), Budget(settings.maxRetries),
                     w.recoveries);
  }

  lemma {:induction false} DistinctIsOnce(ids: seq<Id>, id: Id)
    requires !Repeats(ids)
    ensures multiset(ids)[id] <= 1
  {
    if ids != [] {
      var past, last := ids[..|ids| - 1], ids[|ids| - 1];
      assert ids == past + [last];
      if Repeats(past) {
        RepeatStays(past, [last]);
      }
      DistinctIsOnce(past, id);
      assert id == last ==> id !in past;
    }
  }

  lemma EnteredOnce(w: World, feed: seq<Event>, settings: Settings, id: Id)
    requires Distinct(feed) && Contiguous(w, feed)
    requires w.handed[id] <= multiset(w.enqueued)[id] * Budget(settings.maxRetries) + 2 * w.recoveries
    ensures w.handed[id] <= Budget(settings.maxRetries) + 2 * w.recoveries
  {
    if Repeats(w.enqueued) {
      RepeatIsNotContiguous(w, feed);
    }
    DistinctIsOnce(w.enqueued, id);
  }

  /** ... and while no reply is stale, each event is enqueued once, so that is the bound for good. */
  lemma FreshRepliesKeepBudget(run: Run, feed: seq<Event>, settings: Settings, id: Id)
    requires Distinct(feed) && Origin(run) == FRESH && Legal(run, feed, settings) && NoStaleWrites(run, feed, settings)
    ensures After(run, feed, settings).handed[id]
            <= Budget(settings.maxRetries) + 2 * After(run, feed, settings).recoveries
  {
    EnqueuedOnceExactly(run, feed, settings);
    HandlersWithinBudget(run, feed, settings, id);
    EnteredOnce(After(run, feed, settings), feed, settings, id);
  }

  // ----- runs that reach the bound, and one that enqueues an event twice -----

  /** The one event has a row that is being processed, and nothing else has happened. */
  predicate Held(w: World, e: Event, attempts: nat, handed: nat, recoveries: nat) {
    && w.rows.Keys == {e.id} && w.rows[e.id].status.Processing? && w.rows[e.id].attempts == attempts
    && e.id in w.inHand && w.enqueued == [e.id] && w.handed[e.id] == handed && w.recoveries == recoveries
  }

  predicate Waiting(w: World, e: Event) {
    w.rows.Keys == {e.id} && w.rows[e.id].status.Pending? && w.rows[e.id].attempts == 0
  }

  /** So many polls ask for the feed's one event before any is answered. */
  lemma AskedRun(e: Event, settings: Settings, polls: nat) returns (run: Run)
    requires polls == 1 || polls == 2
    ensures Legal(run, [e], settings) && Origin(run) == FRESH
    ensures After(run, [e], settings) == FRESH.(asked := if polls == 1 then multiset{None} else multiset{None, None})
  {
    Goes(From(FRESH), Ask, [e], settings);
    run := Then(From(FRESH), Ask);
    if polls == 2 {
      Goes(run, Ask, [e], settings);
      run := Then(run, Ask);
    }
  }

  lemma ServedFromStart(e: Event)
    ensures Serves([e], None, [e])
  {
    assert AtCursor([e], None, 0) && [e] <= [e][0..];
  }

  lemma PollsFirst(w: World, e: Event, settings: Settings)
    requires e.id !in w.rows
    ensures var v := Next(w, Poll(None, [e], 0, [false]), settings);
            && v.rows == w.rows[e.id := Row(e.payload, Pending, 0, 0, None, None, 0)]
            && v.enqueued == w.enqueued + [e.id] && v.asked == w.asked - multiset{None}
            && v.handed == w.handed && v.recoveries == w.recoveries
  {
    assert FetchAll(Enqueued(w.rows, e, 0, false).0, Some(e.id), [e][1..], 0, [false][1..]).2 == 0;
    assert Ids([e])[..1] == [e.id];
  }

  /** A reply to a poll that asked without a cursor enqueues the event. */
  lemma PolledRun(run: Run, e: Event, settings: Settings) returns (r: Run)
    requires Legal(run, [e], settings)
    requires None in After(run, [e], settings).asked && After(run, [e], settings).rows == map[]
    ensures Legal(r, [e], settings) && Origin(r) == Origin(run)
    ensures var w, v := After(run, [e], settings), After(r, [e], settings);
            && Waiting(v, e) && v.enqueued == w.enqueued + [e.id] && v.asked == w.asked - multiset{None}
            && v.handed == w.handed && v.recoveries == w.recoveries
  {
    var step := Poll(None, [e], 0, [false]);
    ServedFromStart(e);
    Goes(run, step, [e], settings);
    PollsFirst(After(run, [e], settings), e, settings);
    r := Then(run, step);
  }

  /** Taken at the time it is due: it is the only row. */
  lemma TakenRun(run: Run, e: Event, settings: Settings) returns (r: Run)
    requires Legal(run, [e], settings) && After(run, [e], settings).rows.Keys == {e.id}
    requires var row := After(run, [e], settings).rows[e.id];
             row.status.Pending? || Retrying(row, settings.maxRetries)
    ensures Legal(r, [e], settings) && Origin(r) == Origin(run)
    ensures var w, v := After(run, [e], settings), After(r, [e], settings);
            && v.enqueued == w.enqueued && v.asked == w.asked
            && (w.enqueued == [e.id] ==> Held(v, e, w.rows[e.id].attempts + 1, w.handed[e.id] + 1, w.recoveries))
  {
    var step := Take(e.id, After(run, [e], settings).rows[e.id].nextAttempt, true);
    Goes(run, step, [e], settings);
    r := Then(run, step);
  }

  /** Refused, and taken again. */
  lemma RetriedRun(run: Run, e: Event, settings: Settings, attempts: nat, handed: nat) returns (r: Run)
    requires Legal(run, [e], settings) && Held(After(run, [e], settings), e, attempts, handed, 0)
    requires attempts < settings.maxRetries
    ensures Legal(r, [e], settings) && Origin(r) == Origin(run)
    ensures Held(After(r, [e], settings), e, attempts + 1, handed + 1, 0)
  {
    var step := Settle(e.id, Refused(""), 0, false);
    Goes(run, step, [e], settings);
    r := TakenRun(Then(run, step), e, settings);
  }

  /** Recovered, with the handlers run, and taken again. */
  lemma RecoveredRun(run: Run, e: Event, settings: Settings, attempts: nat, handed: nat, recoveries: nat)
    returns (r: Run)
    requires Legal(run, [e], settings) && Held(After(run, [e], settings), e, attempts, handed, recoveries)
    ensures Legal(r, [e], settings) && Origin(r) == Origin(run)
    ensures Held(After(r, [e], settings), e, attempts + 1, handed + 2, recoveries + 1)
  {
    var step := Recover(false, false);
    Goes(run, step, [e], settings);
    assert PendingIds(After(Then(run, step), [e], settings).rows) == {e.id};
    r := TakenRun(Then(run, step), e, settings);
  }

  lemma {:induction false} UsedUpRun(e: Event, settings: Settings, attempts: nat) returns (run: Run)
    requires 0 < attempts <= Budget(settings.maxRetries)
    ensures Legal(run, [e], settings) && Origin(run) == FRESH
    ensures Held(After(run, [e], settings), e, attempts, attempts, 0)
    decreases attempts
  {
    if attempts == 1 {
      var asked := AskedRun(e, settings, 1);
      var enqueued := PolledRun(asked, e, settings);
      run := TakenRun(enqueued, e, settings);
    } else {
      var past := UsedUpRun(e, settings, attempts - 1);
      run := RetriedRun(past, e, settings, attempts - 1, attempts - 1);
    }
  }

  lemma {:induction false} RecoveredOften(e: Event, settings: Settings, recoveries: nat) returns (run: Run)
    ensures Legal(run, [e], settings) && Origin(run) == FRESH
    ensures var budget := Budget(settings.maxRetries);
            Held(After(run, [e], settings), e, budget + recoveries, budget + 2 * recoveries, recoveries)
    decreases recoveries
  {
    var budget := Budget(settings.maxRetries);
    if recoveries == 0 {
      run := UsedUpRun(e, settings, budget);
    } else {
      var past := RecoveredOften(e, settings, recoveries - 1);
      run := RecoveredRun(past, e, settings, budget + recoveries - 1, budget + 2 * recoveries - 2, recoveries - 1);
    }
  }

  /** The bound is reached: for every number of recoveries, by a run that enqueues the event once. */
  lemma BudgetIsReached(e: Event, settings: Settings, recoveries: nat) returns (run: Run)
    ensures Legal(run, [e], settings) && Origin(run) == FRESH
    ensures var w := After(run, [e], settings);
            && w.enqueued == [e.id] && w.recoveries == recoveries
            && w.handed[e.id] == Budget(settings.maxRetries) + 2 * recoveries
  {
    run := RecoveredOften(e, settings, recoveries);
  }

  /** Its handlers succeed and it is cleaned away. */
  lemma ClearedRun(run: Run, e: Event, settings: Settings) returns (r: Run)
    requires Legal(run, [e], settings) && After(run, [e], settings).rows.Keys == {e.id}
    requires e.id in After(run, [e], settings).inHand
    ensures Legal(r, [e], settings) && Origin(r) == Origin(run)
    ensures var w, v := After(run, [e], settings), After(r, [e], settings);
            v.rows == map[] && v.enqueued == w.enqueued && v.asked == w.asked
  {
    Goes(run, Settle(e.id, Accepted, 0, false), [e], settings);
    var settled := Then(run, Settle(e.id, Accepted, 0, false));
    Goes(settled, Cleanup(0, 0, false), [e], settings);
    r := Then(settled, Cleanup(0, 0, false));
  }

  /** Of these polls under way, one enqueued the event, which was handled and cleaned away. */
  lemma HandledRun(e: Event, settings: Settings, polls: nat) returns (run: Run)
    requires polls == 1 || polls == 2
    ensures Legal(run, [e], settings) && Origin(run) == FRESH
    ensures var w := After(run, [e], settings);
            w.rows == map[] && w.enqueued == [e.id] && w.asked == if polls == 1 then multiset{} else multiset{None}
  {
    var asked := AskedRun(e, settings, polls);
    var enqueued := PolledRun(asked, e, settings);
    assert After(enqueued, [e], settings).enqueued == [e.id];
    var taken := TakenRun(enqueued, e, settings);
    run := ClearedRun(taken, e, settings);
  }

  lemma RepeatsTwice(id: Id)
    ensures Repeats([id, id])
  {
    assert [id, id][0] == [id, id][1];
  }

  /**
   * A run that enqueues an event twice: two polls ask with no cursor, the first reply enqueues the
   * event, it is handled and cleaned away, and the second reply enqueues it again.
   */
  lemma OverlappingPollsRepeat(e: Event, settings: Settings) returns (run: Run)
    ensures Legal(run, [e], settings) && Origin(run) == FRESH
    ensures After(run, [e], settings).enqueued == [e.id, e.id] && Repeats(After(run, [e], settings).enqueued)
  {
    var handled := HandledRun(e, settings, 2);
    run := PolledRun(handled, e, settings);
    assert [e.id] + [e.id] == [e.id, e.id];
    RepeatsTwice(e.id);
  }

  /** ... and one with a single poll at a time: the service forgets its cursor and reads the feed again. */
  lemma ForgottenCursorRepeats(e: Event, settings: Settings) returns (run: Run)
    ensures Legal(run, [e], settings) && Origin(run) == FRESH
    ensures After(run, [e], settings).enqueued == [e.id, e.id] && Repeats(After(run, [e], settings).enqueued)
  {
    var handled := HandledRun(e, settings, 1);
    var restarted := ForgetfulRestart(handled, e, settings);
    run := PolledRun(restarted, e, settings);
    assert [e.id] + [e.id] == [e.id, e.id];
    RepeatsTwice(e.id);
  }

  lemma ForgetfulRestart(run: Run, e: Event, settings: Settings) returns (r: Run)
    requires Legal(run, [e], settings)
    ensures Legal(r, [e], settings) && Origin(r) == Origin(run)
    ensures var w, v := After(run, [e], settings), After(r, [e], settings);
            v.rows == w.rows && v.enqueued == w.enqueued && v.asked == multiset{None}
  {
    Goes(run, Restart(None), [e], settings);
    Goes(Then(run, Restart(None)), Ask, [e], settings);
    r := Then(Then(run, Restart(None)), Ask);
  }
}
