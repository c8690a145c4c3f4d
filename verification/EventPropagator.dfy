/**
 * The poller and the drain that fill and empty the event table (engine-bridge/src/event-propagator.ts),
 * and what holds however their steps follow one another.
 */
module EventDelivery {
  import opened EventQueueing
  import opened Wrappers

  // ----- polling -----

  /** The batch loop of a poll: table and cursor afterwards, and how many events were enqueued. */
  function FetchAll(t: Table, cursor: Option<Id>, batch: seq<Event>, now: int, faults: seq<bool>)
    : (r: (Table, Option<Id>, nat))
    requires |faults| == |batch|
    ensures r.2 <= |batch|
    decreases |batch|
  {
    if batch == [] then
      (t, cursor, 0)
    else
      var (next, ok) := Enqueued(t, batch[0], now, faults[0]);
      if !ok then (t, cursor, 0)
      else
        var (last, end, n) := FetchAll(next, Some(batch[0].id), batch[1..], now, faults[1..]);
        (last, end, n + 1)
  }

  function Ids(events: seq<Event>): seq<Id> {
    seq(|events|, i requires 0 <= i < |events| => events[i].id)
  }

  /** A poll enqueues a prefix of its batch: up to the first event that is already queued or cannot be written. */
  lemma {:induction false} PollEnqueuesPrefix(t: Table, cursor: Option<Id>, batch: seq<Event>, now: int,
                                              faults: seq<bool>)
    requires |faults| == |batch|
    ensures var (last, end, n) := FetchAll(t, cursor, batch, now, faults);
            && end == (if n == 0 then cursor else Some(batch[n - 1].id))
            && (n < |batch| ==> faults[n] || batch[n].id in last)
            && (forall i :: 0 <= i < n ==> !faults[i] && batch[i].id !in t)
    decreases |batch|
  {
    if batch != [] && !faults[0] && batch[0].id !in t {
      PollEnqueuesPrefix(Enqueued(t, batch[0], now, faults[0]).0, Some(batch[0].id), batch[1..], now, faults[1..]);
    }
  }

  /** A row that a poll adds has not been taken yet, and is due at once. */
  predicate Untouched(row: Row) {
    row.status.Pending? && row.attempts == 0 && row.error.None? && row.nextAttempt == row.enqueueTime
  }

  /** ... and it adds these events as new rows, and changes no row that was there. */
  lemma {:induction false} PollAddsRows(t: Table, cursor: Option<Id>, batch: seq<Event>, now: int, faults: seq<bool>)
    requires |faults| == |batch|
    ensures var (last, _, n) := FetchAll(t, cursor, batch, now, faults);
            && (forall id :: id in t ==> id in last && last[id] == t[id])
            && (forall id :: id in last ==> id in t || (id in Ids(batch[..n]) && Untouched(last[id])))
            && (forall i :: 0 <= i < n ==> batch[i].id in last)
    decreases |batch|
  {
    if batch != [] && !faults[0] && batch[0].id !in t {
      var next := Enqueued(t, batch[0], now, faults[0]).0;
      PollAddsRows(next, Some(batch[0].id), batch[1..], now, faults[1..]);
      var n := FetchAll(next, Some(batch[0].id), batch[1..], now, faults[1..]).2;
      assert Ids(batch[..n + 1]) == [batch[0].id] + Ids(batch[1..][..n]);
    }
  }

  /** ... each with its payload, untried and due at once. */
  lemma {:induction false} PolledRows(t: Table, cursor: Option<Id>, batch: seq<Event>, now: int, faults: seq<bool>,
                                      i: nat)
    requires |faults| == |batch| && i < FetchAll(t, cursor, batch, now, faults).2
    ensures var last := FetchAll(t, cursor, batch, now, faults).0;
            batch[i].id in last && last[batch[i].id] == Row(batch[i].payload, Pending, 0, now, None, None, now)
    decreases |batch|
  {
    var next := Enqueued(t, batch[0], now, faults[0]).0;
    if i == 0 {
      PollAddsRows(next, Some(batch[0].id), batch[1..], now, faults[1..]);
    } else {
      PolledRows(next, Some(batch[0].id), batch[1..], now, faults[1..], i - 1);
    }
  }

  /**
   * A poll moves the cursor exactly when the first event it is given is not in the table and
   * can be written: an event that is already queued stops every later poll at the same place.
   */
  lemma PollAdvancesExactly(t: Table, cursor: Option<Id>, batch: seq<Event>, now: int, faults: seq<bool>)
    requires |faults| == |batch|
    ensures FetchAll(t, cursor, batch, now, faults).2 > 0 <==> batch != [] && !faults[0] && batch[0].id !in t
  {
  }

  class EventPropagator {
    var cursor: Option<Id>
    const queue: EventQueue

    constructor (cursorOverride: Option<Id>, queue: EventQueue)
      ensures cursor == cursorOverride && this.queue == queue
    {
      cursor, this.queue := cursorOverride, queue;
    }

    method FetchAndEnqueue(batch: seq<Event>, now: int, faults: seq<bool>)
      requires |faults| == |batch|
      modifies this, queue
      ensures var fetched := FetchAll(old(queue.rows), old(cursor), batch, now, faults);
              (queue.rows, cursor) == (fetched.0, fetched.1)
    {
      for i := 0 to |batch|
        invariant FetchAll(old(queue.rows), old(cursor), batch, now, faults).0
                  == FetchAll(queue.rows, cursor, batch[i..], now, faults[i..]).0
        invariant FetchAll(old(queue.rows), old(cursor), batch, now, faults).1
                  == FetchAll(queue.rows, cursor, batch[i..], now, faults[i..]).1
      {
        assert batch[i..][1..] == batch[i + 1..] && faults[i..][1..] == faults[i + 1..];
        var enqueued := queue.Enqueue(batch[i], now, faults[i]);
        if !enqueued {
          break;
        }
        cursor := Some(batch[i].id);
      }
    }

    /** The handlers' verdict on a row is written down. */
    method Report(id: Id, verdict: Verdict, now: int, fault: bool)
      modifies queue
      ensures queue.rows == Reported(old(queue.rows), id, verdict, now, fault, Settings(queue.maxRetries, queue.isTest))
      ensures !fault && id in old(queue.rows)
              ==> queue.rows[id].status == match verdict { case Accepted => Processed case Refused(_) => Failed }
    {
      match verdict
      case Accepted => var _ := queue.MarkProcessed(id, now, fault);
      case Refused(error) => var _ := queue.MarkFailed(id, error, now, fault);
    }

    /** One round of the drain: take a row, run its handlers, write down their verdict. */
    method HandleOne(now: int, later: int, verdict: Verdict, faultTake: bool, faultReport: bool, parses: string -> bool)
      returns (queued: Option<Id>, ghost spoilt: Option<Id>)
      modifies queue
      ensures var taken := if queued.Some? then queued else spoilt;
              taken.Some? ==> FirstInLine(old(queue.rows), queue.maxRetries, now, taken.value)
      ensures queued.Some?
              ==> spoilt.None? && parses(old(queue.rows)[queued.value].payload)
                  && queue.rows == Reported(Taken(old(queue.rows), queued.value), queued.value, verdict, later,
                                            faultReport, Settings(queue.maxRetries, queue.isTest))
      ensures spoilt.Some?
              ==> !parses(old(queue.rows)[spoilt.value].payload) && queue.rows == Taken(old(queue.rows), spoilt.value)
      ensures queued.None? && spoilt.None?
              ==> queue.rows == old(queue.rows) && (faultTake || NothingDue(queue.rows, queue.maxRetries, now))
    {
      queued, spoilt := queue.Dequeue(now, faultTake, parses);
      if queued.Some? {
        Report(queued.value, verdict, later, faultReport);
      }
    }

    /** The loop of the drain. */
    method Drain(clock: nat -> int, verdicts: nat -> Verdict, faults: nat -> bool, parses: string -> bool,
                 ghost run: Run, ghost feed: seq<Event>)
      returns (handed: seq<Id>, ghost r: Run)
      requires At(run, queue.rows, feed, Settings(queue.maxRetries, queue.isTest))
      modifies queue
      ensures |handed| <= TotalWeight(old(queue.rows), queue.maxRetries)
      ensures forall id :: id in handed ==> id in old(queue.rows) && parses(old(queue.rows)[id].payload)
      ensures At(r, queue.rows, feed, Settings(queue.maxRetries, queue.isTest))
      ensures var end := Drained(run, handed, clock, verdicts, faults);
              && (r == end || SpoiltTake(end, r, clock(2 * |handed|), old(queue.rows), parses))
              && (r == end && !faults(2 * |handed|) ==> NothingDue(queue.rows, queue.maxRetries, clock(2 * |handed|)))
    {
      handed, r := [], run;
      WeightIsNotNegative(queue.rows, queue.maxRetries);
      while true
        invariant |handed| + TotalWeight(queue.rows, queue.maxRetries) <= TotalWeight(old(queue.rows), queue.maxRetries)
        invariant TotalWeight(queue.rows, queue.maxRetries) >= 0
        invariant At(r, queue.rows, feed, Settings(queue.maxRetries, queue.isTest))
        invariant r == Drained(run, handed, clock, verdicts, faults)
        invariant forall id :: id in handed ==> id in old(queue.rows) && parses(old(queue.rows)[id].payload)
        invariant SamePayloads(old(queue.rows), queue.rows)
        decreases TotalWeight(queue.rows, queue.maxRetries)
      {
        var now, later := clock(2 * |handed|), clock(2 * |handed| + 1);
        ghost var t, settings := queue.rows, Settings(queue.maxRetries, queue.isTest);
        ghost var spoilt;
        var queued;
        queued, spoilt := HandleOne(now, later, verdicts(|handed|), faults(2 * |handed|), faults(2 * |handed| + 1),
                                    parses);
        if queued.None? {
          if spoilt.Some? {
            TakeGoes(r, t, spoilt.value, now, false, feed, settings);
            r := Then(r, Take(spoilt.value, now, false));
          }
          break;
        }
        r := RoundGoes(r, t, queued.value, now, verdicts(|handed|), later, faults(2 * |handed| + 1), feed, settings);
        WeightIsNotNegative(queue.rows, queue.maxRetries);
        OneMoreRound(run, handed, queued.value, clock, verdicts, faults);
        handed := handed + [queued.value];
      }
    }

    /**
     * The drain, between arrivals. It goes on as a run of the scheduler in which each event that is
     * handed out gets the verdict of its own handlers, hands out at most as many as the table's
     * weight allows, and ends at a row that does not parse, or when the database fails, or with
     * nothing left that is due: nothing pending, or failed with retries left, whose next attempt
     * has come. Of the events whose handlers never failed those enqueued by then are gone through.
     */
    method HandleQueuedEvents(clock: nat -> int, verdicts: nat -> Verdict, faults: nat -> bool, parses: string -> bool,
                              ghost run: Run, ghost feed: seq<Event>)
      returns (handed: seq<Id>, ghost r: Run)
      requires At(run, queue.rows, feed, Settings(queue.maxRetries, queue.isTest))
      modifies queue
      ensures |handed| <= TotalWeight(old(queue.rows), queue.maxRetries)
      ensures forall id :: id in handed ==> id in old(queue.rows) && parses(old(queue.rows)[id].payload)
      ensures At(r, queue.rows, feed, Settings(queue.maxRetries, queue.isTest))
      ensures var end := Drained(run, handed, clock, verdicts, faults);
              r == end || SpoiltTake(end, r, clock(2 * |handed|), old(queue.rows), parses)
      ensures var now, end := clock(2 * |handed|), Drained(run, handed, clock, verdicts, faults);
              !faults(2 * |handed|) && r == end
              ==> forall id :: id in queue.rows && queue.rows[id].nextAttempt <= now
                               ==> queue.rows[id].status != Pending
                                   && (queue.rows[id].status == Failed ==> queue.rows[id].attempts >= queue.maxRetries)
      ensures var now, end := clock(2 * |handed|), Drained(run, handed, clock, verdicts, faults);
              !faults(2 * |handed|) && r == end && Origin(run) == FRESH
              ==> forall id :: id in queue.rows && queue.rows[id].enqueueTime <= now && queue.rows[id].error.None?
                               ==> queue.rows[id].status != Pending
    {
      handed, r := Drain(clock, verdicts, faults, parses, run, feed);
      if r == Drained(run, handed, clock, verdicts, faults) && Origin(run) == FRESH {
        DrainedKeepsOrigin(run, handed, clock, verdicts, faults);
        UnfailedIsDueAtOnce(r, feed, Settings(queue.maxRetries, queue.isTest));
      }
    }

    /** The loop of the recovery over the rows it was given. */
    method ReportAll(pending: seq<Id>, clock: nat -> int, verdicts: nat -> Verdict, faults: nat -> bool,
                     ghost start: Run, ghost feed: seq<Event>)
      returns (ghost r: Run)
      requires AtHand(start, queue.rows, pending, 0, feed, Settings(queue.maxRetries, queue.isTest)) && !Repeats(pending)
      modifies queue
      ensures At(r, queue.rows, feed, Settings(queue.maxRetries, queue.isTest))
      ensures r == Settled(start, pending, clock, verdicts, faults)
      ensures (forall id :: id in old(queue.rows) && old(queue.rows)[id].status == Pending ==> id in pending)
              && (forall i :: 0 <= i < |pending| ==> !faults(i))
              ==> forall id :: id in queue.rows ==> queue.rows[id].status != Pending
    {
      r := start;
      ghost var before := PendingIds(queue.rows);
      assert pending[..0] == [];
      for i := 0 to |pending|
        invariant AtHand(r, queue.rows, pending, i, feed, Settings(queue.maxRetries, queue.isTest))
        invariant r == Settled(start, pending[..i], clock, verdicts, faults)
        invariant PendingIds(queue.rows) == before - Reports(pending, faults, i)
      {
        OneMoreVerdict(start, pending, i, clock, verdicts, faults);
        ReportsOneMore(before, pending, faults, i);
        r := VerdictGoes(r, queue.rows, pending, i, verdicts(i), clock(i), faults(i), feed,
                         Settings(queue.maxRetries, queue.isTest));
        Report(pending[i], verdicts(i), clock(i), faults(i));
      }
      assert pending[..|pending|] == pending;
      if (forall id :: id in before ==> id in pending) && forall i :: 0 <= i < |pending| ==> !faults(i) {
        AllReported(before, pending, faults);
        assert forall id :: id in queue.rows && queue.rows[id].status == Pending ==> id in PendingIds(queue.rows);
      }
    }

    /**
     * Recovery, undisturbed: rows left in processing or failed with retries left are pending again;
     * every pending row is handed to the handlers once, the earliest enqueued first, and gets their
     * verdict, unless that write fails, without being taken first. It is a run of the scheduler.
     */
    method RecoverPendingEvents(clock: nat -> int, verdicts: nat -> Verdict, resetFails: bool, readFails: bool,
                                faults: nat -> bool, ghost run: Run, ghost feed: seq<Event>)
      returns (pending: seq<Id>, ghost r: Run)
      requires At(run, queue.rows, feed, Settings(queue.maxRetries, queue.isTest))
      modifies queue
      ensures At(r, queue.rows, feed, Settings(queue.maxRetries, queue.isTest))
      ensures r == Settled(Then(run, Recover(resetFails, readFails)), pending, clock, verdicts, faults)
      ensures resetFails || readFails ==> pending == []
      ensures !resetFails && !readFails
              ==> forall id :: id in pending
                               <==> id in old(queue.rows)
                                    && (old(queue.rows)[id].status == Pending
                                        || old(queue.rows)[id].status == Processing
                                        || (old(queue.rows)[id].status == Failed
                                            && old(queue.rows)[id].attempts < queue.maxRetries))
      ensures EarliestFirst(old(queue.rows), pending)
      ensures !resetFails && !readFails && (forall i :: 0 <= i < |pending| ==> !faults(i))
              ==> forall id :: id in queue.rows ==> queue.rows[id].status != Pending
    {
      ghost var start := Then(run, Recover(resetFails, readFails));
      pending := queue.RecoverPending(resetFails, readFails);
      RecoverGoes(run, resetFails, readFails, old(queue.rows), queue.rows, pending, feed,
                  Settings(queue.maxRetries, queue.isTest));
      r := ReportAll(pending, clock, verdicts, faults, start, feed);
    }
  }

  /** The rows of a recovery whose handlers have not run yet. */
  ghost predicate StillInHand(w: World, pending: seq<Id>, from: nat) {
    forall j :: from <= j < |pending| ==> pending[j] in w.inHand
  }

  lemma OthersStayInHand(w: World, v: World, pending: seq<Id>, i: nat)
    requires i < |pending| && StillInHand(w, pending, i) && v.inHand == w.inHand - multiset{pending[i]}
    requires !Repeats(pending)
    ensures StillInHand(v, pending, i + 1)
  {
  }

  /** Those of the first rows whose verdict was written down. */
  function Reports(pending: seq<Id>, faults: nat -> bool, n: nat): set<Id>
    requires n <= |pending|
  {
    if n == 0 then {} else Reports(pending, faults, n - 1) + if faults(n - 1) then {} else {pending[n - 1]}
  }

  lemma ReportsOneMore(all: set<Id>, pending: seq<Id>, faults: nat -> bool, i: nat)
    requires i < |pending|
    ensures all - Reports(pending, faults, i + 1)
            == all - Reports(pending, faults, i) - if faults(i) then {} else {pending[i]}
  {
  }

  lemma {:induction false} ReportsAll(pending: seq<Id>, faults: nat -> bool, n: nat)
    requires n <= |pending|
    ensures (forall i :: 0 <= i < n ==> !faults(i))
            ==> forall i :: 0 <= i < n ==> pending[i] in Reports(pending, faults, n)
  {
    if n > 0 {
      ReportsAll(pending, faults, n - 1);
    }
  }

  lemma AllReported(ids: set<Id>, pending: seq<Id>, faults: nat -> bool)
    requires (forall i :: 0 <= i < |pending| ==> !faults(i)) && forall id :: id in ids ==> id in pending
    ensures ids - Reports(pending, faults, |pending|) == {}
  {
    ReportsAll(pending, faults, |pending|);
  }

  ghost predicate SamePayloads(t: Table, u: Table) {
    t.Keys == u.Keys && forall id :: id in t ==> t[id].payload == u[id].payload
  }

  // ----- polls, drains, recoveries and cleanups in any order -----

  datatype Verdict = Accepted | Refused(error: string)

  datatype Settings = Settings(maxRetries: int, isTest: bool)

  /**
   * `asked` are the cursors with which polls wait for the network; `inHand` are the deliveries
   * whose handlers are running; `enqueued`, `handed` and `accepted` are history: the ids ever
   * enqueued, in order, those ever handed to the handlers, and those all of whose handlers have
   * once succeeded.
   */
  datatype World = World(
    rows: Table, cursor: Option<Id>, asked: multiset<Option<Id>>, inHand: multiset<Id>,
    enqueued: seq<Id>, handed: multiset<Id>, accepted: set<Id>, recoveries: nat)

  datatype Step =
    | Ask
    | Poll(from: Option<Id>, batch: seq<Event>, now: int, faults: seq<bool>)
    | Take(id: Id, now: int, parses: bool)
    | Settle(id: Id, verdict: Verdict, now: int, fault: bool)
    | Recover(resetFails: bool, readFails: bool)
    | Cleanup(maxAgeMs: int, now: int, fault: bool)
    | Restart(saved: Option<Id>)

  const FRESH := World(map[], None, multiset{}, multiset{}, [], multiset{}, {}, 0)

  /** What the network serves after a cursor: some of the events that follow it in the feed. */
  ghost predicate Serves(feed: seq<Event>, cursor: Option<Id>, batch: seq<Event>) {
    exists i :: 0 <= i <= |feed| && AtCursor(feed, cursor, i) && batch <= feed[i..]
  }

  ghost predicate AtCursor(feed: seq<Event>, cursor: Option<Id>, i: int)
    requires 0 <= i <= |feed|
  {
    cursor == if i == 0 then None else Some(feed[i - 1].id)
  }

  ghost predicate Enabled(w: World, step: Step, feed: seq<Event>, settings: Settings) {
    match step
    case Poll(from, batch, _, faults) => |faults| == |batch| && from in w.asked && Serves(feed, from, batch)
    case Take(id, now, _) => FirstInLine(w.rows, settings.maxRetries, now, id)
    case Settle(id, _, _, _) => id in w.inHand
    case Restart(saved) => saved.Some? ==> saved.value in w.enqueued
    case _ => true
  }

  function Reported(t: Table, id: Id, verdict: Verdict, now: int, fault: bool, settings: Settings): Table {
    if fault then t
    else if verdict.Accepted? then MarkedProcessed(t, id, now)
    else MarkedFailed(t, id, verdict.error, now, settings.maxRetries, settings.isTest)
  }

  function Next(w: World, step: Step, settings: Settings): World
    requires step.Poll? ==> |step.faults| == |step.batch|
    requires step.Take? ==> step.id in w.rows
  {
    match step
    case Ask => w.(asked := w.asked + multiset{w.cursor})
    case Poll(from, batch, now, faults) =>
      var (rows, cursor, n) := FetchAll(w.rows, w.cursor, batch, now, faults);
      w.(rows := rows, cursor := cursor, asked := w.asked - multiset{from}, enqueued := w.enqueued + Ids(batch)[..n])
    case Take(id, now, parses) =>
      var out := if parses then multiset{id} else multiset{};
      w.(rows := Taken(w.rows, id), inHand := w.inHand + out, handed := w.handed + out)
    case Settle(id, verdict, now, fault) =>
      w.(rows := Reported(w.rows, id, verdict, now, fault, settings), inHand := w.inHand - multiset{id},
         accepted := if verdict.Accepted? then w.accepted + {id} else w.accepted)
    case Recover(resetFails, readFails) =>
      var rows := if resetFails then w.rows else Recovered(w.rows, settings.maxRetries);
      var out := if resetFails || readFails then multiset{} else multiset(PendingIds(rows));
      w.(rows := rows, recoveries := w.recoveries + 1, inHand := w.inHand + out, handed := w.handed + out)
    case Cleanup(maxAgeMs, now, fault) => if fault then w else w.(rows := Cleaned(w.rows, maxAgeMs, now))
    case Restart(saved) => w.(cursor := saved, asked := multiset{}, inHand := multiset{})
  }

  /** Steps one after another, from some world. */
  datatype Run = From(w: World) | Then(past: Run, step: Step)

  function Origin(run: Run): World {
    match run
    case From(w) => w
    case Then(past, _) => Origin(past)
  }

  ghost predicate Legal(run: Run, feed: seq<Event>, settings: Settings)
    decreases run, 0
  {
    run.Then? ==> Legal(run.past, feed, settings) && Enabled(After(run.past, feed, settings), run.step, feed, settings)
  }

  ghost function After(run: Run, feed: seq<Event>, settings: Settings): World
    requires Legal(run, feed, settings)
    decreases run, 1
  {
    match run
    case From(w) => w
    case Then(past, step) => Next(After(past, feed, settings), step, settings)
  }

  lemma Goes(run: Run, step: Step, feed: seq<Event>, settings: Settings)
    requires Legal(run, feed, settings) && Enabled(After(run, feed, settings), step, feed, settings)
    ensures Legal(Then(run, step), feed, settings)
    ensures After(Then(run, step), feed, settings) == Next(After(run, feed, settings), step, settings)
  {
  }

  /**
   * Handlers run for a row that is taken and parses, and for every row that a recovery finds pending, once it has
   * reset the table and read it back; a verdict ends one such run, and a restart all of them.
   */
  lemma HandlersRun(w: World, step: Step, feed: seq<Event>, settings: Settings, id: Id)
    requires Enabled(w, step, feed, settings)
    ensures var v := Next(w, step, settings);
            match step
            case Take(taken, _, parses) => v.inHand == if parses then w.inHand + multiset{taken} else w.inHand
            case Settle(reported, _, _, _) => v.inHand == w.inHand - multiset{reported}
            case Recover(resetFails, readFails) =>
              v.inHand[id] == w.inHand[id] + if !resetFails && !readFails && id in v.rows && v.rows[id].status == Pending
                                             then 1 else 0
            case Restart(_) => v.inHand == multiset{} && v.asked == multiset{}
            case _ => v.inHand == w.inHand
    ensures var v := Next(w, step, settings);
            v.handed[id]
            == if step.Settle? || step.Restart? then w.handed[id] else w.handed[id] + v.inHand[id] - w.inHand[id]
  {
  }

  /** A legal run that has come to this table. */
  ghost predicate At(run: Run, t: Table, feed: seq<Event>, settings: Settings) {
    Legal(run, feed, settings) && After(run, feed, settings).rows == t
  }

  ghost predicate AtHand(run: Run, t: Table, pending: seq<Id>, from: nat, feed: seq<Event>, settings: Settings) {
    At(run, t, feed, settings) && StillInHand(After(run, feed, settings), pending, from)
  }

  /** The reset of a recovery, by what it does to each row. */
  ghost predicate Reset(t: Table, u: Table, maxRetries: int) {
    && u.Keys == t.Keys
    && forall id :: id in u ==>
         u[id] == if t[id].status == Processing || (t[id].status == Failed && t[id].attempts < maxRetries)
                  then t[id].(status := Pending) else t[id]
  }

  lemma ResetIsRecovered(t: Table, u: Table, maxRetries: int)
    requires Reset(t, u, maxRetries)
    ensures u == Recovered(t, maxRetries)
  {
  }

  lemma RecoverGoes(run: Run, resetFails: bool, readFails: bool, t: Table, u: Table, pending: seq<Id>, feed: seq<Event>,
                    settings: Settings)
    requires At(run, t, feed, settings) && if resetFails then u == t else Reset(t, u, settings.maxRetries)
    requires if resetFails || readFails then pending == []
             else forall id :: id in pending ==> id in u && u[id].status == Pending
    ensures AtHand(Then(run, Recover(resetFails, readFails)), u, pending, 0, feed, settings)
  {
    if !resetFails {
      ResetIsRecovered(t, u, settings.maxRetries);
    }
    Goes(run, Recover(resetFails, readFails), feed, settings);
  }

  lemma TakeGoes(run: Run, t: Table, id: Id, now: int, parses: bool, feed: seq<Event>, settings: Settings)
    requires At(run, t, feed, settings) && FirstInLine(t, settings.maxRetries, now, id)
    ensures At(Then(run, Take(id, now, parses)), Taken(t, id), feed, settings)
    ensures parses ==> id in After(Then(run, Take(id, now, parses)), feed, settings).inHand
  {
    Goes(run, Take(id, now, parses), feed, settings);
  }

  /** A round of the drain, as steps of the scheduler; it uses up weight. */
  lemma RoundGoes(run: Run, t: Table, id: Id, now: int, verdict: Verdict, later: int, fault: bool, feed: seq<Event>,
                  settings: Settings)
    returns (r: Run)
    requires At(run, t, feed, settings) && FirstInLine(t, settings.maxRetries, now, id)
    ensures r == Then(Then(run, Take(id, now, true)), Settle(id, verdict, later, fault))
    ensures var u := Reported(Taken(t, id), id, verdict, later, fault, settings);
            && At(r, u, feed, settings) && SamePayloads(t, u)
            && TotalWeight(u, settings.maxRetries) + 1 <= TotalWeight(t, settings.maxRetries)
  {
    TakeGoes(run, t, id, now, true, feed, settings);
    var taken := Then(run, Take(id, now, true));
    Goes(taken, Settle(id, verdict, later, fault), feed, settings);
    r := Then(taken, Settle(id, verdict, later, fault));
    RoundLowersWeight(t, id, now, verdict, later, fault, settings);
  }

  lemma RoundLowersWeight(t: Table, id: Id, now: int, verdict: Verdict, later: int, fault: bool, settings: Settings)
    requires FirstInLine(t, settings.maxRetries, now, id)
    ensures TotalWeight(Reported(Taken(t, id), id, verdict, later, fault, settings), settings.maxRetries) + 1
            <= TotalWeight(t, settings.maxRetries)
  {
    TakingLowersWeight(t, id, settings.maxRetries, now);
    var error := if verdict.Refused? then verdict.error else "";
    ReportingAddsNoWeight(Taken(t, id), id, settings.maxRetries, error, later, settings.isTest);
  }

  /** A verdict of a recovery, as a step of the scheduler. */
  lemma VerdictGoes(run: Run, t: Table, pending: seq<Id>, i: nat, verdict: Verdict, now: int, fault: bool,
                    feed: seq<Event>, settings: Settings)
    returns (r: Run)
    requires i < |pending| && AtHand(run, t, pending, i, feed, settings) && !Repeats(pending)
    ensures r == Then(run, Settle(pending[i], verdict, now, fault))
    ensures var u := Reported(t, pending[i], verdict, now, fault, settings);
            && AtHand(r, u, pending, i + 1, feed, settings)
            && PendingIds(u) == PendingIds(t) - if fault then {} else {pending[i]}
  {
    Goes(run, Settle(pending[i], verdict, now, fault), feed, settings);
    r := Then(run, Settle(pending[i], verdict, now, fault));
    OthersStayInHand(After(run, feed, settings), After(r, feed, settings), pending, i);
  }

  /** The run goes on with a row that is taken and does not parse. */
  predicate SpoiltTake(run: Run, r: Run, now: int, rows: Table, parses: string -> bool) {
    && r.Then? && r.past == run && r.step.Take? && r.step.now == now && !r.step.parses
    && r.step.id in rows && !parses(rows[r.step.id].payload)
  }

  /** ... with rounds of the drain: each of these is taken and handed out, and gets the verdict of its handlers. */
  function Drained(run: Run, ids: seq<Id>, clock: nat -> int, verdicts: nat -> Verdict, faults: nat -> bool): Run {
    if ids == [] then run
    else
      var n := |ids| - 1;
      var taken := Then(Drained(run, ids[..n], clock, verdicts, faults), Take(ids[n], clock(2 * n), true));
      Then(taken, Settle(ids[n], verdicts(n), clock(2 * n + 1), faults(2 * n + 1)))
  }

  lemma OneMoreRound(run: Run, ids: seq<Id>, id: Id, clock: nat -> int, verdicts: nat -> Verdict, faults: nat -> bool)
    ensures var n := |ids|;
            Drained(run, ids + [id], clock, verdicts, faults)
            == Then(Then(Drained(run, ids, clock, verdicts, faults), Take(id, clock(2 * n), true)),
                    Settle(id, verdicts(n), clock(2 * n + 1), faults(2 * n + 1)))
  {
    assert (ids + [id])[..|ids|] == ids;
  }

  /** ... with the verdicts on the rows of a recovery. */
  function Settled(run: Run, ids: seq<Id>, clock: nat -> int, verdicts: nat -> Verdict, faults: nat -> bool): Run {
    if ids == [] then run
    else
      var n := |ids| - 1;
      Then(Settled(run, ids[..n], clock, verdicts, faults), Settle(ids[n], verdicts(n), clock(n), faults(n)))
  }

  lemma OneMoreVerdict(run: Run, pending: seq<Id>, n: nat, clock: nat -> int, verdicts: nat -> Verdict,
                       faults: nat -> bool)
    requires n < |pending|
    ensures Settled(run, pending[..n + 1], clock, verdicts, faults)
            == Then(Settled(run, pending[..n], clock, verdicts, faults),
                    Settle(pending[n], verdicts(n), clock(n), faults(n)))
  {
    assert pending[..n + 1][..n] == pending[..n];
  }

  lemma {:induction false} DrainedKeepsOrigin(run: Run, ids: seq<Id>, clock: nat -> int, verdicts: nat -> Verdict,
                                              faults: nat -> bool)
    ensures Origin(Drained(run, ids, clock, verdicts, faults)) == Origin(run)
  {
    if ids != [] {
      DrainedKeepsOrigin(run, ids[..|ids| - 1], clock, verdicts, faults);
    }
  }

  // ----- a row that has not failed is due at once -----

  ghost predicate UnfailedIsDue(t: Table) {
    forall id :: id in t && t[id].error.None? ==> t[id].nextAttempt == t[id].enqueueTime
  }

  lemma PollKeepsUnfailedDue(t: Table, cursor: Option<Id>, batch: seq<Event>, now: int, faults: seq<bool>)
    requires UnfailedIsDue(t) && |faults| == |batch|
    ensures UnfailedIsDue(FetchAll(t, cursor, batch, now, faults).0)
  {
    PollAddsRows(t, cursor, batch, now, faults);
  }

  lemma ReportKeepsUnfailedDue(t: Table, id: Id, verdict: Verdict, now: int, fault: bool, settings: Settings)
    requires UnfailedIsDue(t)
    ensures UnfailedIsDue(Reported(t, id, verdict, now, fault, settings))
  {
  }

  lemma ResetKeepsUnfailedDue(t: Table, maxRetries: int)
    requires UnfailedIsDue(t)
    ensures UnfailedIsDue(Recovered(t, maxRetries))
  {
  }

  lemma StepKeepsUnfailedDue(w: World, step: Step, feed: seq<Event>, settings: Settings)
    requires UnfailedIsDue(w.rows) && Enabled(w, step, feed, settings)
    ensures UnfailedIsDue(Next(w, step, settings).rows)
  {
    match step
    case Poll(_, batch, now, faults) => PollKeepsUnfailedDue(w.rows, w.cursor, batch, now, faults);
    case Settle(id, verdict, now, fault) => ReportKeepsUnfailedDue(w.rows, id, verdict, now, fault, settings);
    case Recover(_, _) => ResetKeepsUnfailedDue(w.rows, settings.maxRetries);
    case _ =>
  }

  lemma {:induction false} UnfailedIsDueAtOnce(run: Run, feed: seq<Event>, settings: Settings)
    requires Origin(run) == FRESH && Legal(run, feed, settings)
    ensures UnfailedIsDue(After(run, feed, settings).rows)
  {
    if run.Then? {
      UnfailedIsDueAtOnce(run.past, feed, settings);
      StepKeepsUnfailedDue(After(run.past, feed, settings), run.step, feed, settings);
    }
  }

  // ----- no event is lost or skipped -----

  ghost predicate Distinct(feed: seq<Event>) {
    forall i, j :: 0 <= i < j < |feed| ==> feed[i].id != feed[j].id
  }

  /** This cursor stands among the first events of the feed, or before them all. */
  ghost predicate Within(feed: seq<Event>, cursor: Option<Id>, reach: nat) {
    exists i :: 0 <= i <= reach && i <= |feed| && AtCursor(feed, cursor, i)
  }

  /** What was ever enqueued is these first events of the feed, and nothing looks further. */
  ghost predicate Reached(w: World, feed: seq<Event>, reach: nat) {
    && reach <= |feed|
    && (forall i :: 0 <= i < reach ==> feed[i].id in w.enqueued)
    && (forall id :: id in w.enqueued ==> id in Ids(feed[..reach]))
    && Within(feed, w.cursor, reach)
    && (forall c :: c in w.asked ==> Within(feed, c, reach))
  }

  /** Whatever was enqueued is still in the table or has been accepted by all its handlers. */
  ghost predicate Kept(w: World) {
    && (forall id :: id in w.rows ==> id in w.enqueued)
    && (forall id :: id in w.enqueued ==> id in w.rows || id in w.accepted)
    && (forall id :: id in w.rows && w.rows[id].status.Processed? ==> id in w.accepted)
  }

  lemma CursorFixesPlace(feed: seq<Event>, cursor: Option<Id>, i: nat, j: nat)
    requires Distinct(feed) && i <= |feed| && j <= |feed| && AtCursor(feed, cursor, i) && AtCursor(feed, cursor, j)
    ensures i == j
  {
  }

  /** A reply continues the feed from where its poll asked. */
  lemma ReplyContinues(w: World, step: Step, feed: seq<Event>, reach: nat, settings: Settings) returns (i: nat)
    requires Distinct(feed) && step.Poll? && Enabled(w, step, feed, settings) && Within(feed, step.from, reach)
    ensures i <= reach && i <= |feed| && AtCursor(feed, step.from, i) && step.batch <= feed[i..]
  {
    i :| 0 <= i <= |feed| && AtCursor(feed, step.from, i) && step.batch <= feed[i..];
    var j :| 0 <= j <= reach && j <= |feed| && AtCursor(feed, step.from, j);
    CursorFixesPlace(feed, step.from, i, j);
  }

  lemma BatchIsFeed(feed: seq<Event>, k: nat, batch: seq<Event>, more: seq<Id>)
    requires k <= |feed| && batch <= feed[k..] && |more| <= |batch|
             && forall j :: 0 <= j < |more| ==> more[j] == batch[j].id
    ensures k + |more| <= |feed|
    ensures forall i :: 0 <= i < |more| ==> more[i] == feed[k + i].id
    ensures more != [] ==> feed[k + |more| - 1] == batch[|more| - 1]
  {
    assert forall i :: 0 <= i < |batch| ==> batch[i] == feed[k..][i];
  }

  lemma IdsInOrder(feed: seq<Event>, reach: nat, id: Id)
    requires reach <= |feed|
    ensures id in Ids(feed[..reach]) <==> exists i :: 0 <= i < reach && feed[i].id == id
  {
    if i :| 0 <= i < reach && feed[i].id == id {
      assert Ids(feed[..reach])[i] == id;
    }
  }

  /** Ids of the first events, and some more from a place among them on. */
  lemma IdsReach(feed: seq<Event>, ids: seq<Id>, reach: nat, more: seq<Id>, i: nat)
    requires i <= reach <= |feed| && i + |more| <= |feed|
    requires forall j :: 0 <= j < reach ==> feed[j].id in ids
    requires forall id :: id in ids ==> id in Ids(feed[..reach])
    requires forall j :: 0 <= j < |more| ==> more[j] == feed[i + j].id
    ensures var further := if i + |more| > reach then i + |more| else reach;
            && (forall j :: 0 <= j < further ==> feed[j].id in ids + more)
            && (forall id :: id in ids + more ==> id in Ids(feed[..further]))
  {
    var further := if i + |more| > reach then i + |more| else reach;
    forall j | 0 <= j < further ensures feed[j].id in ids + more {
      if j >= reach {
        assert more[j - i] == feed[j].id;
      }
    }
    forall id | id in ids + more ensures id in Ids(feed[..further]) {
      IdsInOrder(feed, reach, id);
      IdsInOrder(feed, further, id);
      if id !in ids {
        var j :| 0 <= j < |more| && more[j] == id;
        assert feed[i + j].id == id;
      }
    }
  }

  lemma WithinFurther(feed: seq<Event>, cursor: Option<Id>, reach: nat, further: nat)
    requires Within(feed, cursor, reach) && reach <= further
    ensures Within(feed, cursor, further)
  {
  }

  lemma ReachesFurther(w: World, v: World, feed: seq<Event>, reach: nat, more: seq<Id>, i: nat) returns (further: nat)
    requires Reached(w, feed, reach) && v.enqueued == w.enqueued + more && forall c :: c in v.asked ==> c in w.asked
    requires i <= reach && i + |more| <= |feed| && forall j :: 0 <= j < |more| ==> more[j] == feed[i + j].id
    requires if more == [] then v.cursor == w.cursor else AtCursor(feed, v.cursor, i + |more|)
    ensures Reached(v, feed, further)
  {
    IdsReach(feed, w.enqueued, reach, more, i);
    further := if i + |more| > reach then i + |more| else reach;
    if more == [] {
      WithinFurther(feed, w.cursor, reach, further);
    }
    forall c | c in v.asked ensures Within(feed, c, further) {
      WithinFurther(feed, c, reach, further);
    }
  }

  /** What a poll appends: the ids of a prefix of its batch. */
  lemma PollAppends(w: World, step: Step, settings: Settings) returns (more: seq<Id>)
    requires step.Poll? && |step.faults| == |step.batch|
    ensures |more| <= |step.batch| && forall j :: 0 <= j < |more| ==> more[j] == step.batch[j].id
    ensures more != [] ==> !step.faults[0] && step.batch[0].id !in w.rows
    ensures var v := Next(w, step, settings);
            && v.enqueued == w.enqueued + more && (forall c :: c in v.asked ==> c in w.asked)
            && v.cursor == if more == [] then w.cursor else Some(step.batch[|more| - 1].id)
  {
    PollEnqueuesPrefix(w.rows, w.cursor, step.batch, step.now, step.faults);
    more := Ids(step.batch)[..FetchAll(w.rows, w.cursor, step.batch, step.now, step.faults).2];
  }

  lemma PollKeepsReached(w: World, step: Step, feed: seq<Event>, settings: Settings, reach: nat) returns (further: nat)
    requires Distinct(feed) && Reached(w, feed, reach) && step.Poll? && Enabled(w, step, feed, settings)
    ensures Reached(Next(w, step, settings), feed, further)
  {
    var more := PollAppends(w, step, settings);
    var i := ReplyContinues(w, step, feed, reach, settings);
    BatchIsFeed(feed, i, step.batch, more);
    further := ReachesFurther(w, Next(w, step, settings), feed, reach, more, i);
  }

  /** A cursor that was saved at some time, or none, stands among what was enqueued. */
  lemma SavedIsWithin(w: World, feed: seq<Event>, reach: nat, saved: Option<Id>)
    requires reach <= |feed| && (forall id :: id in w.enqueued ==> id in Ids(feed[..reach]))
    requires saved.Some? ==> saved.value in w.enqueued
    ensures Within(feed, saved, reach)
  {
    if saved.None? {
      assert AtCursor(feed, saved, 0);
    } else {
      IdsInOrder(feed, reach, saved.value);
      var i :| 0 <= i < reach && feed[i].id == saved.value;
      assert AtCursor(feed, saved, i + 1);
    }
  }

  lemma StepKeepsReached(w: World, step: Step, feed: seq<Event>, settings: Settings, reach: nat) returns (further: nat)
    requires Distinct(feed) && Reached(w, feed, reach) && Enabled(w, step, feed, settings)
    ensures Reached(Next(w, step, settings), feed, further)
  {
    if step.Poll? {
      further := PollKeepsReached(w, step, feed, settings, reach);
    } else {
      further := reach;
      if step.Restart? {
        SavedIsWithin(w, feed, reach, step.saved);
      }
    }
  }

  lemma PollKeeps(w: World, step: Step, feed: seq<Event>, settings: Settings)
    requires Kept(w) && step.Poll? && Enabled(w, step, feed, settings)
    ensures Kept(Next(w, step, settings))
  {
    PollAddsRows(w.rows, w.cursor, step.batch, step.now, step.faults);
    var v, n := Next(w, step, settings), FetchAll(w.rows, w.cursor, step.batch, step.now, step.faults).2;
    assert Ids(step.batch)[..n] == Ids(step.batch[..n]);
    forall id | id in v.enqueued ensures id in v.rows || id in v.accepted {
      if id !in w.enqueued {
        var i :| 0 <= i < n && id == step.batch[i].id;
      }
    }
  }

  lemma RecoverKeeps(w: World, step: Step, settings: Settings)
    requires Kept(w) && step.Recover?
    ensures Kept(Next(w, step, settings))
  {
  }

  lemma SettleKeeps(w: World, step: Step, settings: Settings)
    requires Kept(w) && step.Settle?
    ensures Kept(Next(w, step, settings))
  {
  }

  lemma StepKeeps(w: World, step: Step, feed: seq<Event>, settings: Settings)
    requires Kept(w) && Enabled(w, step, feed, settings)
    ensures Kept(Next(w, step, settings))
  {
    match step
    case Poll(_, _, _, _) => PollKeeps(w, step, feed, settings);
    case Settle(_, _, _, _) => SettleKeeps(w, step, settings);
    case Recover(_, _) => RecoverKeeps(w, step, settings);
    case _ =>
  }

  /**
   * From an empty table and no cursor, over every run of polls, however they overlap and with
   * writes failing at will, drains, recoveries, cleanups and restarts, with the cursor of any time or none: the
   * ids ever enqueued are those of the first events of the feed, without a gap, at least up to the
   * cursor; and an id that is no longer in the table had all its handlers succeed.
   */
  lemma {:induction false} NothingLostOrSkipped(run: Run, feed: seq<Event>, settings: Settings)
    requires Distinct(feed) && Origin(run) == FRESH && Legal(run, feed, settings)
    ensures var w := After(run, feed, settings); Kept(w) && exists reach :: Reached(w, feed, reach)
  {
    match run
    case From(_) =>
      assert AtCursor(feed, None, 0);
      assert Reached(FRESH, feed, 0);
    case Then(past, step) =>
      NothingLostOrSkipped(past, feed, settings);
      var w := After(past, feed, settings);
      var reach :| Reached(w, feed, reach);
      var further := StepKeepsReached(w, step, feed, settings, reach);
      StepKeeps(w, step, feed, settings);
  }

  // ----- when each event is enqueued once -----

  /** What was enqueued is the beginning of the feed, each event once. */
  ghost predicate Contiguous(w: World, feed: seq<Event>) {
    |w.enqueued| <= |feed| && w.enqueued == Ids(feed[..|w.enqueued|])
  }

  /** The cursor just past what was enqueued last. */
  function Frontier(w: World): Option<Id> {
    if w.enqueued == [] then None else Some(w.enqueued[|w.enqueued| - 1])
  }

  /**
   * A reply to a poll that asked with another cursor than that, because another poll overtook it or
   * a restart brought an old cursor or none; its first event is not in the table and can be written.
   */
  predicate StaleWrite(w: World, step: Step) {
    step.Poll? && step.from != Frontier(w) && step.batch != [] && step.faults != [] && !step.faults[0]
      && step.batch[0].id !in w.rows
  }

  ghost predicate NoStaleWrites(run: Run, feed: seq<Event>, settings: Settings)
    requires Legal(run, feed, settings)
  {
    run.Then? ==> NoStaleWrites(run.past, feed, settings) && !StaleWrite(After(run.past, feed, settings), run.step)
  }

  /** The cursor, and every poll under way, is one the feed had passed. */
  ghost predicate Behind(w: World, feed: seq<Event>) {
    Within(feed, w.cursor, |w.enqueued|) && forall c :: c in w.asked ==> Within(feed, c, |w.enqueued|)
  }

  ghost predicate Repeats(ids: seq<Id>) {
    exists i, j :: 0 <= i < j < |ids| && ids[i] == ids[j]
  }

  lemma RepeatIsNotContiguous(w: World, feed: seq<Event>)
    requires Distinct(feed) && Repeats(w.enqueued)
    ensures !Contiguous(w, feed)
  {
    var i, j :| 0 <= i < j < |w.enqueued| && w.enqueued[i] == w.enqueued[j];
    assert feed != [] && |w.enqueued| <= |feed| ==> feed[i].id != feed[j].id;
  }

  lemma RepeatStays(ids: seq<Id>, more: seq<Id>)
    requires Repeats(ids)
    ensures Repeats(ids + more)
  {
    var i, j :| 0 <= i < j < |ids| && ids[i] == ids[j];
    assert (ids + more)[i] == (ids + more)[j];
  }

  lemma IdsContinue(feed: seq<Event>, ids: seq<Id>, more: seq<Id>)
    requires |ids| + |more| <= |feed| && ids == Ids(feed[..|ids|])
    requires forall i :: 0 <= i < |more| ==> more[i] == feed[|ids| + i].id
    ensures ids + more == Ids(feed[..|ids| + |more|])
  {
    forall i | 0 <= i < |ids| ensures ids[i] == feed[i].id {
      assert Ids(feed[..|ids|])[i] == feed[i].id;
    }
  }

  lemma FrontierIsLast(w: World, feed: seq<Event>)
    requires Contiguous(w, feed)
    ensures AtCursor(feed, Frontier(w), |w.enqueued|)
  {
    var n := |w.enqueued|;
    assert n > 0 ==> w.enqueued[n - 1] == feed[..n][n - 1].id;
  }

  lemma FreshReplyContinues(w: World, feed: seq<Event>, batch: seq<Event>)
    requires Distinct(feed) && Contiguous(w, feed) && Serves(feed, Frontier(w), batch)
    ensures batch <= feed[|w.enqueued|..]
  {
    FrontierIsLast(w, feed);
    var i :| 0 <= i <= |feed| && AtCursor(feed, Frontier(w), i) && batch <= feed[i..];
    CursorFixesPlace(feed, Frontier(w), i, |w.enqueued|);
  }

  /** A reply that is not stale, or writes nothing, keeps the enqueued ids the feed so far. */
  lemma PollKeepsContiguous(w: World, step: Step, feed: seq<Event>, settings: Settings)
    requires Distinct(feed) && Contiguous(w, feed) && Behind(w, feed) && step.Poll?
             && Enabled(w, step, feed, settings)
    requires !StaleWrite(w, step)
    ensures Contiguous(Next(w, step, settings), feed) && Behind(Next(w, step, settings), feed)
  {
    var more := PollAppends(w, step, settings);
    if more != [] {
      FreshReplyContinues(w, feed, step.batch);
    }
    AppendedIsContiguous(w, Next(w, step, settings), feed, step.batch, more);
  }

  lemma AppendedIsContiguous(w: World, v: World, feed: seq<Event>, batch: seq<Event>, more: seq<Id>)
    requires Contiguous(w, feed) && Behind(w, feed) && (more != [] ==> batch <= feed[|w.enqueued|..])
    requires |more| <= |batch| && forall j :: 0 <= j < |more| ==> more[j] == batch[j].id
    requires v.enqueued == w.enqueued + more && forall c :: c in v.asked ==> c in w.asked
    requires v.cursor == if more == [] then w.cursor else Some(batch[|more| - 1].id)
    ensures Contiguous(v, feed) && Behind(v, feed)
  {
    if more != [] {
      BatchIsFeed(feed, |w.enqueued|, batch, more);
    }
    AppendingIsContiguous(w, v, feed, more);
    LeavesBehind(w, v, feed);
  }

  lemma AppendingIsContiguous(w: World, v: World, feed: seq<Event>, more: seq<Id>)
    requires Contiguous(w, feed) && v.enqueued == w.enqueued + more && |v.enqueued| <= |feed|
    requires forall i :: 0 <= i < |more| ==> more[i] == feed[|w.enqueued| + i].id
    requires v.cursor == if more == [] then w.cursor else Some(feed[|v.enqueued| - 1].id)
    ensures Contiguous(v, feed) && (v.cursor == w.cursor || Within(feed, v.cursor, |v.enqueued|))
  {
    IdsContinue(feed, w.enqueued, more);
    if more != [] {
      assert AtCursor(feed, v.cursor, |v.enqueued|);
    }
  }

  lemma LeavesBehind(w: World, v: World, feed: seq<Event>)
    requires Behind(w, feed) && |w.enqueued| <= |v.enqueued| && forall c :: c in v.asked ==> c in w.asked
    requires v.cursor == w.cursor || Within(feed, v.cursor, |v.enqueued|)
    ensures Behind(v, feed)
  {
    WithinFurther(feed, w.cursor, |w.enqueued|, |v.enqueued|);
    forall c | c in v.asked ensures Within(feed, c, |v.enqueued|) {
      WithinFurther(feed, c, |w.enqueued|, |v.enqueued|);
    }
  }

  lemma StaleWriteRepeats(w: World, step: Step, feed: seq<Event>, settings: Settings)
    requires Distinct(feed) && Contiguous(w, feed) && Behind(w, feed) && Enabled(w, step, feed, settings)
    requires StaleWrite(w, step)
    ensures Repeats(Next(w, step, settings).enqueued)
  {
    var v, k := Next(w, step, settings), |w.enqueued|;
    PollAdvancesExactly(w.rows, w.cursor, step.batch, step.now, step.faults);
    FrontierIsLast(w, feed);
    var i := ReplyContinues(w, step, feed, k, settings);
    assert i != k;
    assert v.enqueued[i] == feed[i].id == step.batch[0].id == v.enqueued[k];
  }

  lemma StepKeepsContiguous(w: World, step: Step, feed: seq<Event>, settings: Settings)
    requires Distinct(feed) && Contiguous(w, feed) && Behind(w, feed) && Enabled(w, step, feed, settings)
    requires !StaleWrite(w, step)
    ensures Contiguous(Next(w, step, settings), feed) && Behind(Next(w, step, settings), feed)
  {
    if step.Poll? {
      PollKeepsContiguous(w, step, feed, settings);
    } else if step.Restart? {
      SavedIsWithin(w, feed, |w.enqueued|, step.saved);
    }
  }

  /**
   * In every such run the ids enqueued are the beginning of the feed, once each and in order,
   * exactly when no reply to a poll that asked with an older cursor found its first event gone
   * from the table. Overlapping polls and restarts with an old cursor, or none, may enqueue an
   * event again, after a cleanup, and only then.
   */
  lemma {:induction false} EnqueuedOnceExactly(run: Run, feed: seq<Event>, settings: Settings)
    requires Distinct(feed) && Origin(run) == FRESH && Legal(run, feed, settings)
    ensures var w := After(run, feed, settings);
            && (Contiguous(w, feed) <==> NoStaleWrites(run, feed, settings))
            && (if Contiguous(w, feed) then Behind(w, feed) else Repeats(w.enqueued))
  {
    match run
    case From(_) => assert AtCursor(feed, None, 0);
    case Then(past, step) =>
      EnqueuedOnceExactly(past, feed, settings);
      var w := After(past, feed, settings);
      if !Contiguous(w, feed) {
        EnqueuedGrows(w, step, settings);
        RepeatIsNotContiguous(After(run, feed, settings), feed);
      } else if StaleWrite(w, step) {
        StaleWriteRepeats(w, step, feed, settings);
        RepeatIsNotContiguous(After(run, feed, settings), feed);
      } else {
        StepKeepsContiguous(w, step, feed, settings);
      }
  }

  lemma EnqueuedGrows(w: World, step: Step, settings: Settings)
    requires Repeats(w.enqueued) && (step.Poll? ==> |step.faults| == |step.batch|) && (step.Take? ==> step.id in w.rows)
    ensures Repeats(Next(w, step, settings).enqueued)
  {
    if step.Poll? {
      RepeatStays(w.enqueued, Ids(step.batch)[..FetchAll(w.rows, w.cursor, step.batch, step.now, step.faults).2]);
    }
  }

  /** No poll asks while another is under way, and every restart has the cursor just lost. */
  ghost predicate OneAtATime(run: Run, feed: seq<Event>, settings: Settings)
    requires Legal(run, feed, settings)
  {
    run.Then? ==>
      && OneAtATime(run.past, feed, settings)
      && var w := After(run.past, feed, settings);
         (run.step.Ask? ==> w.asked == multiset{}) && (run.step.Restart? ==> run.step.saved == w.cursor)
  }

  predicate Lone(w: World) {
    w.cursor == Frontier(w) && (w.asked == multiset{} || w.asked == multiset{w.cursor})
  }

  lemma PollKeepsLone(w: World, step: Step, settings: Settings)
    requires Lone(w) && step.Poll? && |step.faults| == |step.batch| && step.from in w.asked
    ensures Lone(Next(w, step, settings)) && !StaleWrite(w, step)
  {
    var more := PollAppends(w, step, settings);
    var v := Next(w, step, settings);
    assert more != [] ==> v.enqueued[|v.enqueued| - 1] == more[|more| - 1] == step.batch[|more| - 1].id;
    assert more == [] ==> v.enqueued == w.enqueued;
    assert v.asked == multiset{};
  }

  lemma StepKeepsLone(w: World, step: Step, feed: seq<Event>, settings: Settings)
    requires Lone(w) && Enabled(w, step, feed, settings)
    requires (step.Ask? ==> w.asked == multiset{}) && (step.Restart? ==> step.saved == w.cursor)
    ensures Lone(Next(w, step, settings)) && !StaleWrite(w, step)
  {
    if step.Poll? {
      PollKeepsLone(w, step, settings);
    }
  }

  lemma {:induction false} LonePollsAreFresh(run: Run, feed: seq<Event>, settings: Settings)
    requires Origin(run) == FRESH && Legal(run, feed, settings) && OneAtATime(run, feed, settings)
    ensures Lone(After(run, feed, settings)) && NoStaleWrites(run, feed, settings)
  {
    if run.Then? {
      LonePollsAreFresh(run.past, feed, settings);
      StepKeepsLone(After(run.past, feed, settings), run.step, feed, settings);
    }
  }

  /** ... so while polls do not overlap and no cursor is lost, each event is enqueued once, up to the cursor. */
  lemma LonePollsEnqueueOnce(run: Run, feed: seq<Event>, settings: Settings)
    requires Distinct(feed) && Origin(run) == FRESH && Legal(run, feed, settings) && OneAtATime(run, feed, settings)
    ensures var w := After(run, feed, settings); Contiguous(w, feed) && AtCursor(feed, w.cursor, |w.enqueued|)
  {
    LonePollsAreFresh(run, feed, settings);
    EnqueuedOnceExactly(run, feed, settings);
    FrontierIsLast(After(run, feed, settings), feed);
  }

  /**
   * After a restart with an old cursor, or none, the next poll re-reads the feed from there: it
   * enqueues something exactly when the first event it is served is no longer in the table and can
   * be written, and then enqueues it again; until then every poll stops at the same place.
   */
  lemma OldCursorRepeatsExactly(w: World, feed: seq<Event>, saved: Option<Id>, batch: seq<Event>, now: int,
                                faults: seq<bool>)
    requires Distinct(feed) && Contiguous(w, feed) && saved != Frontier(w) && (saved.Some? ==> saved.value in w.enqueued)
    requires |faults| == |batch| && Serves(feed, saved, batch)
    ensures var fetched := FetchAll(w.rows, saved, batch, now, faults);
            if batch != [] && !faults[0] && batch[0].id !in w.rows then Repeats(w.enqueued + Ids(batch)[..fetched.2])
            else fetched == (w.rows, saved, 0)
  {
    var n := |w.enqueued|;
    SavedIsWithin(w, feed, n, saved);
    FrontierIsLast(w, feed);
    var i :| 0 <= i <= |feed| && AtCursor(feed, saved, i) && batch <= feed[i..];
    var j :| 0 <= j <= n && j <= |feed| && AtCursor(feed, saved, j);
    CursorFixesPlace(feed, saved, i, j);
    if batch != [] && !faults[0] && batch[0].id !in w.rows {
      var ids := w.enqueued + Ids(batch)[..FetchAll(w.rows, saved, batch, now, faults).2];
      assert i < n && ids[i] == feed[..n][i].id == feed[i..][0].id == batch[0].id == ids[n];
    }
  }
}
