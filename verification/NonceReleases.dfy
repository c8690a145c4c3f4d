/**
 * What `release` costs, since it takes no lock (engine-bridge/src/nonce-manager.ts): when a number
 * handed back is lost, when it makes a number go out twice, and a discipline under which none does.
 */
module NonceReleases {
  import opened NonceManagement
  import opened Wrappers

  // ----- the numbers that are out -----

  function OutNext(out: multiset<int>, e: Entry, a: Account): multiset<int> {
    match e
    case Completed(_, Reserve, b, _, Number(n), _) => if b == a then out + multiset{n} else out
    case Released(b, n) => if b == a then out - multiset{n} else out
    case _ => out
  }

  /** The numbers of an account that were handed out and not handed back. */
  function Out(log: seq<Entry>, a: Account): multiset<int> {
    if log == [] then multiset{} else OutNext(Out(log[..|log| - 1], a), log[|log| - 1], a)
  }

  lemma OutOfOneMore(log: seq<Entry>, e: Entry, a: Account)
    ensures Out(log + [e], a) == OutNext(Out(log, a), e, a)
  {
    assert (log + [e])[..|log|] == log;
  }

  /** Each of them is out once. */
  ghost predicate Single(out: multiset<int>) {
    forall n :: out[n] <= 1
  }

  /** ... and the next one to be handed out of the cache lies above them all. */
  ghost predicate Apart(cache: map<Account, int>, out: multiset<int>, a: Account) {
    Single(out) && (a in cache ==> forall n :: n in out ==> n < cache[a])
  }

  /** What is handed back is the highest number out, and the network never answers below one that is out. */
  ghost predicate Tidy(out: multiset<int>, e: Entry, a: Account) {
    match e
    case Released(b, n) => b == a ==> n in out && forall m :: m in out ==> m <= n
    case Completed(_, _, b, Some(Answer(n)), _, _) => b == a ==> forall m :: m in out ==> m <= n
    case _ => true
  }

  ghost predicate TidyLog(log: seq<Entry>, a: Account) {
    log == [] || (TidyLog(log[..|log| - 1], a) && Tidy(Out(log[..|log| - 1], a), log[|log| - 1], a))
  }

  lemma CallKeepsApart(cache: map<Account, int>, out: multiset<int>, e: Entry, a: Account)
    requires e.Completed? && Apart(cache, out, a) && SerialAllows(cache, e) && Tidy(out, e, a)
    ensures Apart(SerialNext(cache, e), OutNext(out, e, a), a)
  {
  }

  lemma HandBackKeepsApart(cache: map<Account, int>, out: multiset<int>, e: Entry, a: Account)
    requires e.Released? && Apart(cache, out, a) && Tidy(out, e, a)
    ensures Apart(SerialNext(cache, e), OutNext(out, e, a), a)
  {
  }

  lemma EntryKeepsApart(cache: map<Account, int>, out: multiset<int>, e: Entry, a: Account)
    requires Apart(cache, out, a) && SerialAllows(cache, e) && Tidy(out, e, a)
    ensures Apart(SerialNext(cache, e), OutNext(out, e, a), a)
  {
    if e.Completed? {
      CallKeepsApart(cache, out, e, a);
    } else {
      HandBackKeepsApart(cache, out, e, a);
    }
  }

  lemma {:induction false} TidyLogKeepsApart(log: seq<Entry>, a: Account)
    requires SerialOk(log) && TidyLog(log, a)
    ensures Apart(SerialCache(log), Out(log, a), a)
  {
    if log != [] {
      var past := log[..|log| - 1];
      TidyLogKeepsApart(past, a);
      EntryKeepsApart(SerialCache(past), Out(past, a), log[|log| - 1], a);
    }
  }

  /**
   * In every interleaved run in which each number handed back is the highest one out, while the
   * account is unlocked, and the network never answers below one that is out, no number is ever
   * out twice.
   */
  lemma NeverOutTwice(run: Run, a: Account)
    requires Legal(run) && QuietReleases(run) && TidyLog(After(run).log, a)
    ensures Single(Out(After(run).log, a))
  {
    RunIsSerial(run);
    TidyLogKeepsApart(After(run).log, a);
  }

  // ----- runs that go on -----

  ghost predicate Continues(run: Run, r: Run) {
    r == run || (r.Then? && Continues(run, r.past))
  }

  lemma {:induction false} ContinuesFurther(run: Run, r: Run, s: Run)
    requires Continues(run, r) && Continues(r, s)
    ensures Continues(run, s)
  {
    if s != r {
      ContinuesFurther(run, r, s.past);
    }
  }

  /** The run goes on by reservations: nothing is refreshed or handed back. */
  ghost predicate OnlyReserves(run: Run, r: Run) {
    r == run || (r.Then? && !r.step.HandBack? && (r.step.Arrive? ==> r.step.op.Reserve?) && OnlyReserves(run, r.past))
  }

  lemma {:induction false} ReservesFurther(run: Run, r: Run, s: Run)
    requires OnlyReserves(run, r) && OnlyReserves(r, s)
    ensures OnlyReserves(run, s)
  {
    if s != r {
      ReservesFurther(run, r, s.past);
    }
  }

  lemma {:induction false} LogGrows(run: Run, r: Run)
    requires Legal(r) && Continues(run, r)
    ensures Legal(run) && |After(run).log| <= |After(r).log| && After(r).log[..|After(run).log|] == After(run).log
  {
    if r != run {
      LogGrows(run, r.past);
      assert After(r.past).log == After(r).log[..|After(r.past).log|];
    }
  }

  /** One more step of a run. */
  lemma Goes(run: Run, step: Step)
    requires Legal(run) && Enabled(After(run), step)
    ensures Legal(Then(run, step)) && After(Then(run, step)) == Next(After(run), step)
    ensures QuietReleases(run) && (step.HandBack? ==> step.account !in After(run).memory.locks)
            ==> QuietReleases(Then(run, step))
  {
  }

  predicate Entered(w: World, v: World, a: Account) {
    && v.memory == w.memory.(locks := w.memory.locks[a := w.created]) && v.log == w.log
    && v.created == w.created + 1 && v.resolved == w.resolved
    && v.calls == w.calls + [Call(Reserve, a, Enter(w.memory, Reserve, a, w.created).1, w.created)]
  }

  /** A call arrives and takes the free lock. */
  lemma EnterRun(run: Run, a: Account) returns (r: Run)
    requires Legal(run) && a !in After(run).memory.locks
    ensures Legal(r) && (QuietReleases(run) ==> QuietReleases(r)) && Continues(run, r) && OnlyReserves(run, r)
    ensures Entered(After(run), After(r), a)
  {
    Goes(run, Arrive(Reserve, a));
    var arrived := Then(run, Arrive(Reserve, a));
    Goes(arrived, Try(|After(run).calls|));
    r := Then(arrived, Try(|After(run).calls|));
    assert Continues(run, arrived) && OnlyReserves(run, arrived);
  }

  predicate Ended(w: World, v: World, i: nat) {
    && i < |w.calls| && w.calls[i].stage.Sequenced?
    && var c := w.calls[i];
       && v.memory == Memory(w.memory.cache[c.account := c.stage.sequence + 1], w.memory.locks - {c.account})
       && v.log == w.log + [Completed(i, Reserve, c.account, c.stage.read, Number(c.stage.sequence), c.lock)]
       && |v.calls| == |w.calls| && v.created == w.created
  }

  /** The call inside, which has its number, goes to its end. */
  lemma FinishRun(run: Run, i: nat) returns (r: Run)
    requires Legal(run) && i < |After(run).calls| && After(run).calls[i].stage.Sequenced?
             && After(run).calls[i].op.Reserve?
    ensures Legal(r) && (QuietReleases(run) ==> QuietReleases(r)) && Continues(run, r) && OnlyReserves(run, r)
    ensures Ended(After(run), After(r), i)
  {
    Goes(run, Resumed(i));
    var resumed := Then(run, Resumed(i));
    Goes(resumed, Left(i));
    r := Then(resumed, Left(i));
    assert Continues(run, resumed) && OnlyReserves(run, resumed);
  }

  /** The account has given out one more number, and is unlocked again. */
  predicate Reserved(w: World, v: World, a: Account, read: Option<Read>, n: int) {
    && v.memory == w.memory.(cache := w.memory.cache[a := n + 1])
    && v.log == w.log + [Completed(|w.calls|, Reserve, a, read, Number(n), w.created)]
    && |v.calls| == |w.calls| + 1 && v.created == w.created + 1
    && Out(v.log, a) == Out(w.log, a) + multiset{n}
  }

  /** The world in which the newest call holds the lock and has its number, the cache touched at its account only. */
  predicate AboutToReserve(w: World, t: World, a: Account, read: Option<Read>, n: int) {
    && t.memory.locks == w.memory.locks[a := w.created] && t.log == w.log
    && t.memory.cache - {a} == w.memory.cache - {a}
    && |t.calls| == |w.calls| + 1 && t.created == w.created + 1
    && t.calls[|w.calls|] == Call(Reserve, a, Sequenced(n, read), w.created)
  }

  lemma EndingReserves(w: World, t: World, v: World, a: Account, read: Option<Read>, n: int)
    requires a !in w.memory.locks && AboutToReserve(w, t, a, read, n) && Ended(t, v, |w.calls|)
    ensures Reserved(w, v, a, read, n)
  {
    SameElsewhere(t.memory.cache, w.memory.cache, a, n + 1);
    LockAgain(w.memory.locks, a, w.created);
    ReservedIsOut(w.log, |w.calls|, a, read, n, w.created);
  }

  lemma LockAgain(locks: map<Account, Lock>, a: Account, l: Lock)
    requires a !in locks
    ensures locks[a := l] - {a} == locks
  {
  }

  lemma ReservedIsOut(log: seq<Entry>, i: nat, a: Account, read: Option<Read>, n: int, l: Lock)
    ensures Out(log + [Completed(i, Reserve, a, read, Number(n), l)], a) == Out(log, a) + multiset{n}
  {
    OutOfOneMore(log, Completed(i, Reserve, a, read, Number(n), l), a);
  }

  lemma SameElsewhere(m: map<Account, int>, n: map<Account, int>, a: Account, x: int)
    requires m - {a} == n - {a}
    ensures m[a := x] == n[a := x]
  {
    forall b | b in m && b != a ensures b in n && m[b] == n[b] {
      assert b in m - {a};
    }
    forall b | b in n && b != a ensures b in m {
      assert b in n - {a};
    }
  }

  lemma AnswerArrives(w: World, u: World, a: Account, n: int)
    requires a !in w.memory.cache && a !in w.memory.locks && Entered(w, u, a)
    ensures Enabled(u, Settled(|w.calls|, Answer(n)))
    ensures AboutToReserve(w, Next(u, Settled(|w.calls|, Answer(n))), a, Some(Answer(n)), n + 1)
  {
    assert u.calls[|w.calls|].stage == Fetching;
  }

  lemma CachedReserveRun(run: Run, a: Account) returns (r: Run)
    requires Legal(run) && QuietReleases(run) && a !in After(run).memory.locks && a in After(run).memory.cache
    ensures Legal(r) && QuietReleases(r) && Continues(run, r) && OnlyReserves(run, r)
    ensures Reserved(After(run), After(r), a, None, After(run).memory.cache[a])
  {
    var inside := EnterRun(run, a);
    r := FinishRun(inside, |After(run).calls|);
    ContinuesFurther(run, inside, r);
    ReservesFurther(run, inside, r);
    EndingReserves(After(run), After(inside), After(r), a, None, After(run).memory.cache[a]);
  }

  lemma FirstReserveRun(run: Run, a: Account, n: int) returns (r: Run)
    requires Legal(run) && QuietReleases(run) && a !in After(run).memory.locks && a !in After(run).memory.cache
    ensures Legal(r) && QuietReleases(r) && Continues(run, r) && OnlyReserves(run, r)
    ensures Reserved(After(run), After(r), a, Some(Answer(n)), n + 1)
  {
    var i := |After(run).calls|;
    var inside := EnterRun(run, a);
    AnswerArrives(After(run), After(inside), a, n);
    Goes(inside, Settled(i, Answer(n)));
    var settled := Then(inside, Settled(i, Answer(n)));
    r := FinishRun(settled, i);
    assert Continues(inside, settled) && OnlyReserves(inside, settled);
    ContinuesFurther(run, inside, settled);
    ContinuesFurther(run, settled, r);
    ReservesFurther(run, inside, settled);
    ReservesFurther(run, settled, r);
    EndingReserves(After(run), After(settled), After(r), a, Some(Answer(n)), n + 1);
  }

  // ----- when a hand-back makes a number go out twice -----

  /** The run goes on; on this account by reservations that are answered from the cache, and nothing else. */
  ghost predicate GoesOnReserving(run: Run, r: Run, a: Account) {
    && Legal(run) && Legal(r) && QuietReleases(r) && Continues(run, r)
    && |After(run).log| <= |After(r).log|
    && OnlyCachedReserves(After(r).log, a, |After(run).log|, |After(r).log|)
  }

  lemma {:induction false} ReservingKeepsApart(log: seq<Entry>, a: Account, k: nat)
    requires SerialOk(log) && k <= |log| && OnlyCachedReserves(log, a, k, |log|)
    requires Apart(SerialCache(log[..k]), Out(log[..k], a), a)
    ensures Apart(SerialCache(log), Out(log, a), a)
  {
    if k == |log| {
      assert log[..k] == log;
    } else {
      var past := log[..|log| - 1];
      assert past[..k] == log[..k];
      ReservingKeepsApart(past, a, k);
      EntryKeepsApart(SerialCache(past), Out(past, a), log[|log| - 1], a);
    }
  }

  lemma HandedBack(run: Run, a: Account, n: int)
    requires Legal(run) && QuietReleases(run) && a !in After(run).memory.locks
    ensures var r := Then(run, HandBack(a, n));
            && Legal(r) && QuietReleases(r) && a !in After(r).memory.locks
            && After(r).memory.cache == Release(After(run).memory, a, n).cache
            && After(r).log == After(run).log + [Released(a, n)]
            && Out(After(r).log, a) == Out(After(run).log, a) - multiset{n}
  {
    OutOfOneMore(After(run).log, Released(a, n), a);
  }

  /** While the next number lies above all that are out, reservations of the account repeat none. */
  lemma ApartStaysSingle(run: Run, a: Account, r: Run)
    requires Legal(run) && QuietReleases(run) && a !in After(run).memory.locks
    requires Apart(After(run).memory.cache, Out(After(run).log, a), a) && GoesOnReserving(run, r, a)
    ensures Single(Out(After(r).log, a))
  {
    var log := After(run).log;
    RunIsSerial(run);
    RunIsSerial(r);
    LogGrows(run, r);
    assert Agree(After(run).memory.cache, SerialCache(log), a);
    ReservingKeepsApart(After(r).log, a, |log|);
  }

  lemma ReleaseKeepsApart(m: Memory, out: multiset<int>, a: Account, n: int)
    requires Apart(m.cache, out, a) && n in out && forall m :: m in out ==> m <= n
    ensures Apart(Release(m, a, n).cache, out - multiset{n}, a)
  {
    EntryKeepsApart(m.cache, out, Released(a, n), a);
  }

  /** If what is handed back is the highest number out, no later reservation repeats one. */
  lemma HighestIsSafe(run: Run, a: Account, n: int, r: Run)
    requires Legal(run) && QuietReleases(run) && a !in After(run).memory.locks
    requires Apart(After(run).memory.cache, Out(After(run).log, a), a)
    requires n in Out(After(run).log, a) && forall m :: m in Out(After(run).log, a) ==> m <= n
    requires GoesOnReserving(Then(run, HandBack(a, n)), r, a)
    ensures Single(Out(After(r).log, a))
  {
    HandedBack(run, a, n);
    ReleaseKeepsApart(After(run).memory, Out(After(run).log, a), a, n);
    ApartStaysSingle(Then(run, HandBack(a, n)), a, r);
  }

  lemma GoesOnOnce(run: Run, next: Run, a: Account, n: int)
    requires Legal(run) && Legal(next) && QuietReleases(next) && Continues(run, next)
    requires Reserved(After(run), After(next), a, None, n)
    ensures GoesOnReserving(run, next, a)
  {
  }

  lemma GoesOnFurther(run: Run, next: Run, r: Run, a: Account)
    requires GoesOnReserving(run, next, a) && GoesOnReserving(next, r, a)
    ensures GoesOnReserving(run, r, a)
  {
    ContinuesFurther(run, next, r);
    LogGrows(next, r);
    forall k | |After(run).log| <= k < |After(next).log| ensures After(r).log[k] == After(next).log[k] {
      assert After(r).log[..|After(next).log|][k] == After(r).log[k];
    }
  }

  /** Reservations count up to a number that is still out, and hand it out again. */
  lemma {:induction false} ReserveUpTo(run: Run, a: Account, m: int) returns (r: Run)
    requires Legal(run) && QuietReleases(run) && a !in After(run).memory.locks
    requires a in After(run).memory.cache && After(run).memory.cache[a] <= m && m in Out(After(run).log, a)
    ensures GoesOnReserving(run, r, a) && Out(After(r).log, a)[m] >= 2
    decreases m - After(run).memory.cache[a]
  {
    var next := CachedReserveRun(run, a);
    GoesOnOnce(run, next, a, After(run).memory.cache[a]);
    if After(run).memory.cache[a] == m {
      r := next;
    } else {
      r := ReserveUpTo(next, a, m);
      GoesOnFurther(run, next, r, a);
    }
  }

  lemma HigherIsRepeated(run: Run, a: Account, n: int, m: int)
    requires Legal(run) && QuietReleases(run) && a !in After(run).memory.locks
    requires a in After(run).memory.cache ==> n < After(run).memory.cache[a]
    requires n < m && m in Out(After(run).log, a)
    ensures exists r :: GoesOnReserving(Then(run, HandBack(a, n)), r, a) && !Single(Out(After(r).log, a))
  {
    HandedBack(run, a, n);
    var r := ReserveUpTo(Then(run, HandBack(a, n)), a, m);
  }

  /**
   * In every run in which each number out is out once, below the next one: handing one of them
   * back lets some later reservations of the account hand out a number that is still out exactly
   * when a higher one is out.
   */
  lemma ReleaseRepeatsExactly(run: Run, a: Account, n: int)
    requires Legal(run) && QuietReleases(run) && a !in After(run).memory.locks
    requires n in Out(After(run).log, a) && Apart(After(run).memory.cache, Out(After(run).log, a), a)
    ensures (exists r :: GoesOnReserving(Then(run, HandBack(a, n)), r, a) && !Single(Out(After(r).log, a)))
            <==> exists m :: m in Out(After(run).log, a) && m > n
  {
    if m :| m in Out(After(run).log, a) && m > n {
      HigherIsRepeated(run, a, n, m);
    } else if r :| GoesOnReserving(Then(run, HandBack(a, n)), r, a) && !Single(Out(After(r).log, a)) {
      HighestIsSafe(run, a, n, r);
    }
  }

  // ----- when a network answer makes a number go out twice -----

  /** A refresh of the unlocked account comes and goes, with this answer. */
  ghost function Refreshed(run: Run, a: Account, n: int): Run
    requires Legal(run)
  {
    var i := |After(run).calls|;
    var inside := Then(Then(run, Arrive(Refresh, a)), Try(i));
    Then(Then(Then(inside, Settled(i, Answer(n))), Resumed(i)), Left(i))
  }

  predicate Refreshing(w: World, v: World, a: Account) {
    && v.memory == Memory(w.memory.cache - {a}, w.memory.locks[a := w.created])
    && v.log == w.log && v.calls == w.calls + [Call(Refresh, a, Fetching, w.created)]
  }

  lemma RefreshEnters(run: Run, a: Account) returns (inside: Run)
    requires Legal(run) && QuietReleases(run) && a !in After(run).memory.locks
    ensures inside == Then(Then(run, Arrive(Refresh, a)), Try(|After(run).calls|))
    ensures Legal(inside) && QuietReleases(inside) && Refreshing(After(run), After(inside), a)
  {
    Goes(run, Arrive(Refresh, a));
    var arrived := Then(run, Arrive(Refresh, a));
    Goes(arrived, Try(|After(run).calls|));
    inside := Then(arrived, Try(|After(run).calls|));
  }

  lemma RefreshLeaves(settled: Run, i: nat)
    requires Legal(settled) && QuietReleases(settled) && i < |After(settled).calls|
    requires var c := After(settled).calls[i]; c.op.Refresh? && c.stage.Sequenced?
    ensures var r, w, c := Then(Then(settled, Resumed(i)), Left(i)), After(settled), After(settled).calls[i];
            && Legal(r) && QuietReleases(r) && After(r).memory == Leave(w.memory, c.account)
            && After(r).log == w.log + [Completed(i, Refresh, c.account, c.stage.read, Warmed, c.lock)]
  {
    Goes(settled, Resumed(i));
    Goes(Then(settled, Resumed(i)), Left(i));
  }

  lemma RefreshEnds(inside: Run, i: nat, a: Account, n: int)
    requires Legal(inside) && QuietReleases(inside) && i < |After(inside).calls|
    requires var c := After(inside).calls[i]; c.op.Refresh? && c.account == a && c.stage.Fetching?
    ensures var r, w := Then(Then(Then(inside, Settled(i, Answer(n))), Resumed(i)), Left(i)), After(inside);
            && Legal(r) && QuietReleases(r)
            && After(r).memory == Memory(w.memory.cache[a := n + 1], w.memory.locks - {a})
            && After(r).log == w.log + [Completed(i, Refresh, a, Some(Answer(n)), Warmed, w.calls[i].lock)]
  {
    Goes(inside, Settled(i, Answer(n)));
    RefreshLeaves(Then(inside, Settled(i, Answer(n))), i);
  }

  lemma RefreshedIsRun(run: Run, a: Account, n: int)
    requires Legal(run) && QuietReleases(run) && a !in After(run).memory.locks
    ensures var r := Refreshed(run, a, n);
            && Legal(r) && QuietReleases(r) && a !in After(r).memory.locks
            && After(r).memory.cache == After(run).memory.cache[a := n + 1]
            && Out(After(r).log, a) == Out(After(run).log, a)
  {
    var i := |After(run).calls|;
    var inside := RefreshEnters(run, a);
    RefreshEnds(inside, i, a, n);
    OutOfOneMore(After(run).log, Completed(i, Refresh, a, Some(Answer(n)), Warmed, After(inside).calls[i].lock), a);
    SameElsewhere(After(inside).memory.cache, After(run).memory.cache, a, n + 1);
  }

  /**
   * In every run in which each number out is out once: a refresh that the network answers with n
   * lets some later reservations of the account hand out a number that is still out exactly when
   * one above n is out, so exactly when the network has not yet seen all that was handed out.
   */
  lemma RefreshRepeatsExactly(run: Run, a: Account, n: int)
    requires Legal(run) && QuietReleases(run) && a !in After(run).memory.locks && Single(Out(After(run).log, a))
    ensures (exists r :: GoesOnReserving(Refreshed(run, a, n), r, a) && !Single(Out(After(r).log, a)))
            <==> exists m :: m in Out(After(run).log, a) && m > n
  {
    RefreshedIsRun(run, a, n);
    var refreshed := Refreshed(run, a, n);
    if m :| m in Out(After(run).log, a) && m > n {
      var r := ReserveUpTo(refreshed, a, m);
    } else if r :| GoesOnReserving(refreshed, r, a) && !Single(Out(After(r).log, a)) {
      ApartStaysSingle(refreshed, a, r);
    }
  }

  /** A reservation, a refresh before the network has seen it, another: a run in which 101 is out twice. */
  lemma EarlyRefreshRepeats(a: Account) returns (run: Run)
    ensures Legal(run) && QuietReleases(run) && Out(After(run).log, a)[101] == 2
  {
    var first := FirstReserveRun(Start, a, 100);
    RefreshedIsRun(first, a, 100);
    run := CachedReserveRun(Refreshed(first, a, 100), a);
  }

  /** Two reservations, the lower number handed back, two more: a run in which 102 is out twice. */
  lemma OutOfOrderReleaseRepeats(a: Account) returns (run: Run)
    ensures Legal(run) && QuietReleases(run) && Out(After(run).log, a)[102] == 2
  {
    var first := FirstReserveRun(Start, a, 100);
    var second := CachedReserveRun(first, a);
    HandedBack(second, a, 101);
    var third := CachedReserveRun(Then(second, HandBack(a, 101)), a);
    run := CachedReserveRun(third, a);
    Twice(Out(After(Start).log, a));
  }

  lemma Twice(out: multiset<int>)
    requires out == multiset{}
    ensures (out + multiset{101} + multiset{102} - multiset{101} + multiset{101} + multiset{102})[102] == 2
  {
  }

  // ----- when a hand-back is lost -----

  /** The run in which the call inside goes to its end, with this network answer if it still waits for one. */
  function ToItsEnd(run: Run, c: Call, i: nat, read: Read): Run {
    match c.stage
    case Fetching =>
      var settled := Then(run, Settled(i, read));
      Then(if read.Answer? then Then(settled, Resumed(i)) else settled, Left(i))
    case Sequenced(_, _) => Then(Then(run, Resumed(i)), Left(i))
    case _ => Then(run, Left(i))
  }

  /** The shared memory once it has. */
  function MemoryAtEnd(m: Memory, c: Call, read: Read): Memory {
    match c.stage
    case Fetching =>
      var (settled, stage) := Settle(m, c.account, read);
      Leave(if stage.Sequenced? then Resume(settled, c.op, c.account, stage.sequence, stage.read).0 else settled,
            c.account)
    case Sequenced(n, r) => Leave(Resume(m, c.op, c.account, n, r).0, c.account)
    case _ => Leave(m, c.account)
  }

  lemma EndIsReached(run: Run, i: nat, read: Read)
    requires Legal(run) && i < |After(run).calls| && Inside(After(run).calls[i])
    ensures var c, r := After(run).calls[i], ToItsEnd(run, After(run).calls[i], i, read);
            Legal(r) && After(r).memory == MemoryAtEnd(After(run).memory, c, read) && After(r).calls[i].stage.Done?
  {
    var c := After(run).calls[i];
    var r := run;
    if c.stage.Fetching? {
      Goes(r, Settled(i, read));
      r := Then(r, Settled(i, read));
    }
    if After(r).calls[i].stage.Sequenced? {
      Goes(r, Resumed(i));
      r := Then(r, Resumed(i));
    }
    Goes(r, Left(i));
  }

  /** Once the call inside has ended, the memory is as if the number had not been handed back. */
  ghost predicate Lost(run: Run, i: nat, n: int, read: Read)
    requires Legal(run) && i < |After(run).calls| && Inside(After(run).calls[i])
  {
    var c := After(run).calls[i];
    var back := Then(run, HandBack(c.account, n));
    EndIsReached(run, i, read);
    EndIsReached(back, i, read);
    After(ToItsEnd(back, c, i, read)).memory == After(ToItsEnd(run, c, i, read)).memory
  }

  lemma LostFromMemory(m: Memory, c: Call, read: Read, n: int)
    requires Inside(c) && (c.account in m.cache ==> n < m.cache[c.account])
    ensures MemoryAtEnd(Release(m, c.account, n), c, read) == MemoryAtEnd(m, c, read)
            <==> (c.stage.Fetching? && read.Answer?) || (c.stage.Sequenced? && c.op.Reserve?)
  {
    if (c.stage.Fetching? && read.Answer?) || (c.stage.Sequenced? && c.op.Reserve?) {
      assert MemoryAtEnd(Release(m, c.account, n), c, read).cache == MemoryAtEnd(m, c, read).cache;
    }
  }

  lemma LostByMemory(run: Run, i: nat, n: int, read: Read)
    requires Legal(run) && i < |After(run).calls| && Inside(After(run).calls[i])
    requires var c, m := After(run).calls[i], After(run).memory; c.account in m.cache ==> n < m.cache[c.account]
    ensures var c := After(run).calls[i];
            Lost(run, i, n, read) <==> (c.stage.Fetching? && read.Answer?) || (c.stage.Sequenced? && c.op.Reserve?)
  {
    var c, m := After(run).calls[i], After(run).memory;
    EndIsReached(run, i, read);
    EndIsReached(Then(run, HandBack(c.account, n)), i, read);
    LostFromMemory(m, c, read, n);
  }

  /**
   * In every run a number handed back below the cached one, while a call on the account is inside,
   * is lost whatever the network answers exactly when that call is a reservation that has its
   * number; and is lost on some answer exactly when it is, or still waits for the network.
   */
  lemma ReleaseIsLostExactly(run: Run, i: nat, n: int)
    requires Legal(run) && i < |After(run).calls| && Inside(After(run).calls[i])
    requires var c, m := After(run).calls[i], After(run).memory; c.account in m.cache ==> n < m.cache[c.account]
    ensures var c := After(run).calls[i];
            && ((forall read :: Lost(run, i, n, read)) <==> c.stage.Sequenced? && c.op.Reserve?)
            && ((exists read :: Lost(run, i, n, read)) <==> (c.stage.Sequenced? && c.op.Reserve?) || c.stage.Fetching?)
  {
    forall read ensures Lost(run, i, n, read) <==>
        (After(run).calls[i].stage.Fetching? && read.Answer?)
        || (After(run).calls[i].stage.Sequenced? && After(run).calls[i].op.Reserve?)
    {
      LostByMemory(run, i, n, read);
    }
    assert Lost(run, i, n, Outage) <==> After(run).calls[i].stage.Sequenced? && After(run).calls[i].op.Reserve?;
    assert After(run).calls[i].stage.Fetching? ==> Lost(run, i, n, Answer(0));
  }

  const LOST: int := 101

  /** Reserved, handed back, and the next number reserved. */
  function LosingLog(a: Account): seq<Entry> {
    [Completed(0, Reserve, a, Some(Answer(100)), Number(LOST), 0), Released(a, LOST),
     Completed(1, Reserve, a, None, Number(102), 1)]
  }

  lemma LosingLogIsNotSerial(a: Account)
    ensures !SerialOk(LosingLog(a)) && Out(LosingLog(a), a) == multiset{102}
  {
    var log := LosingLog(a);
    var one, two := log[..1], log[..2];
    Snoc([], log[0]);
    Snoc(one, log[1]);
    Snoc(two, log[2]);
    OutOfOneMore([], log[0], a);
    OutOfOneMore(one, log[1], a);
    OutOfOneMore(two, log[2], a);
    assert [] + [log[0]] == one && one + [log[1]] == two && two + [log[2]] == log;
  }

  predicate OneReserved(w: World, a: Account) {
    w.log == LosingLog(a)[..1] && a !in w.memory.locks && a in w.memory.cache && w.memory.cache[a] == 102
    && |w.calls| == 1 && w.created == 1
  }

  lemma HandedBackInside(w: World, u: World, a: Account)
    requires OneReserved(w, a) && Entered(w, u, a)
    ensures Enabled(u, HandBack(a, LOST))
    ensures 1 < |u.calls| && u.calls[1] == Call(Reserve, a, Sequenced(102, None), 1)
  {
  }

  lemma LosesNumber(w: World, u: World, v: World, a: Account)
    requires OneReserved(w, a) && Entered(w, u, a) && Ended(Next(u, HandBack(a, LOST)), v, 1)
    ensures v.log == LosingLog(a) && a !in v.memory.locks && a in v.memory.cache && v.memory.cache[a] == 103
  {
  }

  /**
   * A run that loses a number: 101 is reserved, and handed back while a second reservation is
   * inside. Afterwards only 102 is out and 103 is next, so 101 goes out again only after the
   * network is asked; and the history is none that the serial machine allows.
   */
  lemma ReleaseInsideLosesNumber(a: Account) returns (run: Run)
    ensures Legal(run) && a !in After(run).memory.locks && a in After(run).memory.cache
    ensures Out(After(run).log, a) == multiset{102} && After(run).memory.cache[a] == 103 && !SerialOk(After(run).log)
  {
    var first := FirstReserveRun(Start, a, 100);
    var inside := EnterRun(first, a);
    HandedBackInside(After(first), After(inside), a);
    Goes(inside, HandBack(a, LOST));
    run := FinishRun(Then(inside, HandBack(a, LOST)), 1);
    LosesNumber(After(first), After(inside), After(run), a);
    LosingLogIsNotSerial(a);
  }
}
