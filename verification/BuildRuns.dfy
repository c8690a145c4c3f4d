/**
 * Builds of transactions on one account that overlap in any way: each reserves a number, and hands
 * it back if planning or signing fails (engine-bridge/src/tx-aggregator.ts, nonce-manager.ts). The
 * numbers that are out are those of the transactions built.
 */
module BuildRuns {
  import opened NonceManagement
  import opened NonceReleases
  import opened Wrappers

  function ReservedBy(e: Entry, a: Account): nat {
    if e.Completed? && e.op.Reserve? && e.account == a && e.outcome.Number? then 1 else 0
  }

  function ReturnedBy(e: Entry, a: Account): nat {
    if e.Released? && e.account == a then 1 else 0
  }

  /** How many builds of this account have been given a number. */
  function Reservations(log: seq<Entry>, a: Account): nat {
    if log == [] then 0 else Reservations(log[..|log| - 1], a) + ReservedBy(log[|log| - 1], a)
  }

  /** How many of them have failed and handed it back. */
  function Failures(log: seq<Entry>, a: Account): nat {
    if log == [] then 0 else Failures(log[..|log| - 1], a) + ReturnedBy(log[|log| - 1], a)
  }

  /** The account is only used by builds: nothing is refreshed, and what is handed back is out. */
  predicate BuildStep(w: World, step: Step, a: Account) {
    match step
    case Arrive(op, b) => b == a ==> op.Reserve?
    case HandBack(b, n) => b == a ==> n in Out(w.log, a)
    case _ => true
  }

  ghost predicate BuildRun(run: Run, a: Account) {
    Legal(run) && (run.Then? ==> BuildRun(run.past, a) && BuildStep(After(run.past), run.step, a))
  }

  // ----- the books of an account -----

  /** Numbers given out and handed back so far, those out, and the next one, if it is known. */
  datatype Books = Books(reserved: nat, returned: nat, out: multiset<int>, next: Option<int>)

  /**
   * No number is out twice before the fourth reservation, since counting up to one that is still
   * out takes as many; and none ever, nor is the next one out, before something is handed back.
   */
  ghost predicate Balanced(b: Books) {
    && |b.out| == b.reserved - b.returned
    && match b.next
       case None => b.out == multiset{} && b.reserved == 0
       case Some(next) =>
         && (b.reserved <= 3 ==> Single(b.out))
         && (forall m :: m in b.out && m >= next ==> b.reserved + m - next >= 3)
         && (b.returned == 0 ==> Single(b.out) && forall m :: m in b.out ==> m < next)
  }

  function Reserving(b: Books): Books
    requires b.next.Some?
  {
    Books(b.reserved + 1, b.returned, b.out + multiset{b.next.value}, Some(b.next.value + 1))
  }

  lemma ReservingBalances(b: Books)
    requires Balanced(b) && b.next.Some?
    ensures Balanced(Reserving(b))
  {
  }

  /** A number comes back; the next one is then that, or as it was if the return is lost. */
  lemma ReturningBalances(b: Books, n: int, next: int)
    requires Balanced(b) && n in b.out && b.next.Some? && (next == b.next.value || next == n)
    ensures Balanced(Books(b.reserved, b.returned + 1, b.out - multiset{n}, Some(next)))
  {
    forall m | m in b.out - multiset{n} && m >= next ensures b.reserved + m - next >= 3 {
      if next == n && m > n {
        TwoAreOut(b.out, n, m);
      }
    }
  }

  lemma TwoAreOut(out: multiset<int>, n: int, m: int)
    requires n in out && m in out && n != m
    ensures |out| >= 2
  {
    assert |out - multiset{n}| == |out| - 1 && m in out - multiset{n};
  }

  /** A build inside counts its number as the next one, and, once it is about to leave, as out. */
  function WithBuild(b: Books, stage: Stage): Books {
    match stage
    case Sequenced(n, _) => b.(next := Some(n))
    case Leaving(Number(n), _) => b.(reserved := b.reserved + 1, out := b.out + multiset{n})
    case _ => b
  }

  function Returned(b: Books, n: int): Books {
    Books(b.reserved, b.returned + 1, b.out - multiset{n},
          if b.next.None? || n < b.next.value then Some(n) else b.next)
  }

  lemma ReturnedBesides(b: Books, n: int)
    requires Balanced(b) && n in b.out
    ensures Balanced(Returned(b, n))
  {
    assert b.next.Some?;
    ReturningBalances(b, n, Returned(b, n).next.value);
  }

  lemma ReturnedBeforeLeaving(b: Books, n: int, m: int, read: Option<Read>)
    requires Balanced(WithBuild(b, Leaving(Number(m), read))) && n in b.out
    ensures Balanced(WithBuild(Returned(b, n), Leaving(Number(m), read)))
  {
    var inside := WithBuild(b, Leaving(Number(m), read));
    ReturnedBesides(inside, n);
    assert b.out - multiset{n} + multiset{m} == b.out + multiset{m} - multiset{n};
    assert WithBuild(Returned(b, n), Leaving(Number(m), read)) == Returned(inside, n);
  }

  /** While a build has its number a return is lost; before and after it counts. */
  lemma ReturnedInside(b: Books, n: int, stage: Stage)
    requires Balanced(WithBuild(b, stage)) && n in b.out && !stage.Fetching?
    ensures Balanced(WithBuild(Returned(b, n), stage))
  {
    if stage.Sequenced? {
      ReturningBalances(WithBuild(b, stage), n, stage.sequence);
    } else if stage.Leaving? && stage.outcome.Number? {
      ReturnedBeforeLeaving(b, n, stage.outcome.sequence, stage.read);
    } else {
      ReturnedBesides(b, n);
    }
  }

  // ----- the books are balanced in every run -----

  function NextOf(cache: map<Account, int>, a: Account): Option<int> {
    if a in cache then Some(cache[a]) else None
  }

  function BooksOf(w: World, a: Account): Books {
    Books(Reservations(w.log, a), Failures(w.log, a), Out(w.log, a), NextOf(w.memory.cache, a))
  }

  ghost predicate BuildsOnly(w: World, a: Account) {
    forall i: nat :: i < |w.calls| && w.calls[i].account == a ==> w.calls[i].op.Reserve?
  }

  /** The books with the build at this stage; one that asks the network found nothing cached. */
  ghost predicate StageFits(w: World, a: Account, stage: Stage) {
    && Balanced(WithBuild(BooksOf(w, a), stage)) && (stage.Fetching? ==> a !in w.memory.cache)
    && (Reservations(w.log, a) <= 3 ==> Single(Out(w.log, a)))
  }

  ghost predicate Kept(w: World, a: Account) {
    && BuildsOnly(w, a)
    && (a !in w.memory.locks ==> Balanced(BooksOf(w, a)))
    && (forall i: nat :: HeldBy(w, a, i) ==> StageFits(w, a, w.calls[i].stage))
  }

  // What a step has to do with the account.

  ghost predicate SameInside(w: World, v: World, a: Account) {
    && BuildsOnly(v, a) && (a in v.memory.locks <==> a in w.memory.locks)
    && (forall i: nat :: HeldBy(v, a, i) ==> HeldBy(w, a, i) && v.calls[i].stage == w.calls[i].stage)
  }

  /** A step that leaves the books and the build inside as they are. */
  lemma UntouchedKeeps(w: World, v: World, a: Account)
    requires Kept(w, a) && SameInside(w, v, a) && BooksOf(v, a) == BooksOf(w, a)
    ensures Kept(v, a)
  {
  }

  /** A step of the one build inside. */
  lemma MovedKeeps(v: World, a: Account, i: nat)
    requires BuildsOnly(v, a) && a in v.memory.locks && i < |v.calls| && StageFits(v, a, v.calls[i].stage)
    requires forall j: nat :: HeldBy(v, a, j) ==> j == i
    ensures Kept(v, a)
  {
  }

  lemma ClosedKeeps(v: World, a: Account)
    requires BuildsOnly(v, a) && Balanced(BooksOf(v, a)) && forall i: nat :: !HeldBy(v, a, i)
    ensures Kept(v, a)
  {
  }

  lemma OneMoreEntry(log: seq<Entry>, e: Entry, a: Account)
    ensures Reservations(log + [e], a) == Reservations(log, a) + ReservedBy(e, a)
    ensures Failures(log + [e], a) == Failures(log, a) + ReturnedBy(e, a)
    ensures Out(log + [e], a) == OutNext(Out(log, a), e, a)
  {
    assert (log + [e])[..|log|] == log;
  }

  /** One call changed, of another account or still outside. */
  lemma ElsewhereIsSame(w: World, v: World, k: nat, a: Account)
    requires BuildsOnly(w, a) && k < |w.calls| && |v.calls| == |w.calls|
    requires forall j :: 0 <= j < |w.calls| && j != k ==> v.calls[j] == w.calls[j]
    requires v.calls[k].account == w.calls[k].account && v.calls[k].op == w.calls[k].op
    requires w.calls[k].account != a || !Inside(v.calls[k])
    requires a in v.memory.locks <==> a in w.memory.locks
    ensures SameInside(w, v, a)
  {
  }

  lemma ArriveKeeps(w: World, op: Op, b: Account, a: Account)
    requires Kept(w, a) && (b == a ==> op.Reserve?)
    ensures Kept(Next(w, Arrive(op, b)), a)
  {
    var v := Next(w, Arrive(op, b));
    forall i: nat | HeldBy(v, a, i) ensures HeldBy(w, a, i) && v.calls[i].stage == w.calls[i].stage {
      assert i < |w.calls|;
    }
    UntouchedKeeps(w, v, a);
  }

  lemma EntersAlone(w: World, i: nat, a: Account)
    requires Safe(w) && Kept(w, a) && Enabled(w, Try(i)) && w.calls[i].account == a && a !in w.memory.locks
    ensures Kept(Next(w, Try(i)), a)
  {
    var v := Next(w, Try(i));
    forall j: nat | HeldBy(v, a, j) ensures j == i {
      assert j != i ==> HeldBy(w, a, j);
    }
    assert WithBuild(BooksOf(v, a), v.calls[i].stage) == BooksOf(w, a);
    MovedKeeps(v, a, i);
  }

  lemma TriedBooks(w: World, i: nat, a: Account)
    requires BuildsOnly(w, a) && Enabled(w, Try(i)) && (w.calls[i].account == a ==> a in w.memory.locks)
    ensures BooksOf(Next(w, Try(i)), a) == BooksOf(w, a)
  {
  }

  lemma TriesElsewhere(w: World, i: nat, a: Account)
    requires Kept(w, a) && Enabled(w, Try(i)) && (w.calls[i].account == a ==> a in w.memory.locks)
    ensures Kept(Next(w, Try(i)), a)
  {
    TriedBooks(w, i, a);
    ElsewhereIsSame(w, Next(w, Try(i)), i, a);
    UntouchedKeeps(w, Next(w, Try(i)), a);
  }

  lemma TryKeeps(w: World, i: nat, a: Account)
    requires Safe(w) && Kept(w, a) && Enabled(w, Try(i))
    ensures Kept(Next(w, Try(i)), a)
  {
    if w.calls[i].account == a && a !in w.memory.locks {
      EntersAlone(w, i, a);
    } else {
      TriesElsewhere(w, i, a);
    }
  }

  /** The build inside is the only one: it moves from stage to stage. */
  lemma InsideMoves(w: World, v: World, i: nat, a: Account)
    requires Exclusive(w) && BuildsOnly(w, a) && HeldBy(w, a, i) && |v.calls| == |w.calls|
    requires forall j :: 0 <= j < |w.calls| && j != i ==> v.calls[j] == w.calls[j]
    requires v.calls[i].account == a && v.calls[i].op == w.calls[i].op && v.memory.locks == w.memory.locks
    requires StageFits(v, a, v.calls[i].stage)
    ensures Kept(v, a)
  {
    forall j: nat | HeldBy(v, a, j) ensures j == i {
      assert j != i ==> HeldBy(w, a, j);
    }
    MovedKeeps(v, a, i);
  }

  /** A step inside the lock of another account. */
  lemma MovesElsewhere(w: World, v: World, i: nat, a: Account)
    requires Kept(w, a) && i < |w.calls| && |v.calls| == |w.calls| && w.calls[i].account != a
    requires forall j :: 0 <= j < |w.calls| && j != i ==> v.calls[j] == w.calls[j]
    requires v.calls[i].account == w.calls[i].account && v.calls[i].op == w.calls[i].op
    requires BooksOf(v, a) == BooksOf(w, a) && (a in v.memory.locks <==> a in w.memory.locks)
    ensures Kept(v, a)
  {
    ElsewhereIsSame(w, v, i, a);
    UntouchedKeeps(w, v, a);
  }

  lemma SettledFits(w: World, i: nat, read: Read, a: Account)
    requires Enabled(w, Settled(i, read)) && w.calls[i].account == a && StageFits(w, a, w.calls[i].stage)
    ensures StageFits(Next(w, Settled(i, read)), a, Next(w, Settled(i, read)).calls[i].stage)
  {
  }

  lemma SettleKeeps(w: World, i: nat, read: Read, a: Account)
    requires Safe(w) && Kept(w, a) && Enabled(w, Settled(i, read))
    ensures Kept(Next(w, Settled(i, read)), a)
  {
    assert HeldBy(w, w.calls[i].account, i);
    if w.calls[i].account == a {
      SettledFits(w, i, read, a);
      InsideMoves(w, Next(w, Settled(i, read)), i, a);
    } else {
      MovesElsewhere(w, Next(w, Settled(i, read)), i, a);
    }
  }

  // The books after a step of the build inside, or a number handed back.

  lemma ResumedBooks(w: World, i: nat, a: Account)
    requires Enabled(w, Resumed(i)) && w.calls[i].account == a && w.calls[i].op.Reserve?
    ensures var v := Next(w, Resumed(i));
            && WithBuild(BooksOf(v, a), v.calls[i].stage) == Reserving(WithBuild(BooksOf(w, a), w.calls[i].stage))
            && v.calls[i].stage.Leaving?
  {
  }

  lemma LeftBooks(w: World, i: nat, a: Account)
    requires Enabled(w, Left(i)) && w.calls[i].account == a && w.calls[i].op.Reserve?
    ensures BooksOf(Next(w, Left(i)), a) == WithBuild(BooksOf(w, a), w.calls[i].stage)
  {
    OneMoreEntry(w.log, Completing(i, w.calls[i]), a);
  }

  lemma OtherLeftBooks(w: World, i: nat, a: Account)
    requires Enabled(w, Left(i)) && w.calls[i].account != a
    ensures BooksOf(Next(w, Left(i)), a) == BooksOf(w, a)
  {
    OneMoreEntry(w.log, Completing(i, w.calls[i]), a);
  }

  lemma ReleasedNext(m: Memory, a: Account, n: int)
    ensures NextOf(Release(m, a, n).cache, a)
            == if a !in m.cache || n < m.cache[a] then Some(n) else NextOf(m.cache, a)
  {
  }

  lemma HandedBooks(w: World, a: Account, n: int)
    ensures BooksOf(Next(w, HandBack(a, n)), a) == Returned(BooksOf(w, a), n)
  {
    ReleasedNext(w.memory, a, n);
    OneMoreEntry(w.log, Released(a, n), a);
    assert Next(w, HandBack(a, n)).memory == Release(w.memory, a, n);
  }

  lemma OtherReleasedNext(m: Memory, b: Account, n: int, a: Account)
    requires b != a
    ensures NextOf(Release(m, b, n).cache, a) == NextOf(m.cache, a)
  {
  }

  lemma OtherHandedBooks(w: World, b: Account, n: int, a: Account)
    requires b != a
    ensures BooksOf(Next(w, HandBack(b, n)), a) == BooksOf(w, a)
  {
    OtherReleasedNext(w.memory, b, n, a);
    OneMoreEntry(w.log, Released(b, n), a);
    assert Next(w, HandBack(b, n)).memory == Release(w.memory, b, n);
  }

  lemma ResumedFits(w: World, i: nat, a: Account)
    requires Enabled(w, Resumed(i)) && w.calls[i].account == a && w.calls[i].op.Reserve?
    requires StageFits(w, a, w.calls[i].stage)
    ensures StageFits(Next(w, Resumed(i)), a, Next(w, Resumed(i)).calls[i].stage)
  {
    ReservingBalances(WithBuild(BooksOf(w, a), w.calls[i].stage));
    ResumedBooks(w, i, a);
  }

  lemma ResumeKeeps(w: World, i: nat, a: Account)
    requires Safe(w) && Kept(w, a) && Enabled(w, Resumed(i))
    ensures Kept(Next(w, Resumed(i)), a)
  {
    assert HeldBy(w, w.calls[i].account, i);
    if w.calls[i].account == a {
      ResumedFits(w, i, a);
      InsideMoves(w, Next(w, Resumed(i)), i, a);
    } else {
      MovesElsewhere(w, Next(w, Resumed(i)), i, a);
    }
  }

  lemma LeavesNobody(w: World, i: nat)
    requires Exclusive(w) && Enabled(w, Left(i))
    ensures forall j: nat :: !HeldBy(Next(w, Left(i)), w.calls[i].account, j)
  {
    var v, a := Next(w, Left(i)), w.calls[i].account;
    assert HeldBy(w, a, i);
    forall j: nat ensures !HeldBy(v, a, j) {
      assert j != i && HeldBy(v, a, j) ==> HeldBy(w, a, j);
    }
  }

  lemma LastLeaves(w: World, i: nat, a: Account)
    requires Safe(w) && Kept(w, a) && Enabled(w, Left(i)) && w.calls[i].account == a
    ensures Kept(Next(w, Left(i)), a)
  {
    assert HeldBy(w, a, i);
    LeftBooks(w, i, a);
    LeavesNobody(w, i);
    assert StageFits(w, a, w.calls[i].stage);
    ClosedKeeps(Next(w, Left(i)), a);
  }

  lemma LeaveKeeps(w: World, i: nat, a: Account)
    requires Safe(w) && Kept(w, a) && Enabled(w, Left(i))
    ensures Kept(Next(w, Left(i)), a)
  {
    if w.calls[i].account == a {
      LastLeaves(w, i, a);
    } else {
      OtherLeftBooks(w, i, a);
      MovesElsewhere(w, Next(w, Left(i)), i, a);
    }
  }

  lemma OtherHandBackKeeps(w: World, b: Account, n: int, a: Account)
    requires Kept(w, a) && b != a
    ensures Kept(Next(w, HandBack(b, n)), a)
  {
    OtherHandedBooks(w, b, n, a);
    UntouchedKeeps(w, Next(w, HandBack(b, n)), a);
  }

  lemma HandBackInside(w: World, n: int, a: Account, i: nat)
    requires Safe(w) && Kept(w, a) && n in Out(w.log, a) && HeldBy(w, a, i)
    ensures Kept(Next(w, HandBack(a, n)), a)
  {
    HandedBooks(w, a, n);
    assert StageFits(w, a, w.calls[i].stage);
    ReturnedInside(BooksOf(w, a), n, w.calls[i].stage);
    InsideMoves(w, Next(w, HandBack(a, n)), i, a);
  }

  lemma HandBackKeeps(w: World, b: Account, n: int, a: Account)
    requires Safe(w) && Kept(w, a) && BuildStep(w, HandBack(b, n), a)
    ensures Kept(Next(w, HandBack(b, n)), a)
  {
    if b != a {
      OtherHandBackKeeps(w, b, n, a);
    } else if i: nat :| HeldBy(w, a, i) {
      HandBackInside(w, n, a, i);
    } else {
      HandedBooks(w, a, n);
      ReturnedBesides(BooksOf(w, a), n);
      ClosedKeeps(Next(w, HandBack(a, n)), a);
    }
  }

  lemma StepKeeps(w: World, step: Step, a: Account)
    requires Safe(w) && Kept(w, a) && Enabled(w, step) && BuildStep(w, step, a)
    ensures Kept(Next(w, step), a)
  {
    match step
    case Arrive(op, b) => ArriveKeeps(w, op, b, a);
    case Try(i) => TryKeeps(w, i, a);
    case Settled(i, read) => SettleKeeps(w, i, read, a);
    case Resumed(i) => ResumeKeeps(w, i, a);
    case Left(i) => LeaveKeeps(w, i, a);
    case HandBack(b, n) => HandBackKeeps(w, b, n, a);
  }

  lemma {:induction false} RunIsKept(run: Run, a: Account)
    requires BuildRun(run, a)
    ensures Kept(After(run), a)
  {
    if run.Then? {
      RunIsKept(run.past, a);
      RunIsSafe(run.past);
      StepKeeps(After(run.past), run.step, a);
    }
  }

  // ----- runs in which two transactions built share a number -----

  lemma {:induction false} ReservingBuilds(run: Run, r: Run, a: Account)
    requires BuildRun(run, a) && Legal(r) && OnlyReserves(run, r)
    ensures BuildRun(r, a)
  {
    if r != run {
      ReservingBuilds(run, r.past, a);
    }
  }

  /** The account is unlocked, and its next number known. */
  ghost predicate Standing(run: Run, a: Account, reserved: nat, failed: nat, out: multiset<int>, next: int) {
    && BuildRun(run, a) && QuietReleases(run) && a !in After(run).memory.locks
    && BooksOf(After(run), a) == Books(reserved, failed, out, Some(next))
  }

  lemma StartedBuild(a: Account, n: int) returns (run: Run)
    ensures Standing(run, a, 1, 0, multiset{n + 1}, n + 2)
  {
    run := FirstReserveRun(Start, a, n);
    ReservingBuilds(Start, run, a);
    OneMoreEntry([], Completed(0, Reserve, a, Some(Answer(n)), Number(n + 1), 0), a);
  }

  lemma NextBuild(run: Run, a: Account, reserved: nat, failed: nat, out: multiset<int>, next: int) returns (r: Run)
    requires Standing(run, a, reserved, failed, out, next)
    ensures Standing(r, a, reserved + 1, failed, out + multiset{next}, next + 1)
  {
    r := CachedReserveRun(run, a);
    ReservingBuilds(run, r, a);
    var w := After(run);
    OneMoreEntry(w.log, Completed(|w.calls|, Reserve, a, None, Number(next), w.created), a);
  }

  lemma FailedBuild(run: Run, a: Account, reserved: nat, failed: nat, out: multiset<int>, next: int, n: int)
    returns (r: Run)
    requires Standing(run, a, reserved, failed, out, next) && n in out
    ensures Standing(r, a, reserved, failed + 1, out - multiset{n}, if n < next then n else next)
  {
    HandedBack(run, a, n);
    HandedBooks(After(run), a, n);
    r := Then(run, HandBack(a, n));
  }

  lemma SmallSums()
    ensures multiset{101} + multiset{102} - multiset{101} == multiset{102}
    ensures multiset{102} + multiset{101} + multiset{102} == multiset{101, 102, 102}
  {
  }

  /** The first of two builds fails when the second has its number. */
  lemma EarlyFailure(a: Account) returns (run: Run)
    ensures Standing(run, a, 2, 1, multiset{102}, 101)
  {
    var first := StartedBuild(a, 100);
    var second := NextBuild(first, a, 1, 0, multiset{101}, 102);
    SmallSums();
    run := FailedBuild(second, a, 2, 0, multiset{101} + multiset{102}, 103, 101);
  }

  /** ... and two more follow. */
  lemma SharingBuilds(a: Account) returns (run: Run)
    ensures Standing(run, a, 4, 1, multiset{101, 102, 102}, 103)
  {
    var second := EarlyFailure(a);
    var third := NextBuild(second, a, 2, 1, multiset{102}, 101);
    SmallSums();
    run := NextBuild(third, a, 3, 1, multiset{102} + multiset{101}, 102);
  }

  lemma {:induction false} MoreBuilds(a: Account, reserved: nat) returns (run: Run, out: multiset<int>, next: int)
    requires reserved >= 4
    ensures Standing(run, a, reserved, 1, out, next) && out[102] >= 2
    decreases reserved
  {
    if reserved == 4 {
      run := SharingBuilds(a);
      out, next := multiset{101, 102, 102}, 103;
    } else {
      run, out, next := MoreBuilds(a, reserved - 1);
      run := NextBuild(run, a, reserved - 1, 1, out, next);
      out, next := out + multiset{next}, next + 1;
    }
  }

  lemma EmptyOrNot(out: multiset<int>)
    ensures out == multiset{} || exists n :: n in out
  {
    if forall n :: n !in out {
      assert out == multiset{};
    }
  }

  /** A third number is out, which its build can hand back. */
  lemma ThirdIsOut(out: multiset<int>) returns (n: int)
    requires |out| >= 3 && out[102] >= 2
    ensures n in out && (out - multiset{n})[102] >= 2
  {
    var rest := out - multiset{102, 102};
    assert |rest| == |out| - 2;
    EmptyOrNot(rest);
    n :| n in rest;
  }

  lemma {:induction false} MoreFailures(a: Account, reserved: nat, failed: nat)
    returns (run: Run, out: multiset<int>, next: int)
    requires reserved >= 4 && 1 <= failed <= reserved - 2
    ensures Standing(run, a, reserved, failed, out, next) && out[102] >= 2
    decreases failed
  {
    if failed == 1 {
      run, out, next := MoreBuilds(a, reserved);
    } else {
      run, out, next := MoreFailures(a, reserved, failed - 1);
      RunIsKept(run, a);
      var n := ThirdIsOut(out);
      run := FailedBuild(run, a, reserved, failed - 1, out, next, n);
      out, next := out - multiset{n}, if n < next then n else next;
    }
  }

  /** So many builds of the account were given a number, so many of them failed, and two that did not share one. */
  ghost predicate Share(run: Run, a: Account, reserved: nat, failed: nat) {
    && BuildRun(run, a) && Reservations(After(run).log, a) == reserved && Failures(After(run).log, a) == failed
    && !Single(Out(After(run).log, a))
  }

  lemma InsideIsBalanced(b: Books, stage: Stage)
    requires Balanced(WithBuild(b, stage))
    ensures |b.out| == b.reserved - b.returned && (b.returned == 0 ==> Single(b.out))
  {
    if stage.Leaving? && stage.outcome.Number? {
      assert forall n :: b.out[n] <= WithBuild(b, stage).out[n];
    }
  }

  /** What the books say of the finished builds, whoever is inside. */
  lemma FinishedAreBalanced(w: World, a: Account)
    requires Safe(w) && Kept(w, a)
    ensures var out, reserved, failed := Out(w.log, a), Reservations(w.log, a), Failures(w.log, a);
            |out| == reserved - failed && (reserved <= 3 || failed == 0 ==> Single(out))
  {
    if a in w.memory.locks {
      var i: nat :| HeldBy(w, a, i);
      assert StageFits(w, a, w.calls[i].stage);
      InsideIsBalanced(BooksOf(w, a), w.calls[i].stage);
    }
  }

  lemma DuplicateIsTwo(out: multiset<int>)
    requires !Single(out)
    ensures |out| >= 2
  {
    var n :| out[n] > 1;
    assert multiset{n, n} <= out;
  }

  /**
   * Of so many builds on one account, however they and the hand-backs overlap, so many of which
   * fail: two transactions built can end up with the same number exactly when there are at least
   * four builds and at least one fails and at least two do not.
   */
  lemma BuildsShareExactly(a: Account, reserved: nat, failed: nat)
    ensures (exists run :: Share(run, a, reserved, failed)) <==> reserved >= 4 && 1 <= failed <= reserved - 2
  {
    if reserved >= 4 && 1 <= failed <= reserved - 2 {
      var run, out, next := MoreFailures(a, reserved, failed);
      assert Share(run, a, reserved, failed);
    } else if run :| Share(run, a, reserved, failed) {
      RunIsKept(run, a);
      RunIsSafe(run);
      FinishedAreBalanced(After(run), a);
      DuplicateIsTwo(Out(After(run).log, a));
    }
  }
}
