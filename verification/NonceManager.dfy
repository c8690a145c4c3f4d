/**
 * Per-account sequence numbers handed out under a promise lock
 * (engine-bridge/src/nonce-manager.ts).
 *
 * The original is asynchronous code on one thread: every stretch of code between two
 * `await`s runs to its end, and any other call may run at an `await`. `NonceManager`
 * below has one method for each such stretch; `World` is the scheduler's view of any
 * number of calls over any number of accounts, each waiting at one of its `await`s.
 */
module NonceManagement {
  import opened Wrappers

  type Account = string
  /** The identity of one `new Promise` made by `withLock`. */
  type Lock = nat

  datatype Op = Reserve | Refresh

  /** What the network says when asked for the account: its last used number, or nothing. */
  datatype Read = Answer(sequence: int) | Outage

  datatype Outcome = Number(sequence: int) | Warmed | Failed

  /** The two maps every call shares. */
  datatype Memory = Memory(cache: map<Account, int>, locks: map<Account, Lock>)

  /** Where a call stands, named after the `await` it is waiting at. */
  datatype Stage =
    | Arrived
    | Parked(on: Lock)
    | Fetching
    | Sequenced(sequence: int, read: Option<Read>)
    | Leaving(outcome: Outcome, read: Option<Read>)
    | Done(outcome: Outcome)

  // ----- the stretches of code between two awaits -----

  /** From the top of the `withLock` loop to the first `await` after it. */
  function Enter(m: Memory, op: Op, a: Account, next: Lock): (Memory, Stage) {
    if a in m.locks then
      (m, Parked(m.locks[a]))
    else
      var cache := if op.Refresh? then m.cache - {a} else m.cache;
      (Memory(cache, m.locks[a := next]), if a in cache then Sequenced(cache[a], None) else Fetching)
  }

  /** The account read settles inside `nextSequence`. */
  function Settle(m: Memory, a: Account, read: Read): (Memory, Stage) {
    match read
    case Answer(n) => (m.(cache := m.cache[a := n + 1]), Sequenced(n + 1, Some(read)))
    case Outage => (m, Leaving(Failed, Some(read)))
  }

  /** The body passed to `withLock` resumes after `nextSequence`. */
  function Resume(m: Memory, op: Op, a: Account, sequence: int, read: Option<Read>): (Memory, Stage) {
    match op
    case Reserve => (m.(cache := m.cache[a := sequence + 1]), Leaving(Number(sequence), read))
    case Refresh => (m, Leaving(Warmed, read))
  }

  /** The `finally` of `withLock`; the promise it resolves is handled by the caller. */
  function Leave(m: Memory, a: Account): Memory {
    m.(locks := m.locks - {a})
  }

  /** `release` takes no lock. */
  function Release(m: Memory, a: Account, sequence: int): Memory {
    if a !in m.cache || sequence < m.cache[a] then m.(cache := m.cache[a := sequence]) else m
  }

  class NonceManager {
    var cache: map<Account, int>
    var locks: map<Account, Lock>
    var created: nat

    function Mem(): Memory
      reads this
    {
      Memory(cache, locks)
    }

    constructor ()
      ensures Mem() == Memory(map[], map[]) && created == 0
    {
      cache, locks, created := map[], map[], 0;
    }

    method EnterLock(op: Op, a: Account) returns (stage: Stage)
      modifies this
      ensures (Mem(), stage) == Enter(old(Mem()), op, a, old(created))
      ensures a in old(locks)
              ==> stage == Parked(old(locks)[a]) && Mem() == old(Mem()) && created == old(created)
      ensures a !in old(locks) ==> locks == old(locks)[a := old(created)] && created == old(created) + 1
      ensures a !in old(locks) && op == Reserve
              ==> cache == old(cache) && stage == if a in cache then Sequenced(cache[a], None) else Fetching
      ensures a !in old(locks) && op == Refresh ==> cache == old(cache) - {a} && stage == Fetching
    {
      if a in locks {
        return Parked(locks[a]);
      }
      locks := locks[a := created];
      created := created + 1;
      if op.Refresh? {
        cache := cache - {a};
      }
      stage := if a in cache then Sequenced(cache[a], None) else Fetching;
    }

    method SettleRead(a: Account, read: Read) returns (stage: Stage)
      modifies this`cache
      ensures (Mem(), stage) == Settle(old(Mem()), a, read)
      ensures match read
              case Answer(n) => cache == old(cache)[a := n + 1] && stage == Sequenced(n + 1, Some(Answer(n)))
              case Outage => cache == old(cache) && stage == Leaving(Failed, Some(Outage))
    {
      match read
      case Answer(n) =>
        cache := cache[a := n + 1];
        stage := Sequenced(n + 1, Some(read));
      case Outage =>
        stage := Leaving(Failed, Some(read));
    }

    method ResumeBody(op: Op, a: Account, sequence: int, read: Option<Read>) returns (stage: Stage)
      modifies this`cache
      ensures (Mem(), stage) == Resume(old(Mem()), op, a, sequence, read)
      ensures match op
              case Reserve => cache == old(cache)[a := sequence + 1] && stage == Leaving(Number(sequence), read)
              case Refresh => cache == old(cache) && stage == Leaving(Warmed, read)
    {
      if op.Reserve? {
        cache := cache[a := sequence + 1];
        return Leaving(Number(sequence), read);
      }
      stage := Leaving(Warmed, read);
    }

    method LeaveLock(a: Account)
      modifies this`locks
      ensures Mem() == Leave(old(Mem()), a) && locks == old(locks) - {a}
    {
      locks := locks - {a};
    }

    method ReleaseNumber(a: Account, sequence: int)
      modifies this`cache
      ensures Mem() == Release(old(Mem()), a, sequence)
      ensures cache == if a in old(cache) && old(cache)[a] <= sequence then old(cache) else old(cache)[a := sequence]
    {
      if a !in cache || sequence < cache[a] {
        cache := cache[a := sequence];
      }
    }

    /** A reservation that nobody interleaves with is one step of the serial machine. */
    method ReserveAlone(a: Account, read: Read) returns (outcome: Outcome)
      requires a !in locks
      modifies this
      ensures var entry := Alone(old(cache), a, read, outcome);
              SerialAllows(old(cache), entry) && cache == SerialNext(old(cache), entry)
      ensures outcome == if a in old(cache) then Number(old(cache)[a])
                         else match read { case Answer(n) => Number(n + 1) case Outage => Failed }
      ensures cache == if outcome.Number? then old(cache)[a := outcome.sequence + 1] else old(cache)
      ensures locks == old(locks)
    {
      var stage := EnterLock(Reserve, a);
      if stage.Fetching? {
        stage := SettleRead(a, read);
      }
      if stage.Sequenced? {
        stage := ResumeBody(Reserve, a, stage.sequence, stage.read);
      }
      LeaveLock(a);
      outcome := stage.outcome;
      assert locks == old(locks);
    }
  }

  // ----- the scheduler's view: any number of calls -----

  datatype Call = Call(op: Op, account: Account, stage: Stage, lock: Lock)

  /** One line of the serial history: a call that finished, or a number handed back. */
  datatype Entry =
    | Completed(call: nat, op: Op, account: Account, read: Option<Read>, outcome: Outcome, lock: Lock)
    | Released(account: Account, sequence: int)

  datatype World = World(
    memory: Memory, calls: seq<Call>, resolved: set<Lock>, created: nat, log: seq<Entry>)

  datatype Step =
    | Arrive(op: Op, account: Account)
    | Try(call: nat)
    | Settled(call: nat, read: Read)
    | Resumed(call: nat)
    | Left(call: nat)
    | HandBack(account: Account, sequence: int)

  datatype Run = Start | Then(past: Run, step: Step)

  const EMPTY := World(Memory(map[], map[]), [], {}, 0, [])

  predicate Inside(c: Call) {
    c.stage.Fetching? || c.stage.Sequenced? || c.stage.Leaving?
  }

  predicate Ready(w: World, c: Call) {
    c.stage.Arrived? || (c.stage.Parked? && c.stage.on in w.resolved)
  }

  predicate Enabled(w: World, step: Step) {
    match step
    case Arrive(_, _) => true
    case Try(i) => i < |w.calls| && Ready(w, w.calls[i])
    case Settled(i, _) => i < |w.calls| && w.calls[i].stage.Fetching?
    case Resumed(i) => i < |w.calls| && w.calls[i].stage.Sequenced?
    case Left(i) => i < |w.calls| && w.calls[i].stage.Leaving?
    case HandBack(_, _) => true
  }

  function Next(w: World, step: Step): World
    requires Enabled(w, step)
  {
    match step
    case Arrive(op, a) => w.(calls := w.calls + [Call(op, a, Arrived, 0)])
    case Try(i) =>
      var c := w.calls[i];
      var (m, stage) := Enter(w.memory, c.op, c.account, w.created);
      if stage.Parked? then
        w.(calls := w.calls[i := c.(stage := stage)])
      else
        w.(memory := m, created := w.created + 1,
           calls := w.calls[i := c.(stage := stage, lock := w.created)])
    case Settled(i, read) =>
      var c := w.calls[i];
      var (m, stage) := Settle(w.memory, c.account, read);
      w.(memory := m, calls := w.calls[i := c.(stage := stage)])
    case Resumed(i) =>
      var c := w.calls[i];
      var (m, stage) := Resume(w.memory, c.op, c.account, c.stage.sequence, c.stage.read);
      w.(memory := m, calls := w.calls[i := c.(stage := stage)])
    case Left(i) =>
      var c := w.calls[i];
      w.(memory := Leave(w.memory, c.account),
         resolved := w.resolved + {c.lock},
         calls := w.calls[i := c.(stage := Done(c.stage.outcome))],
         log := w.log + [Completing(i, c)])
    case HandBack(a, n) =>
      w.(memory := Release(w.memory, a, n), log := w.log + [Released(a, n)])
  }

  /** The history line of a call that is about to leave. */
  function Completing(i: nat, c: Call): Entry
    requires c.stage.Leaving?
  {
    Completed(i, c.op, c.account, c.stage.read, c.stage.outcome, c.lock)
  }

  ghost predicate Legal(run: Run)
    decreases run, 0
  {
    run.Then? ==> Legal(run.past) && Enabled(After(run.past), run.step)
  }

  ghost function After(run: Run): World
    requires Legal(run)
    decreases run, 1
  {
    match run
    case Start => EMPTY
    case Then(past, step) => Next(After(past), step)
  }

  // ----- exclusion and wake-ups, in every run -----

  ghost predicate HeldBy(w: World, a: Account, i: nat) {
    i < |w.calls| && Inside(w.calls[i]) && w.calls[i].account == a
  }

  /** A lock entry exists exactly when a call on that account is inside, and then only one is. */
  ghost predicate Exclusive(w: World) {
    && (forall a :: a in w.memory.locks <==> exists i: nat :: HeldBy(w, a, i))
    && (forall a, i: nat, j: nat :: HeldBy(w, a, i) && HeldBy(w, a, j) ==> i == j)
    && (forall a, i: nat :: HeldBy(w, a, i) && a in w.memory.locks ==> w.memory.locks[a] == w.calls[i].lock)
  }

  /** A parked call either can run or waits for the lock that is held right now. */
  ghost predicate NoLostWakeup(w: World) {
    forall i: nat :: i < |w.calls| && w.calls[i].stage.Parked? ==>
      || w.calls[i].stage.on in w.resolved
      || (w.calls[i].account in w.memory.locks && w.memory.locks[w.calls[i].account] == w.calls[i].stage.on)
  }

  /** Promises are made once: those held are unresolved and belong to one account each. */
  ghost predicate FreshLocks(w: World) {
    && (forall a :: a in w.memory.locks ==> w.memory.locks[a] < w.created && w.memory.locks[a] !in w.resolved)
    && (forall a, b :: a in w.memory.locks && b in w.memory.locks && a != b ==> w.memory.locks[a] != w.memory.locks[b])
    && (forall l :: l in w.resolved ==> l < w.created)
  }

  ghost predicate Safe(w: World) {
    Exclusive(w) && NoLostWakeup(w) && FreshLocks(w)
  }

  /** Arriving, settling, resuming and handing back change neither locks nor who is inside. */
  lemma MovingKeepsSafe(w: World, step: Step)
    requires Safe(w) && Enabled(w, step) && !step.Try? && !step.Left?
    ensures Safe(Next(w, step))
  {
    var v := Next(w, step);
    assert v.memory.locks == w.memory.locks;
    assert forall a, i: nat :: HeldBy(v, a, i) <==> HeldBy(w, a, i);
  }

  lemma TryingKeepsSafe(w: World, i: nat)
    requires Safe(w) && Enabled(w, Try(i))
    ensures Safe(Next(w, Try(i)))
  {
    var v, a := Next(w, Try(i)), w.calls[i].account;
    if a in w.memory.locks {
      assert v.memory == w.memory;
      assert forall b, j: nat :: HeldBy(v, b, j) <==> HeldBy(w, b, j);
    } else {
      assert forall b, j: nat :: HeldBy(v, b, j) <==> HeldBy(w, b, j) || (b == a && j == i);
      assert HeldBy(v, a, i);
    }
  }

  lemma LeavingKeepsSafe(w: World, i: nat)
    requires Safe(w) && Enabled(w, Left(i))
    ensures Safe(Next(w, Left(i)))
  {
    var v, a := Next(w, Left(i)), w.calls[i].account;
    assert HeldBy(w, a, i);
    assert forall b, j: nat :: HeldBy(v, b, j) <==> HeldBy(w, b, j) && b != a;
  }

  lemma StepKeepsSafe(w: World, step: Step)
    requires Safe(w) && Enabled(w, step)
    ensures Safe(Next(w, step))
  {
    match step
    case Try(i) => TryingKeepsSafe(w, i);
    case Left(i) => LeavingKeepsSafe(w, i);
    case _ => MovingKeepsSafe(w, step);
  }

  /**
   * In every run, whatever is released when: at most one call per account is inside
   * `withLock`, a lock entry exists exactly while one is, and no parked call misses its wake-up.
   */
  lemma {:induction false} RunIsSafe(run: Run)
    requires Legal(run)
    ensures Safe(After(run))
  {
    match run
    case Start =>
    case Then(past, step) =>
      RunIsSafe(past);
      StepKeepsSafe(After(past), step);
  }

  // ----- what each call is told, in every run -----

  /** A reservation that asked the network gets the number after the answer, or fails with the network. */
  predicate AsAnswered(op: Op, read: Option<Read>, outcome: Outcome) {
    match op
    case Reserve =>
      (match read
       case None => outcome.Number?
       case Some(Answer(n)) => outcome == Number(n + 1)
       case Some(Outage) => outcome == Failed)
    case Refresh => read.Some? && outcome == if read.value.Answer? then Warmed else Failed
  }

  ghost predicate AllAsAnswered(w: World) {
    && (forall e :: e in w.log && e.Completed? ==> AsAnswered(e.op, e.read, e.outcome))
    && (forall c :: c in w.calls ==>
          match c.stage
          case Leaving(outcome, read) => AsAnswered(c.op, read, outcome)
          case Sequenced(n, read) => if c.op.Reserve? then AsAnswered(Reserve, read, Number(n))
                                     else read.Some? && read.value.Answer?
          case _ => true)
  }

  /** In every run, whatever is handed back when, each call of the history is told what the network answered it. */
  lemma {:induction false} RunIsAnswered(run: Run)
    requires Legal(run)
    ensures AllAsAnswered(After(run))
  {
    if run.Then? {
      RunIsAnswered(run.past);
    }
  }

  // ----- the serial machine: one call at a time -----

  predicate SerialAllows(cache: map<Account, int>, e: Entry) {
    match e
    case Completed(_, Reserve, a, read, outcome, _) =>
      if a in cache then
        read.None? && outcome == Number(cache[a])
      else
        read.Some? && outcome == if read.value.Answer? then Number(read.value.sequence + 1) else Failed
    case Completed(_, Refresh, a, read, outcome, _) =>
      read.Some? && outcome == if read.value.Answer? then Warmed else Failed
    case Released(_, _) => true
  }

  function SerialNext(cache: map<Account, int>, e: Entry): map<Account, int> {
    match e
    case Completed(_, Reserve, a, read, _, _) =>
      if a in cache then cache[a := cache[a] + 1]
      else if read.Some? && read.value.Answer? then cache[a := read.value.sequence + 2]
      else cache
    case Completed(_, Refresh, a, read, _, _) =>
      if read.Some? && read.value.Answer? then cache[a := read.value.sequence + 1] else cache - {a}
    case Released(a, n) =>
      if a !in cache || n < cache[a] then cache[a := n] else cache
  }

  /** The entry a lone reservation would leave in the history. */
  function Alone(cache: map<Account, int>, a: Account, read: Read, outcome: Outcome): Entry {
    Completed(0, Reserve, a, if a in cache then None else Some(read), outcome, 0)
  }

  function SerialCache(log: seq<Entry>): map<Account, int> {
    if log == [] then map[] else SerialNext(SerialCache(log[..|log| - 1]), log[|log| - 1])
  }

  /** Every line of the history is what the serial machine answers at that point. */
  predicate SerialOk(log: seq<Entry>) {
    log == [] || (SerialOk(log[..|log| - 1]) && SerialAllows(SerialCache(log[..|log| - 1]), log[|log| - 1]))
  }

  lemma Snoc(log: seq<Entry>, e: Entry)
    ensures SerialCache(log + [e]) == SerialNext(SerialCache(log), e)
    ensures SerialOk(log + [e]) <==> SerialOk(log) && SerialAllows(SerialCache(log), e)
  {
  }

  // ----- every interleaved run is a serial run in lock order -----

  /** Numbers are handed back only while nobody holds the lock of that account. */
  ghost predicate QuietReleases(run: Run)
    requires Legal(run)
  {
    run.Then? ==>
      && QuietReleases(run.past)
      && (run.step.HandBack? ==> run.step.account !in After(run.past).memory.locks)
  }

  ghost predicate Agree(m: map<Account, int>, n: map<Account, int>, a: Account) {
    (a in m <==> a in n) && (a in m ==> m[a] == n[a])
  }

  /** How far the memory is ahead of the serial machine while a call is inside. */
  ghost predicate Ahead(w: World, i: nat)
    requires i < |w.calls|
  {
    var c, cache, serial := w.calls[i], w.memory.cache, SerialCache(w.log);
    match c.stage
    case Fetching => c.account !in cache && (c.op.Reserve? ==> c.account !in serial)
    case Sequenced(n, read) =>
      && c.account in cache && cache[c.account] == n
      && match (c.op, read) {
        case (Reserve, None) => c.account in serial && serial[c.account] == n
        case (Reserve, Some(r)) => c.account !in serial && r == Answer(n - 1)
        case (Refresh, r) => r == Some(Answer(n - 1))
      }
    case Leaving(_, _) =>
      && SerialAllows(serial, Completing(i, c))
      && Agree(cache, SerialNext(serial, Completing(i, c)), c.account)
    case _ => true
  }

  ghost predicate Simulates(w: World) {
    && SerialOk(w.log)
    && (forall a :: a !in w.memory.locks ==> Agree(w.memory.cache, SerialCache(w.log), a))
    && (forall i: nat :: i < |w.calls| ==> Ahead(w, i))
  }

  function AccountOf(w: World, step: Step): Account
    requires Enabled(w, step)
  {
    if step.Arrive? || step.HandBack? then step.account else w.calls[step.call].account
  }

  /** A step touches the cache and the serial machine only at its own account. */
  lemma StepIsLocal(w: World, step: Step, b: Account)
    requires Enabled(w, step) && b != AccountOf(w, step)
    ensures Agree(Next(w, step).memory.cache, w.memory.cache, b)
    ensures Agree(SerialCache(Next(w, step).log), SerialCache(w.log), b)
  {
    match step
    case Left(i) => Snoc(w.log, Completing(i, w.calls[i]));
    case HandBack(a, n) => Snoc(w.log, Released(a, n));
    case _ =>
  }

  /** The call that moves is again exactly as far ahead as its new stage says. */
  lemma MoverStaysAhead(w: World, step: Step)
    requires Safe(w) && Simulates(w) && Enabled(w, step)
    requires step.Try? || step.Settled? || step.Resumed?
    ensures Ahead(Next(w, step), step.call)
  {
    assert Ahead(w, step.call);
    var a := w.calls[step.call].account;
    if step.Try? && a !in w.memory.locks {
      assert Agree(w.memory.cache, SerialCache(w.log), a);
    }
  }

  lemma OthersStayAhead(w: World, step: Step, j: nat)
    requires Safe(w) && Simulates(w) && Enabled(w, step) && j < |w.calls| && Inside(w.calls[j])
    requires !step.Arrive? && !step.HandBack? ==> step.call != j
    requires step.HandBack? ==> step.account !in w.memory.locks
    ensures Ahead(Next(w, step), j)
  {
    var b := w.calls[j].account;
    assert Ahead(w, j) && HeldBy(w, b, j) && b in w.memory.locks;
    if !step.Arrive? && !(step.Try? && AccountOf(w, step) == b) {
      if !step.Try? && !step.HandBack? {
        assert HeldBy(w, AccountOf(w, step), step.call);
      }
      StepIsLocal(w, step, b);
      SameAhead(w, Next(w, step), j);
    }
  }

  /** How far a call is ahead depends on its own account only. */
  lemma SameAhead(w: World, v: World, j: nat)
    requires j < |w.calls| && j < |v.calls| && v.calls[j] == w.calls[j] && Ahead(w, j)
    requires Agree(v.memory.cache, w.memory.cache, w.calls[j].account)
    requires Agree(SerialCache(v.log), SerialCache(w.log), w.calls[j].account)
    ensures Ahead(v, j)
  {
  }

  lemma AllStayAhead(w: World, step: Step, j: nat)
    requires Safe(w) && Simulates(w) && Enabled(w, step) && j < |Next(w, step).calls|
    requires step.HandBack? ==> step.account !in w.memory.locks
    ensures Ahead(Next(w, step), j)
  {
    if j < |w.calls| && Inside(Next(w, step).calls[j]) {
      if step.Arrive? || step.HandBack? || step.call != j {
        OthersStayAhead(w, step, j);
      } else {
        MoverStaysAhead(w, step);
      }
    }
  }

  lemma StepKeepsSerialOk(w: World, step: Step)
    requires Simulates(w) && Enabled(w, step)
    ensures SerialOk(Next(w, step).log)
  {
    if step.Left? {
      assert Ahead(w, step.call);
      Snoc(w.log, Completing(step.call, w.calls[step.call]));
    } else if step.HandBack? {
      Snoc(w.log, Released(step.account, step.sequence));
    }
  }

  lemma LeavingAgrees(w: World, i: nat)
    requires Enabled(w, Left(i)) && Ahead(w, i)
    ensures Agree(Next(w, Left(i)).memory.cache, SerialCache(Next(w, Left(i)).log), w.calls[i].account)
  {
    Snoc(w.log, Completing(i, w.calls[i]));
  }

  lemma HandingBackAgrees(w: World, a: Account, n: int)
    requires Agree(w.memory.cache, SerialCache(w.log), a)
    ensures Agree(Next(w, HandBack(a, n)).memory.cache, SerialCache(Next(w, HandBack(a, n)).log), a)
  {
    Snoc(w.log, Released(a, n));
  }

  lemma UnlockedAgrees(w: World, step: Step, a: Account)
    requires Safe(w) && Simulates(w) && Enabled(w, step) && a !in Next(w, step).memory.locks
    requires step.HandBack? ==> step.account !in w.memory.locks
    ensures Agree(Next(w, step).memory.cache, SerialCache(Next(w, step).log), a)
  {
    if a != AccountOf(w, step) {
      StepIsLocal(w, step, a);
    } else if step.Left? {
      assert Ahead(w, step.call);
      LeavingAgrees(w, step.call);
    } else if step.HandBack? {
      HandingBackAgrees(w, a, step.sequence);
    } else if step.Settled? || step.Resumed? {
      assert HeldBy(w, a, step.call);
    }
  }

  lemma StepSimulates(w: World, step: Step)
    requires Safe(w) && Simulates(w) && Enabled(w, step)
    requires step.HandBack? ==> step.account !in w.memory.locks
    ensures Simulates(Next(w, step))
  {
    var v := Next(w, step);
    forall j: nat | j < |v.calls| ensures Ahead(v, j) {
      AllStayAhead(w, step, j);
    }
    forall a | a !in v.memory.locks ensures Agree(v.memory.cache, SerialCache(v.log), a) {
      UnlockedAgrees(w, step, a);
    }
    StepKeepsSerialOk(w, step);
  }

  ghost predicate Finished(w: World, k: nat) {
    k < |w.log| && w.log[k].Completed?
  }

  /** Every finished call is in the history ... */
  ghost predicate Listed(w: World) {
    forall i: nat :: i < |w.calls| && w.calls[i].stage.Done? ==>
      exists k: nat :: Finished(w, k) && w.log[k].call == i
  }

  /** ... with its own operation, account, lock and answer ... */
  ghost predicate Truthful(w: World) {
    forall k: nat :: Finished(w, k) ==>
      var e := w.log[k];
      e.call < |w.calls| && w.calls[e.call] == Call(e.op, e.account, Done(e.outcome), e.lock)
  }

  /** ... only once, and after the earlier lock holders of its account. */
  ghost predicate InLockOrder(w: World) {
    && (forall k: nat, l: nat :: k < l && Finished(w, k) && Finished(w, l) ==>
          && w.log[k].call != w.log[l].call
          && (w.log[k].account == w.log[l].account ==> w.log[k].lock < w.log[l].lock))
    && (forall k: nat, i: nat :: Finished(w, k) && HeldBy(w, w.log[k].account, i) ==> w.log[k].lock < w.calls[i].lock)
    && (forall k: nat :: Finished(w, k) ==> w.log[k].lock < w.created)
  }

  ghost predicate Recorded(w: World) {
    Listed(w) && Truthful(w) && InLockOrder(w)
  }

  lemma StepKeepsListed(w: World, step: Step)
    requires Listed(w) && Enabled(w, step)
    ensures Listed(Next(w, step))
  {
    var v := Next(w, step);
    forall i: nat | i < |v.calls| && v.calls[i].stage.Done?
      ensures exists k: nat :: Finished(v, k) && v.log[k].call == i
    {
      if step == Left(i) {
        assert Finished(v, |w.log|);
      } else {
        var k: nat :| Finished(w, k) && w.log[k].call == i;
        assert Finished(v, k);
      }
    }
  }

  lemma StepKeepsTruthful(w: World, step: Step)
    requires Truthful(w) && Enabled(w, step)
    ensures Truthful(Next(w, step))
  {
  }

  lemma LeavingKeepsLockOrder(w: World, i: nat)
    requires Safe(w) && Truthful(w) && InLockOrder(w) && Enabled(w, Left(i))
    ensures InLockOrder(Next(w, Left(i)))
  {
    var v := Next(w, Left(i));
    assert HeldBy(w, w.calls[i].account, i);
    assert forall k: nat :: k < |w.log| ==> (Finished(v, k) <==> Finished(w, k)) && v.log[k] == w.log[k];
    assert forall b, j: nat :: HeldBy(v, b, j) ==> HeldBy(w, b, j) && j != i;
  }

  lemma EnteringKeepsLockOrder(w: World, i: nat)
    requires Safe(w) && InLockOrder(w) && Enabled(w, Try(i)) && w.calls[i].account !in w.memory.locks
    ensures InLockOrder(Next(w, Try(i)))
  {
  }

  lemma StepKeepsLockOrder(w: World, step: Step)
    requires Safe(w) && Truthful(w) && InLockOrder(w) && Enabled(w, step)
    ensures InLockOrder(Next(w, step))
  {
    var v := Next(w, step);
    if step.Left? {
      LeavingKeepsLockOrder(w, step.call);
    } else if step.Try? && w.calls[step.call].account !in w.memory.locks {
      EnteringKeepsLockOrder(w, step.call);
    } else {
      assert forall b, j: nat :: HeldBy(v, b, j) ==> HeldBy(w, b, j) && v.calls[j].lock == w.calls[j].lock;
      OthersKeepLockOrder(w, v);
    }
  }

  lemma OthersKeepLockOrder(w: World, v: World)
    requires InLockOrder(w) && w.created <= v.created
    requires |w.log| <= |v.log| && forall k: nat :: k < |w.log| ==> v.log[k] == w.log[k]
    requires forall k: nat :: |w.log| <= k < |v.log| ==> v.log[k].Released?
    requires forall b, j: nat :: HeldBy(v, b, j) ==> HeldBy(w, b, j) && v.calls[j].lock == w.calls[j].lock
    ensures InLockOrder(v)
  {
    assert forall k: nat :: Finished(v, k) ==> Finished(w, k) && v.log[k] == w.log[k];
  }

  /**
   * Every interleaved run in which numbers are handed back only while the account is unlocked
   * is a serial run: its history is accepted by the serial machine line by line, holds every
   * finished call once with the answer that call got, lists the calls of an account in lock
   * order, and leaves the same cache wherever no call is inside.
   */
  lemma {:induction false} RunIsSerial(run: Run)
    requires Legal(run) && QuietReleases(run)
    ensures Safe(After(run)) && Simulates(After(run)) && Recorded(After(run))
  {
    match run
    case Start =>
    case Then(past, step) =>
      RunIsSerial(past);
      StepKeepsSafe(After(past), step);
      StepSimulates(After(past), step);
      StepKeepsListed(After(past), step);
      StepKeepsTruthful(After(past), step);
      StepKeepsLockOrder(After(past), step);
  }

  lemma IdleMeansUnlocked(w: World, a: Account)
    requires Safe(w) && forall i: nat :: i < |w.calls| ==> w.calls[i].stage.Done?
    ensures a !in w.memory.locks
  {
  }

  /** Once every call has finished, the shared cache is the cache of the serial run. */
  lemma QuiescentCacheIsSerial(run: Run)
    requires Legal(run) && QuietReleases(run)
    requires forall i: nat :: i < |After(run).calls| ==> After(run).calls[i].stage.Done?
    ensures After(run).memory.cache == SerialCache(After(run).log)
  {
    RunIsSerial(run);
    var cache, serial := After(run).memory.cache, SerialCache(After(run).log);
    forall a ensures Agree(cache, serial, a) {
      IdleMeansUnlocked(After(run), a);
    }
    assert forall a :: Agree(cache, serial, a) ==> (a in cache <==> a in serial);
  }

  // ----- consecutive numbers between two network reads -----

  /** Between positions i and j the account only sees reservations answered from the cache. */
  ghost predicate OnlyCachedReserves(log: seq<Entry>, a: Account, i: nat, j: nat)
    requires j <= |log|
  {
    forall k :: i <= k < j && log[k].account == a ==>
      log[k].Completed? && log[k].op.Reserve? && log[k].read.None?
  }

  function ReservesOf(log: seq<Entry>, a: Account): nat {
    if log == [] then 0
    else ReservesOf(log[..|log| - 1], a) + if log[|log| - 1].account == a then 1 else 0
  }

  lemma {:induction false} CacheCounts(log: seq<Entry>, a: Account, i: nat, j: nat)
    requires i < j <= |log| && SerialOk(log[..j])
    requires log[i].account == a && log[i].Completed? && log[i].op.Reserve? && log[i].outcome.Number?
    requires OnlyCachedReserves(log, a, i + 1, j)
    ensures var cache := SerialCache(log[..j]);
            a in cache && cache[a] == log[i].outcome.sequence + ReservesOf(log[..j], a) - ReservesOf(log[..i], a)
  {
    assert log[..j][..j - 1] == log[..j - 1] && log[..j][j - 1] == log[j - 1];
    if j > i + 1 {
      CacheCounts(log, a, i, j - 1);
    }
  }

  /**
   * Reservations of one account with no network read, refresh or hand-back between them
   * are numbered consecutively, in lock order.
   */
  lemma ReservesAreConsecutive(log: seq<Entry>, a: Account, i: nat, j: nat)
    requires SerialOk(log) && i < j < |log|
    requires log[i].account == a && log[i].Completed? && log[i].op.Reserve? && log[i].outcome.Number?
    requires log[j].account == a && OnlyCachedReserves(log, a, i + 1, j + 1)
    ensures log[j].outcome == Number(log[i].outcome.sequence + ReservesOf(log[..j], a) - ReservesOf(log[..i], a))
  {
    PrefixOk(log, j + 1);
    assert log[..j + 1][..j] == log[..j] && log[..j + 1][j] == log[j];
    CacheCounts(log, a, i, j);
  }

  lemma {:induction false} PrefixOk(log: seq<Entry>, n: nat)
    requires SerialOk(log) && n <= |log|
    ensures SerialOk(log[..n])
  {
    if n == |log| {
      assert log[..n] == log;
    } else {
      PrefixOk(log[..|log| - 1], n);
      assert log[..|log| - 1][..n] == log[..n];
    }
  }

  // ----- progress -----

  function Weight(stage: Stage): nat {
    match stage
    case Arrived => 6
    case Parked(_) => 5
    case Fetching => 4
    case Sequenced(_, _) => 3
    case Leaving(_, _) => 2
    case Done(_) => 0
  }

  function Work(calls: seq<Call>): nat {
    if calls == [] then 0 else Weight(calls[0].stage) + Work(calls[1..])
  }

  /** How many parked calls have been woken and have not re-checked the lock yet. */
  function Awake(calls: seq<Call>, resolved: set<Lock>): nat {
    if calls == [] then 0
    else (if calls[0].stage.Parked? && calls[0].stage.on in resolved then 1 else 0) + Awake(calls[1..], resolved)
  }

  lemma {:induction false} WorkOfUpdate(calls: seq<Call>, i: nat, c: Call)
    requires i < |calls|
    ensures Work(calls[i := c]) == Work(calls) - Weight(calls[i].stage) + Weight(c.stage)
  {
    if i > 0 {
      WorkOfUpdate(calls[1..], i - 1, c);
      assert calls[i := c][1..] == calls[1..][i - 1 := c];
    } else {
      assert calls[i := c][1..] == calls[1..];
    }
  }

  lemma {:induction false} AwakeAfterReparking(calls: seq<Call>, resolved: set<Lock>, i: nat, l: Lock)
    requires i < |calls| && calls[i].stage.Parked? && calls[i].stage.on in resolved && l !in resolved
    ensures Awake(calls[i := calls[i].(stage := Parked(l))], resolved) == Awake(calls, resolved) - 1
  {
    var c := calls[i].(stage := Parked(l));
    if i > 0 {
      AwakeAfterReparking(calls[1..], resolved, i - 1, l);
      assert calls[i := c][1..] == calls[1..][i - 1 := c];
    } else {
      assert calls[i := c][1..] == calls[1..];
    }
  }

  /** A step by a call that is already there, rather than a new arrival or a hand-back. */
  predicate Own(step: Step) {
    !step.Arrive? && !step.HandBack?
  }

  ghost predicate Idle(w: World) {
    forall i: nat :: i < |w.calls| ==> w.calls[i].stage.Done?
  }

  /** How much is left to do, the parked calls that are awake counting last. */
  ghost predicate Less(v: World, w: World) {
    Work(v.calls) < Work(w.calls)
    || (Work(v.calls) == Work(w.calls) && Awake(v.calls, v.resolved) < Awake(w.calls, w.resolved))
  }

  /** Every own step lowers the remaining work, or re-parks a woken call without adding work. */
  lemma OwnStepsProgress(w: World, step: Step)
    requires Safe(w) && Enabled(w, step) && Own(step)
    ensures Less(Next(w, step), w)
  {
    var v, i := Next(w, step), step.call;
    WorkOfUpdate(w.calls, i, v.calls[i]);
    assert v.calls == w.calls[i := v.calls[i]];
    if w.calls[i].stage.Parked? && v.calls[i].stage.Parked? {
      AwakeAfterReparking(w.calls, w.resolved, i, v.calls[i].stage.on);
    }
  }

  /** The step that takes a call out of its stage. */
  function MoveOf(c: Call, i: nat): Step {
    match c.stage
    case Fetching => Settled(i, Outage)
    case Sequenced(_, _) => Resumed(i)
    case Leaving(_, _) => Left(i)
    case _ => Try(i)
  }

  /** While any call is unfinished, some call can move: nobody waits for a lock that nobody will free. */
  lemma NeverStuck(w: World)
    requires Safe(w) && !Idle(w)
    ensures exists step :: Enabled(w, step) && Own(step)
  {
    var i: nat :| i < |w.calls| && !w.calls[i].stage.Done?;
    var holder: nat := i;
    if w.calls[i].stage.Parked? && w.calls[i].stage.on !in w.resolved {
      holder :| HeldBy(w, w.calls[i].account, holder);
    }
    var move := MoveOf(w.calls[holder], holder);
    assert Enabled(w, move) && Own(move);
  }

  /** Steps of calls that are already there, each possible when its turn comes. */
  predicate Schedule(w: World, steps: seq<Step>)
    decreases |steps|
  {
    steps == [] || (Enabled(w, steps[0]) && Own(steps[0]) && Schedule(Next(w, steps[0]), steps[1..]))
  }

  function Follow(w: World, steps: seq<Step>): World
    requires Schedule(w, steps)
    decreases |steps|
  {
    if steps == [] then w else Follow(Next(w, steps[0]), steps[1..])
  }

  ghost predicate SameCalls(w: World, v: World) {
    && |w.calls| == |v.calls|
    && forall i :: 0 <= i < |w.calls| ==> w.calls[i].op == v.calls[i].op && w.calls[i].account == v.calls[i].account
  }

  lemma {:induction false} AwakeIsSome(calls: seq<Call>, resolved: set<Lock>)
    ensures Awake(calls, resolved) <= |calls|
  {
    if calls != [] {
      AwakeIsSome(calls[1..], resolved);
    }
  }

  /** The most steps that can still be taken. */
  function StepsLeft(w: World): nat {
    Work(w.calls) * (|w.calls| + 1) + Awake(w.calls, w.resolved)
  }

  lemma OneStepLess(w: World, step: Step)
    requires Safe(w) && Enabled(w, step) && Own(step)
    ensures StepsLeft(Next(w, step)) < StepsLeft(w)
  {
    var v := Next(w, step);
    OwnStepsProgress(w, step);
    AwakeIsSome(v.calls, v.resolved);
    LessProduct(Work(v.calls), Work(w.calls), |w.calls| + 1);
  }

  lemma {:induction false} LessProduct(x: nat, y: nat, m: nat)
    ensures x < y ==> x * m + m <= y * m
  {
    if x < y {
      LessProduct(x, y - 1, m);
      assert y * m == (y - 1) * m + m;
    }
  }

  lemma StepKeepsCalls(w: World, step: Step)
    requires Enabled(w, step) && Own(step)
    ensures SameCalls(w, Next(w, step))
  {
  }

  lemma SameCallsThrough(u: World, v: World, w: World)
    requires SameCalls(u, v) && SameCalls(v, w)
    ensures SameCalls(u, w)
  {
  }

  lemma {:induction false} ScheduleIsBounded(w: World, steps: seq<Step>)
    requires Safe(w) && Schedule(w, steps)
    ensures var v := Follow(w, steps); Safe(v) && |steps| + StepsLeft(v) <= StepsLeft(w) && SameCalls(w, v)
    decreases |steps|
  {
    if steps != [] {
      StepKeepsSafe(w, steps[0]);
      OneStepLess(w, steps[0]);
      StepKeepsCalls(w, steps[0]);
      ScheduleIsBounded(Next(w, steps[0]), steps[1..]);
      SameCallsThrough(w, Next(w, steps[0]), Follow(w, steps));
    }
  }

  /**
   * Whatever order the scheduler picks, once calls stop arriving they take at most `StepsLeft`
   * steps between them, and as long as any of them is unfinished one more is possible: there is
   * neither deadlock nor an endless round of waking and parking again.
   */
  lemma EveryScheduleFinishes(w: World, steps: seq<Step>)
    requires Safe(w) && Schedule(w, steps)
    ensures var v := Follow(w, steps);
            && |steps| <= StepsLeft(w) && SameCalls(w, v)
            && (Idle(v) <==> forall step :: Own(step) ==> !Enabled(v, step))
  {
    ScheduleIsBounded(w, steps);
    var v := Follow(w, steps);
    if !Idle(v) {
      NeverStuck(v);
    }
  }
}
