/** The chain of state commitments (engine-core/src/audit.rs). */
module Audit {
  import opened Wrappers
  import opened ContractState
  import CircuitBreaker

  datatype StateCommitment = StateCommitment(sequence: U64, stateHash: Hash, ledger: U32, author: Address)

  /** What a commitment pins down besides the previous hash. */
  datatype Link = Link(sequence: U64, payload: seq<Byte>)

  function Pow256(width: nat): (p: nat)
    ensures p > 0
  {
    if width == 0 then 1 else 0x100 * Pow256(width - 1)
  }

  function BigEndian(n: nat, width: nat): (bytes: seq<Byte>)
    ensures |bytes| == width
  {
    if width == 0 then [] else BigEndian(n / 0x100, width - 1) + [(n % 0x100) as Byte]
  }

  function Encode(prev: Hash, sequence: U64, payload: seq<Byte>): seq<Byte> {
    prev + BigEndian(sequence, 8) + payload
  }

  function ComputeCommitment(sha: Digest, prev: Hash, sequence: U64, payload: seq<Byte>): Hash {
    sha(Encode(prev, sequence, payload))
  }

  function IntegrityCheck(sha: Digest, st: Storage, c: StateCommitment, payload: seq<Byte>): Result<bool, Error> {
    var last :- ReadU64(st, SEQ, 0);
    if c.sequence <= last then
      Ok(false)
    else
      var prev :- ReadHash(st, PREV_H);
      Ok(ComputeCommitment(sha, prev, c.sequence, payload) == c.stateHash)
  }

  /** `validate_transition_inner`: for callers that already hold the guard. */
  function ValidateTransitionInner(sha: Digest, s: State, c: StateCommitment, payload: seq<Byte>): Result<State, Error> {
    var _ :- AssertClosed(s.instance);
    var ok :- IntegrityCheck(sha, s.instance, c, payload);
    if !ok then
      var last :- ReadU64(s.instance, SEQ, 0);
      if c.sequence <= last then Err(ReplayedSequence) else Err(HashMismatch)
    else
      Ok(s.(instance := s.instance[SEQ := U64Val(c.sequence)][PREV_H := HashVal(c.stateHash)]))
  }

  /** ... which it neither reads nor moves. */
  lemma InnerIgnoresGuard(sha: Digest, s: State, c: StateCommitment, payload: seq<Byte>)
    ensures var free := ValidateTransitionInner(sha, s, c, payload);
            var held := ValidateTransitionInner(sha, s.(locked := true), c, payload);
            if free.Ok? then held == Ok(free.value.(locked := true)) && free.value.locked == s.locked else held == free
  {
  }

  function ValidateTransition(sha: Digest, s: State, c: StateCommitment, payload: seq<Byte>): Result<State, Error> {
    var _ :- EnterGuard(s);
    ValidateTransitionInner(sha, s, c, payload)
  }

  // ----- what a committed transition did -----

  function SequenceOf(st: Storage): U64 {
    if SEQ in st && st[SEQ].U64Val? then st[SEQ].u64 else 0
  }

  function HeadOf(st: Storage): Hash {
    if PREV_H in st && st[PREV_H].HashVal? then st[PREV_H].hash else ZERO_HASH
  }

  /** A new commitment: a higher sequence, chained to the old head, both recorded. */
  predicate Extended(sha: Digest, st: Storage, c: StateCommitment, payload: seq<Byte>, st': Storage) {
    && c.sequence > SequenceOf(st)
    && SequenceOf(st') == c.sequence
    && HeadOf(st') == c.stateHash == ComputeCommitment(sha, HeadOf(st), c.sequence, payload)
  }

  lemma CommittedExtends(sha: Digest, s: State, c: StateCommitment, payload: seq<Byte>)
    requires ValidateTransitionInner(sha, s, c, payload).Ok?
    ensures Extended(sha, s.instance, c, payload, ValidateTransitionInner(sha, s, c, payload).value.instance)
  {
  }

  const KEYS := {SEQ, PREV_H}

  ghost predicate OwnTypes(st: Storage) {
    (SEQ in st ==> st[SEQ].U64Val?) && (PREV_H in st ==> st[PREV_H].HashVal?)
  }

  lemma Frame(sha: Digest, s: State, c: StateCommitment, payload: seq<Byte>, k: Symbol)
    requires ValidateTransition(sha, s, c, payload).Ok? && k !in KEYS
    ensures SameAt(s.instance, ValidateTransition(sha, s, c, payload).value.instance, k)
  {
  }

  lemma KeepsTypes(sha: Digest, s: State, c: StateCommitment, payload: seq<Byte>)
    requires OwnTypes(s.instance) && CircuitBreaker.OwnTypes(s.instance)
    ensures var r := ValidateTransition(sha, s, c, payload);
            if r.Ok? then OwnTypes(r.value.instance) else r.error != WrongType
  {
  }

  // ----- what a head hash pins down -----

  /** The head hash after a list of commitments, starting from the all-zero hash. */
  function Head(sha: Digest, links: seq<Link>): Hash {
    if links == [] then ZERO_HASH
    else ComputeCommitment(sha, Head(sha, links[..|links| - 1]), links[|links| - 1].sequence, links[|links| - 1].payload)
  }

  lemma {:induction false} BigEndianInjective(n: nat, m: nat, width: nat)
    requires n < Pow256(width) && m < Pow256(width) && BigEndian(n, width) == BigEndian(m, width)
    ensures n == m
  {
    if width > 0 {
      var a, b := BigEndian(n, width), BigEndian(m, width);
      assert a[..width - 1] == BigEndian(n / 0x100, width - 1) && b[..width - 1] == BigEndian(m / 0x100, width - 1);
      assert a[width - 1] == n % 0x100 && b[width - 1] == m % 0x100;
      BigEndianInjective(n / 0x100, m / 0x100, width - 1);
    }
  }

  /** Fixed widths in front make the encoding readable in one way only. */
  lemma EncodeInjective(prev: Hash, sequence: U64, payload: seq<Byte>, prev': Hash, sequence': U64, payload': seq<Byte>)
    requires Encode(prev, sequence, payload) == Encode(prev', sequence', payload')
    ensures prev == prev' && sequence == sequence' && payload == payload'
  {
    var x, y := Encode(prev, sequence, payload), Encode(prev', sequence', payload');
    assert x[..32] == prev && y[..32] == prev';
    assert x[32..40] == BigEndian(sequence, 8) && y[32..40] == BigEndian(sequence', 8);
    assert x[40..] == payload && y[40..] == payload';
    assert Pow256(8) == 0x1_0000_0000_0000_0000;
    BigEndianInjective(sequence, sequence', 8);
  }

  /** These bytes: the old head, then the sequence, most significant byte first, then the payload. */
  ghost predicate Spells(x: seq<Byte>, prev: Hash, sequence: U64, payload: seq<Byte>) {
    && |x| == 40 + |payload|
    && (forall i :: 0 <= i < 32 ==> x[i] == prev[i])
    && x[32] == sequence / 0x100_0000_0000_0000 % 0x100 && x[33] == sequence / 0x1_0000_0000_0000 % 0x100
    && x[34] == sequence / 0x100_0000_0000 % 0x100 && x[35] == sequence / 0x1_0000_0000 % 0x100
    && x[36] == sequence / 0x100_0000 % 0x100 && x[37] == sequence / 0x1_0000 % 0x100
    && x[38] == sequence / 0x100 % 0x100 && x[39] == sequence % 0x100
    && (forall i :: 40 <= i < |x| ==> x[i] == payload[i - 40])
  }

  lemma MulGrows(d: nat, x: nat, y: nat)
    ensures x <= y ==> d * x <= d * y
  {
  }

  lemma QuotientIs(n: nat, d: nat, q: nat, r: nat)
    requires n == d * q + r && r < d
    ensures n / d == q
  {
    MulGrows(d, n / d + 1, q);
    MulGrows(d, q + 1, n / d);
    assert n == d * (n / d) + n % d;
  }

  lemma DivideTwice(n: nat, b: nat)
    requires b > 0
    ensures n / 0x100 / b == n / (0x100 * b)
  {
    var q, r := n / 0x100, n % 0x100;
    var bp := b * (q / b);
    assert q == bp + q % b;
    assert (0x100 * b) * (q / b) == 0x100 * bp;
    QuotientIs(n, 0x100 * b, q / b, 0x100 * (q % b) + r);
  }

  lemma {:induction false} DigitAt(n: nat, width: nat, i: nat)
    requires i < width
    ensures BigEndian(n, width)[i] == (n / Pow256(width - 1 - i)) % 0x100
  {
    if i < width - 1 {
      DigitAt(n / 0x100, width - 1, i);
      DivideTwice(n, Pow256(width - 2 - i));
    } else {
      assert Pow256(0) == 1;
    }
  }

  /** The eight digits of a sequence. */
  lemma DigitsOfSequence(sequence: U64)
    ensures var bytes := BigEndian(sequence, 8);
            && bytes[0] == sequence / 0x100_0000_0000_0000 % 0x100 && bytes[1] == sequence / 0x1_0000_0000_0000 % 0x100
            && bytes[2] == sequence / 0x100_0000_0000 % 0x100 && bytes[3] == sequence / 0x1_0000_0000 % 0x100
            && bytes[4] == sequence / 0x100_0000 % 0x100 && bytes[5] == sequence / 0x1_0000 % 0x100
            && bytes[6] == sequence / 0x100 % 0x100 && bytes[7] == sequence % 0x100
  {
    forall i | 0 <= i < 8 ensures BigEndian(sequence, 8)[i] == (sequence / Pow256(7 - i)) % 0x100 {
      DigitAt(sequence, 8, i);
    }
    assert Pow256(0) == 1 && Pow256(1) == 0x100 && Pow256(2) == 0x1_0000 && Pow256(3) == 0x100_0000;
    assert Pow256(4) == 0x1_0000_0000 && Pow256(5) == 0x100_0000_0000 && Pow256(6) == 0x1_0000_0000_0000;
    assert Pow256(7) == 0x100_0000_0000_0000;
  }

  lemma EncodeAt(prev: Hash, sequence: U64, payload: seq<Byte>, i: nat)
    requires i < 40 + |payload|
    ensures Encode(prev, sequence, payload)[i]
            == if i < 32 then prev[i] else if i < 40 then BigEndian(sequence, 8)[i - 32] else payload[i - 40]
  {
  }

  /** What is hashed is spelled out like that. */
  lemma HashedBytes(sha: Digest, prev: Hash, sequence: U64, payload: seq<Byte>, x: seq<Byte>)
    requires Spells(x, prev, sequence, payload)
    ensures ComputeCommitment(sha, prev, sequence, payload) == sha(x)
  {
    var y := Encode(prev, sequence, payload);
    DigitsOfSequence(sequence);
    forall i | 0 <= i < |x| ensures x[i] == y[i] {
      EncodeAt(prev, sequence, payload, i);
    }
    assert x == y;
  }

  /**
   * A commitment is accepted exactly when the breaker is closed, its sequence is above the stored
   * one and its hash is the digest of the stored head, that sequence and the payload, spelled out;
   * the preflight check says yes to just those. An open breaker, a stale sequence and a wrong hash
   * are reported in this order.
   */
  lemma AcceptedExactly(sha: Digest, s: State, c: StateCommitment, payload: seq<Byte>, x: seq<Byte>)
    requires OwnTypes(s.instance) && CircuitBreaker.OwnTypes(s.instance)
    requires Spells(x, if PREV_H in s.instance then s.instance[PREV_H].hash else ZERO_HASH, c.sequence, payload)
    ensures var st, r := s.instance, ValidateTransitionInner(sha, s, c, payload);
            var isNew, open := c.sequence > (if SEQ in st then st[SEQ].u64 else 0), CB_STATE in st && st[CB_STATE].open;
            && IntegrityCheck(sha, st, c, payload) == Ok(isNew && c.stateHash == sha(x))
            && (r.Ok? <==> !open && isNew && c.stateHash == sha(x))
            && (r.Err? ==> r.error == if open then CircuitOpen else if !isNew then ReplayedSequence else HashMismatch)
  {
    HashedBytes(sha, HeadOf(s.instance), c.sequence, payload, x);
  }

  /** An accepted commitment is what is stored from then on, and nothing else changes. */
  lemma AcceptedIsStored(sha: Digest, s: State, c: StateCommitment, payload: seq<Byte>)
    requires ValidateTransitionInner(sha, s, c, payload).Ok?
    ensures var v := ValidateTransitionInner(sha, s, c, payload).value;
            && SEQ in v.instance && v.instance[SEQ] == U64Val(c.sequence)
            && PREV_H in v.instance && v.instance[PREV_H] == HashVal(c.stateHash)
            && (forall k :: k != SEQ && k != PREV_H ==> SameAt(s.instance, v.instance, k))
            && v.(instance := s.instance) == s
  {
  }

  datatype Evidence = SameHistory | Collision(x: seq<Byte>, y: seq<Byte>) | ZeroPreimage(x: seq<Byte>)

  /** Walk two histories back from their heads to the first place where the digest is to blame. */
  function Compare(sha: Digest, a: seq<Link>, b: seq<Link>): Evidence {
    if a == [] && b == [] then
      SameHistory
    else if a == [] then
      ZeroPreimage(LastInput(sha, b))
    else if b == [] then
      ZeroPreimage(LastInput(sha, a))
    else if LastInput(sha, a) != LastInput(sha, b) then
      Collision(LastInput(sha, a), LastInput(sha, b))
    else
      Compare(sha, a[..|a| - 1], b[..|b| - 1])
  }

  /** The bytes whose digest is the head. */
  function LastInput(sha: Digest, links: seq<Link>): seq<Byte>
    requires links != []
  {
    Encode(Head(sha, links[..|links| - 1]), links[|links| - 1].sequence, links[|links| - 1].payload)
  }

  /** The last bytes hashed fix the last link and the head before it. */
  lemma LastInputFixesLast(sha: Digest, a: seq<Link>, b: seq<Link>)
    requires a != [] && b != [] && LastInput(sha, a) == LastInput(sha, b)
    ensures a[|a| - 1] == b[|b| - 1] && Head(sha, a[..|a| - 1]) == Head(sha, b[..|b| - 1])
  {
    EncodeInjective(Head(sha, a[..|a| - 1]), a[|a| - 1].sequence, a[|a| - 1].payload,
                    Head(sha, b[..|b| - 1]), b[|b| - 1].sequence, b[|b| - 1].payload);
  }

  lemma SameButLast(a: seq<Link>, b: seq<Link>)
    requires a != [] && b != [] && a[..|a| - 1] == b[..|b| - 1] && a[|a| - 1] == b[|b| - 1]
    ensures a == b
  {
    assert a == a[..|a| - 1] + [a[|a| - 1]] && b == b[..|b| - 1] + [b[|b| - 1]];
  }

  lemma HeadIsDigest(sha: Digest, a: seq<Link>)
    ensures Head(sha, a) == if a == [] then ZERO_HASH else sha(LastInput(sha, a))
  {
  }

  /** What the walk found is what it claims. */
  ghost predicate Proves(sha: Digest, a: seq<Link>, b: seq<Link>, evidence: Evidence) {
    match evidence
    case SameHistory => a == b
    case Collision(x, y) => x != y && sha(x) == sha(y)
    case ZeroPreimage(x) => sha(x) == ZERO_HASH
  }

  /**
   * Two histories with the same head are the same list of sequences and payloads, or the walk
   * names two inputs with one digest, or an input whose digest is the all-zero hash.
   */
  lemma {:induction false} EqualHeadsTellAll(sha: Digest, a: seq<Link>, b: seq<Link>)
    requires Head(sha, a) == Head(sha, b)
    ensures Proves(sha, a, b, Compare(sha, a, b))
    decreases |a|
  {
    HeadIsDigest(sha, a);
    HeadIsDigest(sha, b);
    if a != [] && b != [] && LastInput(sha, a) == LastInput(sha, b) {
      LastInputFixesLast(sha, a, b);
      EqualHeadsTellAll(sha, a[..|a| - 1], b[..|b| - 1]);
      if a[..|a| - 1] == b[..|b| - 1] {
        SameButLast(a, b);
      }
    }
  }
}
