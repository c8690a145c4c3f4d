/** Fee resolution from the network's base fee (engine-bridge/src/gas-oracle.ts). */
module GasOracle {
  import opened Wrappers

  /** `Math.ceil`, on reals rather than doubles. */
  function Ceil(x: real): (c: int)
    ensures c as real - 1.0 < x <= c as real
  {
    -((-x).Floor)
  }

  datatype FeeOptions = FeeOptions(multiplier: Option<real>, safetyStroops: Option<real>)

  datatype ResolvedFee = ResolvedFee(baseFee: real, multiplier: real, safetyStroops: real, maxFee: int)

  function EstimateFee(baseFee: real, opts: FeeOptions): ResolvedFee {
    var multiplier := if opts.multiplier.Some? then opts.multiplier.value else 1.2;
    var safety := if opts.safetyStroops.Some? then opts.safetyStroops.value else 0.0;
    ResolvedFee(baseFee, multiplier, safety, Ceil(baseFee * multiplier + safety))
  }

  lemma CeilIsLeast(x: real, c: int)
    requires x <= c as real
    ensures Ceil(x) <= c
  {
  }

  lemma CeilIs(x: real, c: int)
    requires c as real - 1.0 < x <= c as real
    ensures Ceil(x) == c
  {
    CeilIsLeast(x, c);
    assert Ceil(x) as real > (c - 1) as real;
  }

  /**
   * The estimate is the least whole fee that covers the base fee times the multiplier, 1.2 unless given, plus
   * the margin.
   */
  lemma EstimateIsLeast(baseFee: real, opts: FeeOptions, fee: int)
    ensures var m := if opts.multiplier.Some? then opts.multiplier.value else 1.2;
            var safety := if opts.safetyStroops.Some? then opts.safetyStroops.value else 0.0;
            fee as real >= baseFee * m + safety <==> fee >= EstimateFee(baseFee, opts).maxFee
  {
    var estimate := EstimateFee(baseFee, opts);
    var x := baseFee * estimate.multiplier + estimate.safetyStroops;
    if fee as real >= x {
      CeilIsLeast(x, fee);
    }
  }

  /** An integer may be moved out of a ceiling. */
  lemma CeilOfShift(x: real, k: int)
    ensures Ceil(x + k as real) == Ceil(x) + k
  {
  }
}

/** One envelope for many operations (engine-bridge/src/tx-aggregator.ts). */
module TxAggregation {
  import opened Wrappers
  import opened GasOracle
  import opened NonceManagement

  datatype PlanError = NoOperations

  datatype FeePlan = FeePlan(
    opCount: nat, perOperationMaxFee: int, totalMaxFee: real, unbatchedTotalMaxFee: real, savedStroops: real)

  function Plan(opCount: nat, fee: ResolvedFee): Result<FeePlan, PlanError> {
    if opCount == 0 then
      Err(NoOperations)
    else
      var perOp := Ceil(fee.baseFee * fee.multiplier);
      var total := perOp as real * opCount as real + fee.safetyStroops;
      var unbatched := (perOp as real + fee.safetyStroops) * opCount as real;
      Ok(FeePlan(opCount, perOp, total, unbatched, unbatched - total))
  }

  /** What the built transaction pays: the rounded-up share, once per operation. */
  function FeeSet(plan: FeePlan): int
    requires plan.opCount > 0
  {
    Ceil(plan.totalMaxFee / plan.opCount as real) * plan.opCount
  }

  /** The fee per operation is the product rounded up; the margin is paid once in a batch, and per operation without. */
  lemma PlanExactly(n: nat, fee: ResolvedFee, perOp: int)
    requires perOp as real - 1.0 < fee.baseFee * fee.multiplier <= perOp as real
    ensures Plan(0, fee) == Err(NoOperations)
    ensures n > 0 ==> Plan(n, fee).Ok? && Plan(n, fee).value.opCount == n
                      && Plan(n, fee).value.perOperationMaxFee == perOp
    ensures n > 0 ==> Plan(n, fee).value.totalMaxFee == perOp as real * n as real + fee.safetyStroops
    ensures n > 0 ==> Plan(n, fee).value.unbatchedTotalMaxFee == (perOp as real + fee.safetyStroops) * n as real
  {
    CeilIs(fee.baseFee * fee.multiplier, perOp);
    if n > 0 {
      assert Plan(n, fee).value.perOperationMaxFee == perOp;
    }
  }

  /** The share of a total is the per-operation fee plus the share of the safety margin. */
  lemma ShareOfTotal(n: nat, fee: ResolvedFee)
    requires n > 0
    ensures var plan := Plan(n, fee).value;
            Ceil(plan.totalMaxFee / n as real) == plan.perOperationMaxFee + Ceil(fee.safetyStroops / n as real)
  {
    var plan := Plan(n, fee).value;
    var perOp, m := plan.perOperationMaxFee, n as real;
    assert plan.totalMaxFee / m == fee.safetyStroops / m + perOp as real by {
      assert (fee.safetyStroops / m + perOp as real) * m == plan.totalMaxFee;
    }
    CeilOfShift(fee.safetyStroops / m, perOp);
  }

  lemma ProductIsPositive(x: real, m: real)
    requires x > 0.0 && m > 0.0
    ensures x * m > 0.0
  {
  }

  lemma ShareTimes(s: real, m: real)
    requires m > 0.0
    ensures s / m * m == s
  {
  }

  lemma ScaledAtLeast(s: real, q: real, c: real, m: real)
    requires m > 0.0 && q <= c && q * m == s
    ensures s <= c * m
  {
    if q < c {
      ProductIsPositive(c - q, m);
      assert (c - q) * m == c * m - q * m;
    } else {
      assert c == q;
    }
  }

  lemma ScaledBelow(s: real, q: real, c: real, m: real)
    requires m > 0.0 && c < q + 1.0 && q * m == s
    ensures c * m < s + m
  {
    ProductIsPositive(q + 1.0 - c, m);
    assert (q + 1.0 - c) * m == q * m + m - c * m;
  }

  /** A ceiling of a share, paid n times, covers the whole and overshoots it by less than n. */
  lemma CeilingOfShare(s: real, n: nat)
    requires n > 0
    ensures s <= Ceil(s / n as real) as real * n as real < s + n as real
  {
    ShareTimes(s, n as real);
    ScaledAtLeast(s, s / n as real, Ceil(s / n as real) as real, n as real);
    ScaledBelow(s, s / n as real, Ceil(s / n as real) as real, n as real);
  }

  lemma FeeSetIs(n: nat, fee: ResolvedFee)
    requires n > 0
    ensures var plan := Plan(n, fee).value;
            FeeSet(plan) as real
            == plan.perOperationMaxFee as real * n as real + Ceil(fee.safetyStroops / n as real) as real * n as real
  {
    ShareOfTotal(n, fee);
  }

  /** Every operation is charged the same whole fee. */
  lemma FeeSetPerOperation(plan: FeePlan) returns (each: int)
    requires plan.opCount > 0
    ensures FeeSet(plan) == each * plan.opCount && each as real - 1.0 < plan.totalMaxFee / plan.opCount as real
  {
    each := Ceil(plan.totalMaxFee / plan.opCount as real);
  }

  /** The fee set covers the planned total and overshoots it by less than one stroop per operation. */
  lemma FeeSetCoversPlan(n: nat, fee: ResolvedFee)
    requires n > 0
    ensures var plan := Plan(n, fee).value;
            plan.totalMaxFee <= FeeSet(plan) as real < plan.totalMaxFee + n as real
  {
    FeeSetIs(n, fee);
    CeilingOfShare(fee.safetyStroops, n);
  }

  /** With a whole margin the overshoot is at most n - 1 stroops. */
  lemma WholeMarginOvershoot(n: nat, fee: ResolvedFee, margin: int)
    requires n > 0 && fee.safetyStroops == margin as real
    ensures var plan := Plan(n, fee).value;
            FeeSet(plan) as real <= plan.totalMaxFee + n as real - 1.0
  {
    FeeSetIs(n, fee);
    CeilingOfShare(fee.safetyStroops, n);
    var c := Ceil(fee.safetyStroops / n as real);
    assert (c * n) as real == c as real * n as real;
    assert c * n < margin + n;
  }

  /**
   * Batching never costs more than sending the operations one by one exactly when the rounded
   * share of the margin fits in the margin.
   */
  lemma BatchNeverDearerExactly(n: nat, fee: ResolvedFee)
    requires n > 0
    ensures var plan := Plan(n, fee).value;
            FeeSet(plan) as real <= plan.unbatchedTotalMaxFee
            <==> Ceil(fee.safetyStroops / n as real) as real <= fee.safetyStroops
  {
    ShareOfTotal(n, fee);
    var plan := Plan(n, fee).value;
    var p, c, m := plan.perOperationMaxFee, Ceil(fee.safetyStroops / n as real), n as real;
    assert FeeSet(plan) as real == (p as real + c as real) * m;
    if c as real <= fee.safetyStroops {
      assert (p as real + c as real) * m <= (p as real + fee.safetyStroops) * m;
    } else {
      assert (p as real + c as real) * m > (p as real + fee.safetyStroops) * m;
    }
  }

  /** ... which every whole, non-negative margin satisfies. */
  lemma BatchNeverDearer(n: nat, fee: ResolvedFee, margin: nat)
    requires n > 0 && fee.safetyStroops == margin as real
    ensures FeeSet(Plan(n, fee).value) as real <= Plan(n, fee).value.unbatchedTotalMaxFee
  {
    BatchNeverDearerExactly(n, fee);
    var m := n as real;
    assert margin as real / m <= margin as real by {
      assert margin as real <= margin as real * m;
    }
    CeilIsLeast(margin as real / m, margin);
  }

  /** Half a stroop of margin on one operation: the batch pays a stroop, the plan allows half. */
  lemma FractionalMarginCostsMore()
    ensures var plan := Plan(1, ResolvedFee(100.0, 1.0, 0.5, 101)).value;
            FeeSet(plan) as real > plan.unbatchedTotalMaxFee
  {
  }

  lemma SavingsOf(n: nat, fee: ResolvedFee)
    requires n > 0
    ensures Plan(n, fee).value.savedStroops == (n - 1) as real * fee.safetyStroops
  {
  }

  lemma FeeSetOfOne(plan: FeePlan, fee: int)
    requires plan.opCount == 1 && plan.totalMaxFee == fee as real
    ensures FeeSet(plan) == fee
  {
    assert plan.totalMaxFee / 1.0 == plan.totalMaxFee;
    CeilIsLeast(plan.totalMaxFee, fee);
  }

  lemma SingleIsEstimate(baseFee: real, opts: FeeOptions, margin: int)
    requires EstimateFee(baseFee, opts).safetyStroops == margin as real
    ensures var fee := EstimateFee(baseFee, opts);
            Plan(1, fee).value.totalMaxFee == fee.maxFee as real && FeeSet(Plan(1, fee).value) == fee.maxFee
  {
    var fee := EstimateFee(baseFee, opts);
    CeilOfShift(baseFee * fee.multiplier, margin);
    FeeSetOfOne(Plan(1, fee).value, fee.maxFee);
  }

  /** The plan saves the margin on all but one operation, and for one operation it is the oracle's fee. */
  lemma SavingsAndSingle(n: nat, baseFee: real, opts: FeeOptions, margin: int)
    requires n > 0
    requires EstimateFee(baseFee, opts).safetyStroops == margin as real
    ensures var plan := Plan(n, EstimateFee(baseFee, opts)).value;
            && plan.savedStroops == (n - 1) as real * margin as real
            && (n == 1 ==> FeeSet(plan) == EstimateFee(baseFee, opts).maxFee
                           && plan.totalMaxFee == EstimateFee(baseFee, opts).maxFee as real)
  {
    SavingsOf(n, EstimateFee(baseFee, opts));
    SingleIsEstimate(baseFee, opts, margin);
  }

  // ----- reserving and handing back numbers -----

  /** One call of `build`: how many signers, what the network says, and whether planning and signing succeed. */
  datatype Attempt = Attempt(signers: nat, opCount: nat, read: Read, finishes: bool)

  /** A build that nobody interleaves with: the new cache and the number of the built transaction. */
  function Build(cache: map<Account, int>, a: Account, attempt: Attempt): (map<Account, int>, Option<int>) {
    if attempt.signers == 0 || (a !in cache && attempt.read.Outage?) then
      (cache, None)
    else
      var sequence := if a in cache then cache[a] else attempt.read.sequence + 1;
      var reserved := cache[a := sequence + 1];
      if attempt.opCount > 0 && attempt.finishes then
        (reserved, Some(sequence))
      else
        (SerialNext(reserved, Released(a, sequence)), None)
  }

  class TxAggregator {
    const nonces: NonceManager

    constructor (nonces: NonceManager)
      ensures this.nonces == nonces
    {
      this.nonces := nonces;
    }

    /** `build` from where its reservation settles, whatever has happened to the account meanwhile. */
    method FinishBuild(a: Account, reserved: int, attempt: Attempt) returns (sequence: Option<int>)
      modifies nonces`cache
      ensures sequence == if attempt.opCount > 0 && attempt.finishes then Some(reserved) else None
      ensures nonces.Mem() == if sequence.Some? then old(nonces.Mem()) else Release(old(nonces.Mem()), a, reserved)
    {
      if attempt.opCount == 0 || !attempt.finishes {
        nonces.ReleaseNumber(a, reserved);
        return None;
      }
      sequence := Some(reserved);
    }

    /** A build that nobody interleaves with. */
    method BuildTransaction(a: Account, attempt: Attempt) returns (sequence: Option<int>)
      requires a !in nonces.locks
      modifies nonces
      ensures (nonces.cache, sequence) == Build(old(nonces.cache), a, attempt)
      ensures attempt.signers == 0 ==> sequence == None && nonces.cache == old(nonces.cache)
      ensures attempt.opCount == 0 || !attempt.finishes ==> sequence == None
      ensures sequence.Some?
              ==> sequence.value == (if a in old(nonces.cache) then old(nonces.cache)[a] else attempt.read.sequence + 1)
                  && nonces.cache == old(nonces.cache)[a := sequence.value + 1]
      ensures attempt.signers > 0 && attempt.opCount > 0 && attempt.finishes
              ==> (sequence.None? <==> a !in old(nonces.cache) && attempt.read.Outage?)
      ensures nonces.locks == old(nonces.locks)
    {
      if attempt.signers == 0 {
        return None;
      }
      var outcome := nonces.ReserveAlone(a, attempt.read);
      if outcome.Failed? {
        return None;
      }
      sequence := FinishBuild(a, outcome.sequence, attempt);
    }
  }

  /** The cache after a series of builds, and the numbers of those that succeeded, in order. */
  function Builds(cache: map<Account, int>, a: Account, attempts: seq<Attempt>): (map<Account, int>, seq<int>)
    decreases |attempts|
  {
    if attempts == [] then
      (cache, [])
    else
      var (next, built) := Build(cache, a, attempts[0]);
      var (last, rest) := Builds(next, a, attempts[1..]);
      (last, if built.Some? then [built.value] + rest else rest)
  }

  /** Whatever fails after reserving, the transactions that are built are numbered without gap or repeat. */
  lemma {:induction false} BuiltNumbersHaveNoGap(cache: map<Account, int>, a: Account, attempts: seq<Attempt>)
    ensures var (last, numbers) := Builds(cache, a, attempts);
            && (forall k :: 0 <= k < |numbers| ==> numbers[k] == numbers[0] + k)
            && (numbers != [] && a in cache ==> numbers[0] == cache[a])
            && (numbers != [] ==> a in last && last[a] == numbers[0] + |numbers|)
            && (numbers == [] && a in cache ==> a in last && last[a] == cache[a])
    decreases |attempts|
  {
    if attempts != [] {
      BuiltNumbersHaveNoGap(Build(cache, a, attempts[0]).0, a, attempts[1..]);
    }
  }
}

/** The protocol's cut of an amount, in basis points (engine-core/src/protocol_fee.rs). */
module ProtocolFee {
  import opened Wrappers

  const MAX_BPS: nat := 10_000
  const I128_MAX: int := 0x7FFF_FFFF_FFFF_FFFF_FFFF_FFFF_FFFF_FFFF

  datatype FeeError = InvalidAmount | FeeCalculationOverflow

  /** The fee and what is left of the amount. */
  function CalculateFee(bps: nat, amount: int): (r: Result<(int, int), FeeError>)
    ensures bps <= 10_000 && r.Ok? ==>
              var (fee, net) := r.value;
              fee + net == amount && 0 <= fee <= amount && 10_000 * fee <= amount * bps < 10_000 * (fee + 1)
    ensures r.Ok? <==> amount >= 0 && amount * bps <= I128_MAX
    ensures r.Err? ==> r.error == if amount < 0 then InvalidAmount else FeeCalculationOverflow
  {
    if amount < 0 then
      Err(InvalidAmount)
    else if bps == 0 || amount == 0 then
      Ok((0, amount))
    else if amount * bps > I128_MAX then
      Err(FeeCalculationOverflow)
    else
      var fee := amount * bps / MAX_BPS;
      Ok((fee, amount - fee))
  }

  /** The fee the contract takes whenever the product fits. */
  function FeeOf(bps: nat, amount: nat): nat {
    amount * bps / MAX_BPS
  }

  function Sum(parts: seq<nat>): nat {
    if parts == [] then 0 else parts[0] + Sum(parts[1..])
  }

  function FeesOf(bps: nat, parts: seq<nat>): nat {
    if parts == [] then 0 else FeeOf(bps, parts[0]) + FeesOf(bps, parts[1..])
  }

  lemma FeeOfSum(bps: nat, x: nat, y: nat)
    ensures FeeOf(bps, x) + FeeOf(bps, y) <= FeeOf(bps, x + y) <= FeeOf(bps, x) + FeeOf(bps, y) + 1
  {
  }

  /** Splitting a payment never raises the summed fees, and lowers them by less than one unit per part. */
  lemma {:induction false} SplittingBounds(bps: nat, parts: seq<nat>)
    requires |parts| > 0
    ensures FeesOf(bps, parts) <= FeeOf(bps, Sum(parts)) <= FeesOf(bps, parts) + |parts| - 1
    decreases |parts|
  {
    if |parts| > 1 {
      SplittingBounds(bps, parts[1..]);
      FeeOfSum(bps, parts[0], Sum(parts[1..]));
    } else {
      assert FeesOf(bps, parts[1..]) == 0 && Sum(parts[1..]) == 0;
    }
  }

  lemma {:induction false} PartsFit(bps: nat, parts: seq<nat>, i: nat)
    requires i < |parts|
    ensures parts[i] * bps <= Sum(parts) * bps
    decreases |parts|
  {
    assert Sum(parts) * bps == parts[0] * bps + Sum(parts[1..]) * bps;
    if i > 0 {
      PartsFit(bps, parts[1..], i - 1);
    }
  }

  /** When the fee on the whole can be computed, so can the fee on every part, and the bounds are about those. */
  lemma SplitPayment(bps: nat, parts: seq<nat>)
    requires |parts| > 0 && CalculateFee(bps, Sum(parts)).Ok?
    ensures forall i :: 0 <= i < |parts| ==>
              CalculateFee(bps, parts[i]).Ok? && CalculateFee(bps, parts[i]).value.0 == FeeOf(bps, parts[i])
    ensures CalculateFee(bps, Sum(parts)).value.0 == FeeOf(bps, Sum(parts))
    ensures FeesOf(bps, parts) <= CalculateFee(bps, Sum(parts)).value.0 <= FeesOf(bps, parts) + |parts| - 1
  {
    forall i | 0 <= i < |parts|
      ensures CalculateFee(bps, parts[i]).Ok? && CalculateFee(bps, parts[i]).value.0 == FeeOf(bps, parts[i])
    {
      PartsFit(bps, parts, i);
    }
    SplittingBounds(bps, parts);
  }
}
