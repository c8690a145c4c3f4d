/**
 * Which pending recoveries can still be paid, when anybody may send the contract tokens
 * (engine-core/src/emergency_recovery.rs).
 */
module FundingRuns {
  import opened Wrappers
  import opened ContractState
  import opened Protocol
  import opened RecoveryRuns
  import MapSums

  // ----- no account ever owes tokens -----

  ghost predicate NoDebts(s: State, token: Address) {
    forall who :: who in Holdings(s, token) ==> Holdings(s, token)[who] >= 0
  }

  lemma PaymentLeavesNoDebts(s: State, x: Transfer, s': State, token: Address)
    requires PaidOut(s, x, s') && NoDebts(s, token)
    ensures NoDebts(s', token)
  {
    assert Holdings(s', token)
        == if x.token == token then Moved(Holdings(s, token), x.from, x.to, x.amount) else Holdings(s, token);
  }

  lemma {:induction false} RunHasNoDebts(d: Deployment, t: Trace, token: Address)
    requires NoDebts(d.initial, token)
    ensures NoDebts(After(d, t), token)
  {
    if t.Then? {
      RunHasNoDebts(d, t.past, token);
      var paid := AtMostOneTransfer(d.sha, After(d, t.past), t.tx);
      if paid.Some? {
        PaymentLeavesNoDebts(After(d, t.past), paid.value, After(d, t), token);
      } else {
        assert Holdings(After(d, t), token) == Holdings(After(d, t.past), token);
      }
    }
  }

  function In(held: map<Address, int>, who: Address): int {
    if who in held then held[who] else 0
  }

  lemma {:induction false} NoneHoldsMore(held: map<Address, int>, who: Address)
    requires forall a :: a in held ==> held[a] >= 0
    ensures In(held, who) <= MapSums.Total(held)
    decreases |held|
  {
    if held != map[] {
      var a :| a in held;
      MapSums.TotalOfRemoved(held, if who in held then who else a);
      NoneHoldsMore(held - {if who in held then who else a}, who);
    }
  }

  /** Whatever the contract does not hold itself somebody else holds. */
  lemma {:induction false} OthersHoldTheRest(held: map<Address, int>)
    requires MapSums.Total(held) > In(held, Contract)
    ensures exists who :: who in held && who != Contract && held[who] > 0
    decreases |held|
  {
    var who :| who in held;
    MapSums.TotalOfRemoved(held, who);
    if who == Contract || held[who] <= 0 {
      OthersHoldTheRest(held - {who});
      var other :| other in held - {who} && other != Contract && (held - {who})[other] > 0;
      assert held[other] > 0;
    }
  }

  // ----- sending it to the contract -----

  function Holders(held: map<Address, int>): set<Address> {
    set who | who in held && who != Contract && held[who] > 0
  }

  lemma OneHolderFewer(held: map<Address, int>, who: Address)
    requires who in Holders(held)
    ensures Holders(Moved(held, who, Contract, held[who])) == Holders(held) - {who}
  {
  }

  /** An account sends the contract all it holds; the pending request stays as it is. */
  lemma DepositRuns(d: Deployment, t: Trace, token: Address, who: Address) returns (u: Trace)
    requires Ordered(t) && who in Holders(Holdings(After(d, t), token))
    ensures Extends(t, u) && Ordered(u) && ViewAt(d, u) == ViewAt(d, t) && HistoryOf(d, u) == HistoryOf(d, t)
    ensures MapSums.Total(Holdings(After(d, u), token)) == MapSums.Total(Holdings(After(d, t), token))
    ensures Holders(Holdings(After(d, u), token)) == Holders(Holdings(After(d, t), token)) - {who}
  {
    var held := Holdings(After(d, t), token);
    u := Then(t, Tx(Context(LastLedger(t), {}), Move(token, who, Contract, held[who])));
    assert Extends(t, u.past);
    ViewMoves(d, u);
    TotalsAreConserved(d, t, token);
    TotalsAreConserved(d, u, token);
    OneHolderFewer(held, who);
    assert Holdings(After(d, u), token) == Moved(held, who, Contract, held[who]);
  }

  lemma {:induction false} FundedRun(d: Deployment, t: Trace, token: Address, amount: int) returns (u: Trace)
    requires Ordered(t) && MapSums.Total(Holdings(After(d, t), token)) >= amount
    ensures Extends(t, u) && Ordered(u) && ViewAt(d, u) == ViewAt(d, t) && HistoryOf(d, u) == HistoryOf(d, t)
    ensures BalanceOf(After(d, u), token, Contract) >= amount
    decreases |Holders(Holdings(After(d, t), token))|
  {
    u := t;
    var held := Holdings(After(d, t), token);
    if In(held, Contract) < amount {
      OthersHoldTheRest(held);
      var who :| who in held && who != Contract && held[who] > 0;
      var next := DepositRuns(d, t, token, who);
      u := FundedRun(d, next, token, amount);
      ExtendsFurther(t, next, u);
    }
  }

  // ----- when a pending request can be paid -----

  /** Some continuation of the run pays the request of its end. */
  ghost predicate CanBePaid(d: Deployment, t: Trace) {
    exists u :: Extends(t, u) && Ordered(u) && PaysOut(d, u) && HistoryOf(d, u).request == HistoryOf(d, t).request
  }

  lemma FundedIsPaid(d: Deployment, t: Trace, funded: Trace)
    requires d.Blank() && Extends(t, funded) && Ordered(funded) && HistoryOf(d, funded) == HistoryOf(d, t)
    requires Covered(d, funded)
    ensures CanBePaid(d, t)
  {
    PendingCanBePaid(d, funded);
    var u :| Extends(funded, u) && Ordered(u) && PaysOut(d, u)
             && HistoryOf(d, u).request == HistoryOf(d, funded).request;
    ExtendsFurther(t, funded, u);
  }

  /** What is paid was there: the accounts together hold as much. */
  lemma PaidWasThere(d: Deployment, t: Trace, u: Trace)
    requires d.Blank() && PaysOut(d, u) && HistoryOf(d, u).request == HistoryOf(d, t).request
    requires HistoryOf(d, t).request.Some? && NoDebts(d.initial, HistoryOf(d, t).request.value.token)
    ensures var r := HistoryOf(d, t).request.value; MapSums.Total(Holdings(After(d, t), r.token)) >= r.amount
  {
    var r, s := HistoryOf(d, t).request.value, After(d, u.past);
    PayoutIsBacked(d, u);
    var paid := AtMostOneTransfer(d.sha, s, u.tx);
    assert paid.value == After(d, u).transfers[|s.transfers|] == Transfer(r.token, Contract, r.dest, r.amount);
    RunHasNoDebts(d, u.past, r.token);
    NoneHoldsMore(Holdings(s, r.token), Contract);
    TotalsAreConserved(d, u.past, r.token);
    TotalsAreConserved(d, t, r.token);
  }

  /**
   * A pending request can be paid by some continuation of the run exactly when all accounts
   * together hold as much of its token as it asks for: whatever the contract lacks others may send.
   */
  lemma PayableExactly(d: Deployment, t: Trace)
    requires d.Blank() && Ordered(t) && RecoveryRuns.Pending(ViewAt(d, t)) && forall token :: NoDebts(d.initial, token)
    ensures HistoryOf(d, t).request.Some?
    ensures var r := HistoryOf(d, t).request.value;
            CanBePaid(d, t) <==> MapSums.Total(Holdings(After(d, t), r.token)) >= r.amount
  {
    RunIsSound(d, t);
    var r := HistoryOf(d, t).request.value;
    if MapSums.Total(Holdings(After(d, t), r.token)) >= r.amount {
      var funded := FundedRun(d, t, r.token, r.amount);
      FundedIsPaid(d, t, funded);
    } else if u :| Extends(t, u) && Ordered(u) && PaysOut(d, u) && HistoryOf(d, u).request == HistoryOf(d, t).request {
      PaidWasThere(d, t, u);
    }
  }
}
