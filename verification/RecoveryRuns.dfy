/** Recovery payouts and token balances over whole runs (engine-core/src/emergency_recovery.rs, protocol_fee.rs). */
module RecoveryRuns {
  import opened Wrappers
  import opened ContractState
  import opened Protocol
  import opened EmergencyRecovery
  import FeeCollection
  import BreakerRuns
  import MapSums

  function ViewAt(d: Deployment, t: Trace): View {
    ViewOf(After(d, t).instance)
  }

  predicate Recovers(d: Deployment, t: Trace) {
    Accepted(d, t) && t.tx.call.Recovery?
  }

  // ----- the history of the latest request, read off the trace alone -----

  datatype Request = Request(token: Address, dest: Address, amount: I128)

  /** What was last asked for, who has backed it since, and how often the contract has paid since. */
  datatype History = History(request: Option<Request>, backers: seq<Address>, payouts: nat)

  function HistoryNext(h: History, call: EmergencyRecovery.Call, paid: bool): History {
    var asked :=
      match call
      case Establish(_, _) => h
      case Ask(requester, token, dest, amount) => History(Some(Request(token, dest, amount)), [requester], 0)
      case Endorse(admin) => h.(backers := h.backers + [admin]);
    if paid then asked.(payouts := asked.payouts + 1) else asked
  }

  /** The last transaction was a recovery call and made the contract pay. */
  predicate PaysOut(d: Deployment, t: Trace) {
    Recovers(d, t) && After(d, t).transfers != After(d, t.past).transfers
  }

  function HistoryOf(d: Deployment, t: Trace): History {
    if t.Genesis? then History(None, [], 0)
    else if Recovers(d, t) then HistoryNext(HistoryOf(d, t.past), t.tx.call.recovery, PaysOut(d, t))
    else HistoryOf(d, t.past)
  }

  /** Whoever asked or approved had signed that transaction, and the breaker was closed. */
  predicate ProperlySigned(d: Deployment, t: Trace) {
    t.Then? ==>
      && ProperlySigned(d, t.past)
      && (Recovers(d, t) && !t.tx.call.recovery.Establish? ==>
            !ViewAt(d, t.past).open
            && (if t.tx.call.recovery.Ask? then t.tx.call.recovery.requester else t.tx.call.recovery.admin)
               in t.tx.ctx.auths)
  }

  // ----- the invariant -----

  predicate Pending(v: View) {
    v.dest.Some?
  }

  ghost predicate Configured(v: View) {
    && NoRepeats(v.admins)
    && (if v.established then 0 < v.threshold <= |v.admins| else v.admins == [] && !Pending(v))
  }

  /** Distinct admins, fewer than the threshold, and none exactly when nothing is pending. */
  ghost predicate Short(v: View) {
    && NoRepeats(v.approvals)
    && (forall i :: 0 <= i < |v.approvals| ==> v.approvals[i] in v.admins)
    && (v.approvals != [] <==> Pending(v))
    && (Pending(v) ==> |v.approvals| < v.threshold)
  }

  /** A pending request is the last one made, its approvals are its backers, and it has not paid yet. */
  ghost predicate Faithful(v: View, h: History) {
    if Pending(v) then
      Complete(v) && 0 < v.amount.value <= U64_MAX
      && h == History(Some(Request(v.token.value, v.dest.value, v.amount.value)), v.approvals, 0)
    else h.payouts <= 1
  }

  ghost predicate Sound(v: View, h: History) {
    Configured(v) && Short(v) && Faithful(v, h)
  }

  lemma StepKeepsSound(v: View, ctx: Context, call: EmergencyRecovery.Call, s: State, s': State, h: History)
    requires Sound(v, h) && MayCall(v, ctx, call) && Settled(v, call, s, s')
    ensures Sound(ViewOf(s'.instance), HistoryNext(h, call, Pays(v, call)))
  {
  }

  lemma ViewMoves(d: Deployment, t: Trace)
    requires t.Then?
    ensures if Recovers(d, t)
            then MayCall(ViewAt(d, t.past), t.tx.ctx, t.tx.call.recovery)
                 && Settled(ViewAt(d, t.past), t.tx.call.recovery, After(d, t.past), After(d, t))
                 && (PaysOut(d, t) <==> Pays(ViewAt(d, t.past), t.tx.call.recovery))
            else ViewAt(d, t) == ViewAt(d, t.past).(open := ViewAt(d, t).open)
  {
    var s := After(d, t.past);
    if Recovers(d, t) {
      CommittedSteps(s, t.tx.ctx, t.tx.call.recovery);
    } else if !t.tx.call.Recovery? {
      KeysAreApart(t.tx.call);
      OthersUnwritten(d.sha, s, t.tx, EmergencyRecovery.KEYS);
    }
  }

  /**
   * In every run, between transactions: the approvals pending are distinct admins, fewer than the
   * threshold, none exactly when no request is pending, and all for the last request made.
   */
  lemma {:induction false} RunIsSound(d: Deployment, t: Trace)
    requires d.Blank()
    ensures Sound(ViewAt(d, t), HistoryOf(d, t)) && ProperlySigned(d, t)
  {
    if t.Then? {
      RunIsSound(d, t.past);
      ViewMoves(d, t);
      if Recovers(d, t) {
        StepKeepsSound(ViewAt(d, t.past), t.tx.ctx, t.tx.call.recovery, After(d, t.past), After(d, t),
                       HistoryOf(d, t.past));
      }
    }
  }

  /**
   * Whenever a recovery call makes the contract pay, it pays the last request, token, destination
   * and amount, once; and exactly threshold distinct admins have asked for or approved that very
   * request since it was made, each having signed, with the breaker closed.
   */
  lemma PayoutIsBacked(d: Deployment, t: Trace)
    requires d.Blank() && PaysOut(d, t)
    ensures var v, h := ViewAt(d, t.past), HistoryOf(d, t);
            && h.request.Some?
            && After(d, t).transfers == After(d, t.past).transfers
                 + [Transfer(h.request.value.token, Contract, h.request.value.dest, h.request.value.amount)]
            && |h.backers| == v.threshold > 0 && NoRepeats(h.backers) && (forall a :: a in h.backers ==> a in v.admins)
            && h.payouts == 1 && ProperlySigned(d, t)
  {
    RunIsSound(d, t.past);
    RunIsSound(d, t);
    ViewMoves(d, t);
  }

  // ----- a pending request can be paid -----

  lemma {:induction false} DistinctWithinIsNoLonger(xs: seq<Address>, ys: seq<Address>)
    requires NoRepeats(xs) && forall i :: 0 <= i < |xs| ==> xs[i] in ys
    ensures |xs| <= |ys|
    decreases |xs|
  {
    if xs != [] {
      var last := xs[|xs| - 1];
      var k :| 0 <= k < |ys| && ys[k] == last;
      var rest := ys[..k] + ys[k + 1..];
      forall i | 0 <= i < |xs| - 1 ensures xs[i] in rest {
        var j :| 0 <= j < |ys| && ys[j] == xs[i];
        assert rest[if j < k then j else j - 1] == xs[i];
      }
      DistinctWithinIsNoLonger(xs[..|xs| - 1], rest);
    }
  }

  /** While a request is short of approvals, some admin has not approved it. */
  lemma SomeoneIsLeft(v: View) returns (admin: Address)
    requires Configured(v) && Short(v) && Pending(v)
    ensures admin in v.admins && admin !in v.approvals
  {
    if forall i :: 0 <= i < |v.admins| ==> v.admins[i] in v.approvals {
      DistinctWithinIsNoLonger(v.admins, v.approvals);
    }
    var i :| 0 <= i < |v.admins| && v.admins[i] !in v.approvals;
    admin := v.admins[i];
  }

  /** The contract holds what the pending request asks for. */
  predicate Covered(d: Deployment, t: Trace) {
    var v := ViewAt(d, t);
    Pending(v) && Complete(v) && BalanceOf(After(d, t), v.token.value, Contract) >= v.amount.value
  }

  /** One more admin approves, right now; either that pays, or the request waits for fewer approvals. */
  lemma ApprovedNext(d: Deployment, t: Trace) returns (u: Trace)
    requires d.Blank() && Covered(d, t) && !ViewAt(d, t).open
    ensures u.Then? && u.past == t && LastLedger(u) == LastLedger(t)
    ensures HistoryOf(d, u).request == HistoryOf(d, t).request
    ensures PaysOut(d, u) || (Covered(d, u) && !ViewAt(d, u).open && ViewAt(d, u).threshold == ViewAt(d, t).threshold
                              && |ViewAt(d, u).approvals| == |ViewAt(d, t).approvals| + 1)
  {
    RunIsSound(d, t);
    var admin := SomeoneIsLeft(ViewAt(d, t));
    u := Then(t, Tx(Context(LastLedger(t), {admin}), Recovery(EmergencyRecovery.Endorse(admin))));
    RunIsWellTyped(d, t);
    GuardIsFreeBetween(d, t);
    AllowedApprovalCommits(After(d, t), u.tx.ctx, admin);
    ViewMoves(d, u);
  }

  lemma {:induction false} ReachPayout(d: Deployment, t: Trace) returns (u: Trace)
    requires d.Blank() && Ordered(t) && Covered(d, t) && !ViewAt(d, t).open
    ensures Extends(t, u) && Ordered(u) && PaysOut(d, u)
            && HistoryOf(d, u).request == HistoryOf(d, t).request
    decreases ViewAt(d, t).threshold - |ViewAt(d, t).approvals|
  {
    u := ApprovedNext(d, t);
    if !PaysOut(d, u) {
      RunIsSound(d, t);
      var next := u;
      u := ReachPayout(d, next);
      ExtendsFurther(t, next, u);
    }
  }

  lemma ResettingKeepsRequest(d: Deployment, t: Trace, u: Trace)
    requires u.Then? && u.past == t && u.tx.call.Breaker? && Covered(d, t)
    ensures Covered(d, u) && HistoryOf(d, u) == HistoryOf(d, t)
  {
    ViewMoves(d, u);
    CommitSurroundings(d.sha, After(d, t), u.tx);
  }

  /** From every reachable state, a pending request that the contract can pay is paid by some continuation of the run. */
  lemma PendingCanBePaid(d: Deployment, t: Trace)
    requires d.Blank() && Ordered(t) && Covered(d, t)
    ensures exists u :: Extends(t, u) && Ordered(u) && PaysOut(d, u)
                        && HistoryOf(d, u).request == HistoryOf(d, t).request
  {
    var closed := BreakerRuns.WithBreakerClosed(d, t);
    if closed != t {
      ResettingKeepsRequest(d, t, closed);
    }
    var u := ReachPayout(d, closed);
    ExtendsFurther(t, closed, u);
  }

  // ----- tokens -----

  /** What one transfer changes for an account. */
  function Change(x: Transfer, token: Address, who: Address): int {
    (if x.token == token && x.to == who then x.amount else 0) - if x.token == token && x.from == who then x.amount else 0
  }

  /** What an account has gained by these transfers. */
  function Net(transfers: seq<Transfer>, token: Address, who: Address): int {
    if transfers == [] then 0
    else
      Net(transfers[..|transfers| - 1], token, who) + Change(transfers[|transfers| - 1], token, who)
  }

  /** Every committed transaction makes one transfer or none. */
  lemma AtMostOneTransfer(sha: Digest, s: State, tx: Tx) returns (paid: Option<Transfer>)
    ensures var s' := Commit(sha, s, tx);
            if paid.Some? then PaidOut(s, paid.value, s') else TokensUntouched(s, s')
    ensures paid.Some? && paid.value.from == Contract ==> tx.call.Recovery? || tx.call.Fee?
  {
    paid := None;
    if Protocol.Apply(sha, s, tx).Ok? {
      match tx.call {
        case Recovery(call) =>
          CommittedSteps(s, tx.ctx, call);
          if Pays(ViewOf(s.instance), call) {
            paid := Some(Payment(ViewOf(s.instance), call));
          }
        case Fee(call) =>
          FeeCollection.CommittedPays(s, tx.ctx, call);
          if call.Charge? && FeeCollection.StoredFee(s.instance, call.gross).value.0 > 0 {
            paid := Some(Transfer(call.token, Contract, s.instance[FEE_RCP].address,
                                  FeeCollection.StoredFee(s.instance, call.gross).value.0));
          }
        case Move(token, from, to, moved) =>
          paid := Some(Transfer(token, from, to, moved));
        case _ =>
          CommitSurroundings(sha, s, tx);
      }
    }
  }

  lemma TransferConserves(s: State, x: Transfer, s': State, token: Address)
    requires PaidOut(s, x, s')
    ensures MapSums.Total(Holdings(s', token)) == MapSums.Total(Holdings(s, token))
  {
    if x.token == token {
      var paid := Holdings(s, token)[x.from := BalanceOf(s, token, x.from) - x.amount];
      var received := (if x.to in paid then paid[x.to] else 0) + x.amount;
      assert Holdings(s', token) == Moved(Holdings(s, token), x.from, x.to, x.amount) == paid[x.to := received];
      MapSums.TotalOfUpdated(Holdings(s, token), x.from, BalanceOf(s, token, x.from) - x.amount);
      MapSums.TotalOfUpdated(paid, x.to, received);
    }
  }

  /** No run creates or destroys tokens. */
  lemma {:induction false} TotalsAreConserved(d: Deployment, t: Trace, token: Address)
    ensures MapSums.Total(Holdings(After(d, t), token)) == MapSums.Total(Holdings(d.initial, token))
  {
    if t.Then? {
      TotalsAreConserved(d, t.past, token);
      var paid := AtMostOneTransfer(d.sha, After(d, t.past), t.tx);
      if paid.Some? {
        TransferConserves(After(d, t.past), paid.value, After(d, t), token);
      }
    }
  }

  lemma NetOfOneMore(transfers: seq<Transfer>, x: Transfer, token: Address, who: Address)
    ensures Net(transfers + [x], token, who) == Net(transfers, token, who) + Change(x, token, who)
  {
  }

  lemma BalanceMoves(s: State, x: Transfer, token: Address, who: Address)
    requires TokenTransfer(s, x.token, x.from, x.to, x.amount).Ok?
    ensures BalanceOf(TokenTransfer(s, x.token, x.from, x.to, x.amount).value, token, who)
            == BalanceOf(s, token, who) + Change(x, token, who)
  {
  }

  lemma TransferMovesNet(s: State, x: Transfer, s': State, token: Address, who: Address)
    requires PaidOut(s, x, s')
    ensures BalanceOf(s', token, who) - BalanceOf(s, token, who)
            == Net(s'.transfers, token, who) - Net(s.transfers, token, who)
  {
    NetOfOneMore(s.transfers, x, token, who);
    BalanceMoves(s, x, token, who);
  }

  /** In every run each balance is what the deployment gave plus the transfers made since. */
  lemma {:induction false} BalancesFollowTransfers(d: Deployment, t: Trace, token: Address, who: Address)
    requires d.Blank()
    ensures BalanceOf(After(d, t), token, who)
            == BalanceOf(d.initial, token, who) + Net(After(d, t).transfers, token, who)
  {
    if t.Then? {
      BalancesFollowTransfers(d, t.past, token, who);
      var paid := AtMostOneTransfer(d.sha, After(d, t.past), t.tx);
      if paid.Some? {
        TransferMovesNet(After(d, t.past), paid.value, After(d, t), token, who);
      }
    }
  }

  lemma LossIsPayment(s: State, x: Transfer, s': State, token: Address, who: Address)
    requires PaidOut(s, x, s') && BalanceOf(s', token, who) < BalanceOf(s, token, who)
    ensures x.from == who && x.token == token && x.amount == BalanceOf(s, token, who) - BalanceOf(s', token, who)
    ensures s'.transfers == s.transfers + [x]
  {
  }

  /** The last transaction paid the pending request, of so much of this token. */
  predicate PaysRequest(d: Deployment, t: Trace, token: Address, amount: int) {
    PaysOut(d, t) && HistoryOf(d, t).request.Some?
    && HistoryOf(d, t).request.value.token == token && HistoryOf(d, t).request.value.amount == amount
  }

  lemma RecoveryLossIsBacked(d: Deployment, t: Trace, x: Transfer)
    requires d.Blank() && Recovers(d, t) && After(d, t).transfers == After(d, t.past).transfers + [x]
    ensures PaysRequest(d, t, x.token, x.amount)
  {
    PayoutIsBacked(d, t);
    var before := After(d, t.past).transfers;
    assert (before + [x])[|before|] == x;
  }

  predicate ChargesFee(d: Deployment, t: Trace, token: Address, fee: int) {
    Accepted(d, t) && t.tx.call.Fee? && t.tx.call.fee.Charge? && t.tx.call.fee.token == token
    && FeeCollection.StoredFee(After(d, t.past).instance, t.tx.call.fee.gross).Ok?
    && FeeCollection.StoredFee(After(d, t.past).instance, t.tx.call.fee.gross).value.0 == fee
  }

  lemma FeeLossIsCharged(d: Deployment, t: Trace, x: Transfer)
    requires Accepted(d, t) && t.tx.call.Fee? && After(d, t).transfers == After(d, t.past).transfers + [x]
    ensures ChargesFee(d, t, x.token, x.amount)
  {
    FeeCollection.CommittedPays(After(d, t.past), t.tx.ctx, t.tx.call.fee);
    var before := After(d, t.past).transfers;
    assert (before + [x])[|before|] == x;
  }

  /** A backed recovery, or a fee at the stored rate, took this much. */
  predicate SpendsProperly(d: Deployment, t: Trace, token: Address, amount: int) {
    ChargesFee(d, t, token, amount) || PaysRequest(d, t, token, amount)
  }

  lemma LossIsProper(d: Deployment, t: Trace, x: Transfer)
    requires d.Blank() && Accepted(d, t) && (t.tx.call.Recovery? || t.tx.call.Fee?)
    requires After(d, t).transfers == After(d, t.past).transfers + [x]
    ensures SpendsProperly(d, t, x.token, x.amount)
  {
    if t.tx.call.Recovery? {
      RecoveryLossIsBacked(d, t, x);
    } else {
      FeeLossIsCharged(d, t, x);
    }
  }

  lemma LossPaid(d: Deployment, t: Trace, token: Address) returns (x: Transfer)
    requires t.Then? && BalanceOf(After(d, t), token, Contract) < BalanceOf(After(d, t.past), token, Contract)
    ensures Accepted(d, t) && (t.tx.call.Recovery? || t.tx.call.Fee?)
    ensures x.token == token
    ensures x.amount == BalanceOf(After(d, t.past), token, Contract) - BalanceOf(After(d, t), token, Contract)
    ensures After(d, t).transfers == After(d, t.past).transfers + [x]
  {
    var paid := AtMostOneTransfer(d.sha, After(d, t.past), t.tx);
    LossIsPayment(After(d, t.past), paid.value, After(d, t), token, Contract);
    x := paid.value;
  }

  /** The contract's own balance of a token falls only by a backed recovery, or by a fee at the stored rate. */
  lemma ContractSpendsProperly(d: Deployment, t: Trace, token: Address)
    requires d.Blank() && t.Then?
    requires BalanceOf(After(d, t), token, Contract) < BalanceOf(After(d, t.past), token, Contract)
    ensures SpendsProperly(d, t, token,
                           BalanceOf(After(d, t.past), token, Contract) - BalanceOf(After(d, t), token, Contract))
  {
    var x := LossPaid(d, t, token);
    LossIsProper(d, t, x);
  }
}
