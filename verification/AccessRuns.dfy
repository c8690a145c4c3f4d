/**
 * Who may do what, and what an open breaker stops, over whole runs
 * (circuit_breaker.rs, control_plane.rs and every guarded call).
 */
module AccessRuns {
  import opened Wrappers
  import opened ContractState
  import opened Protocol
  import opened BreakerRuns
  import Audit
  import CircuitBreaker
  import Governance
  import EmergencyRecovery
  import ControlPlane
  import FeeCollection
  import UpgradeProxy
  import GovernanceRuns
  import RecoveryRuns

  predicate AdminIs(st: Storage, who: Address) {
    ADMIN in st && st[ADMIN] == AddressVal(who)
  }

  // ----- what an open breaker stops -----

  /** The calls that do not ask whether the breaker is closed. */
  predicate Unchecked(call: Protocol.Call) {
    match call
    case Admin(c) => c.Start? || c.EstablishBreaker?
    case Proof(_) => true
    case Commitment(_, _) => false
    case Breaker(_) => true
    case Gov(c) => c.Establish?
    case Recovery(c) => c.Establish?
    case Fee(c) => !c.Charge?
    case Proxy(_) => true
    case Life(_) => true
    case Move(_, _, _, _) => true
  }

  lemma CheckedNeedClosed(sha: Digest, s: State, tx: Tx)
    requires Apply(sha, s, tx).Ok? && !Unchecked(tx.call)
    ensures !Open(s.instance)
  {
  }

  // Each of these is about one transaction of any run, begun while the breaker is open.

  /**
   * Nothing is committed to the audit chain and no parameter changes; and code is installed only by the proxy,
   * which does not ask.
   */
  lemma OpenBreakerFreezesChain(d: Deployment, t: Trace, k: Symbol)
    requires t.Then? && Open(StorageAt(d, t.past)) && (k in Audit.KEYS || k.Named?)
    ensures SameAt(StorageAt(d, t.past), StorageAt(d, t), k)
    ensures After(d, t).wasm == After(d, t.past).wasm || GovernanceRuns.SwappedByAdmin(d, t, After(d, t).wasm)
  {
    var s := After(d, t.past);
    CommitSurroundings(d.sha, s, t.tx);
    if Accepted(d, t) {
      if !Unchecked(t.tx.call) {
        CheckedNeedClosed(d.sha, s, t.tx);
      } else {
        CommitFrame(d.sha, s, t.tx, k);
        if t.tx.call.Proxy? {
          UpgradeProxy.CommittedDid(d.sha, s, t.tx.ctx, t.tx.call.proxy);
        }
      }
    }
  }

  /** Initialised, with a breaker whose one guardian is the admin. */
  lemma SetUpRun(d: Deployment, admin: Address) returns (t: Trace)
    requires d.Blank() && admin != Contract
    ensures SetsUp(d, t) && AdminIs(StorageAt(d, t), admin) && !After(d, t).locked && After(d, t).wasm == d.initial.wasm
    ensures var st := StorageAt(d, t);
            && PROPS !in st && CB_STATE in st && st[CB_STATE] == BreakerVal(false)
            && CB_GUARD in st && st[CB_GUARD] == AddressesVal([admin])
  {
    var ctx := Context(0, {admin});
    var started := Then(Genesis, Tx(ctx, Admin(ControlPlane.Start(admin))));
    assert Starts(d, started) && CB_GUARD !in StorageAt(d, started);
    t := Then(started, Tx(ctx, Admin(ControlPlane.EstablishBreaker(admin, [admin]))));
  }

  /** ... and he has tripped it. */
  lemma TrippedRun(d: Deployment, admin: Address) returns (t: Trace)
    requires d.Blank() && admin != Contract
    ensures Switches(d, t) && Open(StorageAt(d, t)) && AdminIs(StorageAt(d, t), admin) && !After(d, t).locked
    ensures PROPS !in StorageAt(d, t) && After(d, t).wasm == d.initial.wasm
  {
    var setUp := SetUpRun(d, admin);
    t := Then(setUp, Tx(Context(0, {admin}), Breaker(CircuitBreaker.Trip(admin))));
  }

  /** A run in which code is installed while the breaker is open and no proposal was ever made. */
  lemma ProxySwapsWhileOpen(d: Deployment, admin: Address, wasm: Hash) returns (tripped: Trace, swapped: Trace)
    requires d.Blank() && admin != Contract && wasm != ZERO_HASH
    ensures Open(StorageAt(d, tripped)) && Governance.ViewOf(StorageAt(d, tripped)).proposals == map[]
    ensures After(d, tripped).wasm == d.initial.wasm
    ensures swapped.Then? && swapped.past == tripped && GovernanceRuns.SwappedByAdmin(d, swapped, wasm)
    ensures After(d, swapped).wasm == wasm && Open(StorageAt(d, swapped))
  {
    tripped := TrippedRun(d, admin);
    swapped := Then(tripped, Tx(Context(0, {admin}), Proxy(UpgradeProxy.Swap(wasm))));
  }

  /** No proposal that exists moves. */
  lemma OpenBreakerFreezesProposals(d: Deployment, t: Trace, id: U64)
    requires d.Blank() && t.Then? && Open(StorageAt(d, t.past))
    ensures var v, w := Governance.ViewOf(StorageAt(d, t.past)), Governance.ViewOf(StorageAt(d, t));
            id in v.proposals ==> id in w.proposals && w.proposals[id] == v.proposals[id]
  {
    var s := After(d, t.past);
    if Accepted(d, t) {
      if t.tx.call.Gov? {
        Governance.CommittedSteps(s, t.tx.ctx, t.tx.call.gov);
        EstablishedOnce(d, t.past);
      } else {
        KeysAreApart(t.tx.call);
        CommitFrame(d.sha, s, t.tx, PROPS);
      }
    }
  }

  /** There are proposals only once governance is set up. */
  lemma {:induction false} EstablishedOnce(d: Deployment, t: Trace)
    requires d.Blank()
    ensures var v := Governance.ViewOf(StorageAt(d, t)); !v.established ==> v.proposals == map[] && v.signers == []
  {
    if t.Then? {
      EstablishedOnce(d, t.past);
      var s := After(d, t.past);
      if Accepted(d, t) {
        if t.tx.call.Gov? {
          Governance.CommittedSteps(s, t.tx.ctx, t.tx.call.gov);
        } else {
          KeysAreApart(t.tx.call);
          OthersUnwritten(d.sha, s, t.tx, Governance.KEYS);
        }
      }
    }
  }

  /** No request for recovery is made, replaced, approved or paid. */
  lemma OpenBreakerFreezesRecovery(d: Deployment, t: Trace)
    requires t.Then? && Open(StorageAt(d, t.past)) && EmergencyRecovery.ViewOf(StorageAt(d, t.past)).established
    ensures var v, w := EmergencyRecovery.ViewOf(StorageAt(d, t.past)), EmergencyRecovery.ViewOf(StorageAt(d, t));
            w.(open := v.open) == v
  {
    RecoveryRuns.ViewMoves(d, t);
    if Accepted(d, t) && !Unchecked(t.tx.call) {
      CheckedNeedClosed(d.sha, After(d, t.past), t.tx);
    }
  }

  /** The contract pays nothing. */
  lemma OpenBreakerFreezesFunds(d: Deployment, t: Trace, token: Address)
    requires t.Then? && Open(StorageAt(d, t.past))
    ensures BalanceOf(After(d, t), token, Contract) >= BalanceOf(After(d, t.past), token, Contract)
  {
    if BalanceOf(After(d, t), token, Contract) < BalanceOf(After(d, t.past), token, Contract) {
      var x := RecoveryRuns.LossPaid(d, t, token);
      assert After(d, t).transfers != After(d, t.past).transfers;
      PaymentsNeedClosed(d, t);
    }
  }

  /** The calls by which the contract pays ask the breaker before they do. */
  lemma PaymentsNeedClosed(d: Deployment, t: Trace)
    requires Accepted(d, t) && (t.tx.call.Recovery? || t.tx.call.Fee?)
             && After(d, t).transfers != After(d, t.past).transfers
    ensures !Open(StorageAt(d, t.past))
  {
    var s := After(d, t.past);
    if t.tx.call.Recovery? {
      EmergencyRecovery.CommittedSteps(s, t.tx.ctx, t.tx.call.recovery);
    } else {
      FeeCollection.CommittedPays(s, t.tx.ctx, t.tx.call.fee);
    }
    CheckedNeedClosed(d.sha, s, t.tx);
  }

  // ----- the admin -----

  /** The caller of a call reserved to the admin. */
  function AdminCaller(call: Protocol.Call): Option<Address> {
    match call
    case Admin(c) => if c.Start? then None else Some(c.caller)
    case Proof(c) => Some(c.caller)
    case Fee(c) => if c.ChangeRate? || c.ChangeRecipient? then Some(c.caller) else None
    case _ => None
  }

  /**
   * Of the calls reserved to the admin: parameters, attestations, fee settings and the guardian set change only
   * by calls the admin signed.
   */
  lemma PrivilegedCallsAreSigned(d: Deployment, t: Trace)
    requires Accepted(d, t) && AdminCaller(t.tx.call).Some?
    ensures AdminIs(StorageAt(d, t.past), AdminCaller(t.tx.call).value) && AdminCaller(t.tx.call).value in t.tx.ctx.auths
  {
  }

  // ----- who the admin is -----

  /** Whom the latest accepted initialisation, of the control plane or of the proxy, appointed. */
  function Appointee(d: Deployment, t: Trace): Option<Address> {
    if t.Genesis? then None
    else if Starts(d, t) then Some(t.tx.call.admin.admin)
    else if Appoints(d, t) then Some(t.tx.call.proxy.admin)
    else Appointee(d, t.past)
  }

  /** The control plane has been initialised. */
  predicate Started(d: Deployment, t: Trace) {
    t.Then? && (Starts(d, t) || Started(d, t.past))
  }

  /** The proxy has appointed an admin. */
  predicate ProxyAppointed(d: Deployment, t: Trace) {
    t.Then? && (Appoints(d, t) || ProxyAppointed(d, t.past))
  }

  ghost predicate AdminFits(st: Storage, appointee: Option<Address>, started: bool) {
    && (appointee.Some? <==> ADMIN in st)
    && (appointee.Some? ==> AdminIs(st, appointee.value))
    && (started ==> CP_INIT in st)
  }

  lemma AdminCallKeepsAdmin(sha: Digest, s: State, ctx: Context, call: ControlPlane.Call)
    requires ControlPlane.Apply(sha, s, ctx, call).Ok?
    ensures var st := ControlPlane.Apply(sha, s, ctx, call).value.instance;
            && (CP_INIT in s.instance ==> CP_INIT in st)
            && if call.Start? then
                 CP_INIT !in s.instance && CP_INIT in st && call.admin in ctx.auths && AdminIs(st, call.admin)
               else SameAt(s.instance, st, ADMIN)
  {
    if call.Set? || call.SetMany? {
      ControlPlane.UpdatesRespectReservedKeys(sha, s, ctx, call, ADMIN);
      if CP_INIT in s.instance {
        ControlPlane.UpdatesKeepKey(sha, s, ctx, call, CP_INIT);
      }
    }
  }

  lemma ProxyCallFitsAdmin(d: Deployment, t: Trace)
    requires Accepted(d, t) && t.tx.call.Proxy?
    requires AdminFits(StorageAt(d, t.past), Appointee(d, t.past), Started(d, t.past))
    ensures AdminFits(StorageAt(d, t), Appointee(d, t), Started(d, t))
  {
    UpgradeProxy.CommittedDid(d.sha, After(d, t.past), t.tx.ctx, t.tx.call.proxy);
    CommitFrame(d.sha, After(d, t.past), t.tx, CP_INIT);
  }

  lemma StepFitsAdmin(d: Deployment, t: Trace)
    requires t.Then? && AdminFits(StorageAt(d, t.past), Appointee(d, t.past), Started(d, t.past))
    ensures AdminFits(StorageAt(d, t), Appointee(d, t), Started(d, t))
  {
    if Accepted(d, t) && t.tx.call.Admin? {
      AdminCallKeepsAdmin(d.sha, After(d, t.past), t.tx.ctx, t.tx.call.admin);
    } else if Accepted(d, t) && t.tx.call.Proxy? {
      ProxyCallFitsAdmin(d, t);
    } else if Accepted(d, t) {
      OthersUnwritten(d.sha, After(d, t.past), t.tx, {ADMIN, CP_INIT});
    }
  }

  lemma {:induction false} RunFitsAdmin(d: Deployment, t: Trace)
    requires d.Blank()
    ensures AdminFits(StorageAt(d, t), Appointee(d, t), Started(d, t))
  {
    if t.Then? {
      RunFitsAdmin(d, t.past);
      StepFitsAdmin(d, t);
    }
  }

  /** An appointee was appointed by one of the two. */
  lemma {:induction false} AppointedByOne(d: Deployment, t: Trace)
    ensures Appointee(d, t).Some? <==> Started(d, t) || ProxyAppointed(d, t)
  {
    if t.Then? {
      AppointedByOne(d, t.past);
    }
  }

  /** An initialisation that finds an admin in place: only the proxy can have put one there. */
  lemma StartFindsProxyAdmin(d: Deployment, t: Trace)
    requires d.Blank() && Starts(d, t)
    ensures !Started(d, t.past) && (Appointee(d, t.past).Some? <==> ProxyAppointed(d, t.past))
  {
    RunFitsAdmin(d, t.past);
    AdminCallKeepsAdmin(d.sha, After(d, t.past), t.tx.ctx, t.tx.call.admin);
    AppointedByOne(d, t.past);
  }

  /** The admin in place was replaced by another at some point of the run. */
  predicate Replaced(d: Deployment, t: Trace) {
    t.Then?
    && (Replaced(d, t.past)
        || (ADMIN in StorageAt(d, t.past) && !SameAt(StorageAt(d, t.past), StorageAt(d, t), ADMIN)))
  }

  /** The control plane was initialised, for another account, after the proxy had appointed an admin. */
  predicate StartsOver(d: Deployment, t: Trace) {
    t.Then?
    && (StartsOver(d, t.past)
        || (Starts(d, t) && ProxyAppointed(d, t.past) && Appointee(d, t.past) != Some(t.tx.call.admin.admin)))
  }

  lemma AdminMoves(d: Deployment, t: Trace)
    requires d.Blank() && t.Then?
    ensures ADMIN in StorageAt(d, t.past) && !SameAt(StorageAt(d, t.past), StorageAt(d, t), ADMIN)
            <==> Starts(d, t) && ProxyAppointed(d, t.past) && Appointee(d, t.past) != Some(t.tx.call.admin.admin)
    ensures ADMIN !in StorageAt(d, t.past) && ADMIN in StorageAt(d, t) ==> Starts(d, t) || Appoints(d, t)
  {
    RunFitsAdmin(d, t.past);
    RunFitsAdmin(d, t);
    AppointedByOne(d, t.past);
    if Starts(d, t) {
      StartFindsProxyAdmin(d, t);
    } else if Appoints(d, t) {
      UpgradeProxy.CommittedDid(d.sha, After(d, t.past), t.tx.ctx, t.tx.call.proxy);
    }
  }

  /**
   * In every run the admin is the account that signed its own initialisation, and stays it, exactly
   * when the control plane was not initialised for another account after the proxy's initialisation.
   */
  lemma {:induction false} AdminIsPermanentExactly(d: Deployment, t: Trace)
    requires d.Blank()
    ensures Replaced(d, t) <==> StartsOver(d, t)
    ensures Appointee(d, t).Some? ==> AdminIs(StorageAt(d, t), Appointee(d, t).value)
    ensures Starts(d, t) || Appoints(d, t) ==> Appointee(d, t).value in t.tx.ctx.auths
  {
    RunFitsAdmin(d, t);
    if t.Then? {
      AdminIsPermanentExactly(d, t.past);
      AdminMoves(d, t);
      if Starts(d, t) {
        AdminCallKeepsAdmin(d.sha, After(d, t.past), t.tx.ctx, t.tx.call.admin);
      } else if Appoints(d, t) {
        UpgradeProxy.CommittedDid(d.sha, After(d, t.past), t.tx.ctx, t.tx.call.proxy);
      }
    }
  }
}
