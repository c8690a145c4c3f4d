/**
 * Runs of the contract: transactions, each of which commits whole or leaves no trace, in
 * ledger order. What is proved about runs elsewhere is about every trace of these calls.
 */
module Protocol {
  import opened Wrappers
  import opened ContractState
  import Audit
  import CircuitBreaker
  import Governance
  import EmergencyRecovery
  import ControlPlane
  import ZkHooks
  import FeeCollection
  import UpgradeProxy
  import Lifecycle

  /** The calls of each component, and token transfers by accounts other than the contract. */
  datatype Call =
    | Admin(admin: ControlPlane.Call)
    | Proof(proof: ZkHooks.Call)
    | Commitment(commitment: Audit.StateCommitment, payload: seq<Byte>)
    | Breaker(breaker: CircuitBreaker.Call)
    | Gov(gov: Governance.Call)
    | Recovery(recovery: EmergencyRecovery.Call)
    | Fee(fee: FeeCollection.Call)
    | Proxy(proxy: UpgradeProxy.Call)
    | Life(life: Lifecycle.Call)
    | Move(token: Address, from: Address, to: Address, moved: int)

  datatype Tx = Tx(ctx: Context, call: Call)

  function Apply(sha: Digest, s: State, tx: Tx): Result<State, Error> {
    match tx.call
    case Admin(call) => ControlPlane.Apply(sha, s, tx.ctx, call)
    case Proof(call) => ZkHooks.Apply(s, tx.ctx, call)
    case Commitment(c, payload) => Audit.ValidateTransition(sha, s, c, payload)
    case Breaker(call) => CircuitBreaker.Apply(s, tx.ctx, call)
    case Gov(call) => Governance.Apply(s, tx.ctx, call)
    case Recovery(call) => EmergencyRecovery.Apply(s, tx.ctx, call)
    case Fee(call) => FeeCollection.Apply(s, tx.ctx, call)
    case Proxy(call) => UpgradeProxy.Apply(sha, s, tx.ctx, call)
    case Life(call) => Lifecycle.Apply(s, call)
    case Move(token, from, to, moved) =>
      if from == Contract then Err(NotAuthorized) else TokenTransfer(s, token, from, to, moved)
  }

  /** The host commits a transaction that returns and rolls back one that panics. */
  function Commit(sha: Digest, s: State, tx: Tx): State {
    var r := Apply(sha, s, tx);
    if r.Ok? then r.value else s
  }

  /** A digest function and the state in which the contract is deployed. */
  datatype Deployment = Deployment(sha: Digest, initial: State) {
    predicate Blank() {
      && initial.instance == map[] && !initial.locked
      && initial.proofs == map[] && initial.attestations == map[] && initial.transfers == []
    }
  }

  datatype Trace = Genesis | Then(past: Trace, tx: Tx)

  function After(d: Deployment, t: Trace): State {
    match t
    case Genesis => d.initial
    case Then(past, tx) => Commit(d.sha, After(d, past), tx)
  }

  function StorageAt(d: Deployment, t: Trace): Storage {
    After(d, t).instance
  }

  /** One trace goes on as the other. */
  ghost predicate Extends(t: Trace, u: Trace) {
    u == t || (u.Then? && Extends(t, u.past))
  }

  lemma {:induction false} ExtendsFurther(t: Trace, t': Trace, u: Trace)
    requires Extends(t, t') && Extends(t', u)
    ensures Extends(t, u)
  {
    if u != t' {
      ExtendsFurther(t, t', u.past);
    }
  }

  /** The last transaction of the trace committed. */
  predicate Accepted(d: Deployment, t: Trace) {
    t.Then? && Apply(d.sha, After(d, t.past), t.tx).Ok?
  }

  /** The control plane was initialised by the last transaction. */
  predicate Starts(d: Deployment, t: Trace) {
    Accepted(d, t) && t.tx.call.Admin? && t.tx.call.admin.Start?
  }

  /** The proxy appointed an admin by the last transaction. */
  predicate Appoints(d: Deployment, t: Trace) {
    Accepted(d, t) && t.tx.call.Proxy? && t.tx.call.proxy.Begin?
  }

  /** The proxy installed code by the last transaction. */
  predicate Swaps(d: Deployment, t: Trace) {
    Accepted(d, t) && t.tx.call.Proxy? && t.tx.call.proxy.Swap?
  }

  function LastLedger(t: Trace): U32 {
    if t.Then? then t.tx.ctx.ledger else 0
  }

  /** Ledgers do not run backwards. */
  predicate Ordered(t: Trace) {
    t.Then? ==> Ordered(t.past) && LastLedger(t.past) <= t.tx.ctx.ledger
  }

  /** The calls of the control plane and of what it shares its keys with. */
  predicate AdminSide(call: Call) {
    call.Admin? || call.Commitment? || call.Breaker? || call.Proxy?
  }

  // ----- which keys a call may change -----

  predicate MayWrite(call: Call, k: Symbol) {
    match call
    case Admin(c) => ControlPlane.MayWrite(c, k)
    case Proof(_) => k in ZkHooks.KEYS
    case Commitment(_, _) => k in Audit.KEYS
    case Breaker(_) => k == CB_STATE
    case Gov(_) => k in Governance.KEYS
    case Recovery(_) => k in EmergencyRecovery.KEYS
    case Fee(_) => k in FeeCollection.KEYS
    case Proxy(_) => k in UpgradeProxy.KEYS
    case Life(_) => k in Lifecycle.KEYS
    case Move(_, _, _, _) => false
  }

  /** Every call writes only under the keys it may write. */
  lemma CommitFrame(sha: Digest, s: State, tx: Tx, k: Symbol)
    requires !MayWrite(tx.call, k)
    ensures SameAt(s.instance, Commit(sha, s, tx).instance, k)
  {
    if Apply(sha, s, tx).Ok? {
      match tx.call
      case Admin(call) => ControlPlane.Frame(sha, s, tx.ctx, call, k);
      case Proof(call) => ZkHooks.Frame(s, tx.ctx, call, k);
      case Commitment(c, payload) => Audit.Frame(sha, s, c, payload, k);
      case Breaker(call) => CircuitBreaker.Frame(s, tx.ctx, call, k);
      case Gov(call) => Governance.Frame(s, tx.ctx, call, k);
      case Recovery(call) => EmergencyRecovery.Frame(s, tx.ctx, call, k);
      case Fee(call) => FeeCollection.Frame(s, tx.ctx, call, k);
      case Proxy(call) => UpgradeProxy.Frame(sha, s, tx.ctx, call, k);
      case Life(call) => Lifecycle.Frame(s, call, k);
      case Move(_, _, _, _) =>
    }
  }

  // ----- every key of the engine holds a value of its type, in every run -----

  ghost predicate WellTyped(st: Storage) {
    ControlPlane.AllTypes(st) && ZkHooks.OwnTypes(st) && Governance.OwnTypes(st)
    && EmergencyRecovery.OwnTypes(st) && FeeCollection.OwnTypes(st) && Lifecycle.OwnTypes(st)
  }

  lemma OthersUnwritten(sha: Digest, s: State, tx: Tx, keys: set<Symbol>)
    requires forall k :: k in keys ==> !MayWrite(tx.call, k)
    ensures forall k :: k in keys ==> SameAt(s.instance, Commit(sha, s, tx).instance, k)
  {
    forall k | k in keys ensures SameAt(s.instance, Commit(sha, s, tx).instance, k) {
      CommitFrame(sha, s, tx, k);
    }
  }

  const COMPONENT_KEYS := ZkHooks.KEYS + Governance.KEYS + EmergencyRecovery.KEYS + FeeCollection.KEYS

  lemma AdminKeepsOut(call: ControlPlane.Call, k: Symbol)
    requires k in COMPONENT_KEYS
    ensures !ControlPlane.MayWrite(call, k)
  {
    ControlPlane.ReservedExactly(k);
  }

  lemma AdminIsApart(call: Call)
    requires call.Admin?
    ensures forall k :: k in COMPONENT_KEYS ==> !MayWrite(call, k)
  {
    forall k | k in COMPONENT_KEYS ensures !MayWrite(call, k) {
      AdminKeepsOut(call.admin, k);
    }
  }

  lemma ComponentIsApart(call: Call)
    requires !call.Admin?
    ensures !AdminSide(call) ==> forall k :: k in ControlPlane.KEYS ==> !MayWrite(call, k)
    ensures !call.Life? ==> forall k :: k in Lifecycle.KEYS ==> !MayWrite(call, k)
    ensures !call.Proof? ==> forall k :: k in ZkHooks.KEYS ==> !MayWrite(call, k)
    ensures !call.Gov? ==> forall k :: k in Governance.KEYS ==> !MayWrite(call, k)
    ensures !call.Recovery? ==> forall k :: k in EmergencyRecovery.KEYS ==> !MayWrite(call, k)
    ensures !call.Fee? ==> forall k :: k in FeeCollection.KEYS ==> !MayWrite(call, k)
  {
  }

  /** The components keep out of each other's keys. */
  lemma KeysAreApart(call: Call)
    ensures !AdminSide(call) ==> forall k :: k in ControlPlane.KEYS ==> !MayWrite(call, k)
    ensures !call.Admin? && !call.Life? ==> forall k :: k in Lifecycle.KEYS ==> !MayWrite(call, k)
    ensures !call.Proof? ==> forall k :: k in ZkHooks.KEYS ==> !MayWrite(call, k)
    ensures !call.Gov? ==> forall k :: k in Governance.KEYS ==> !MayWrite(call, k)
    ensures !call.Recovery? ==> forall k :: k in EmergencyRecovery.KEYS ==> !MayWrite(call, k)
    ensures !call.Fee? ==> forall k :: k in FeeCollection.KEYS ==> !MayWrite(call, k)
  {
    if call.Admin? {
      AdminIsApart(call);
    } else {
      ComponentIsApart(call);
    }
  }

  lemma CommitmentKeepsAdminTypes(sha: Digest, s: State, tx: Tx)
    requires tx.call.Commitment? && ControlPlane.AllTypes(s.instance)
    ensures ControlPlane.AllTypes(Commit(sha, s, tx).instance)
  {
  }

  lemma BreakerKeepsAdminTypes(sha: Digest, s: State, tx: Tx)
    requires tx.call.Breaker? && ControlPlane.AllTypes(s.instance)
    ensures ControlPlane.AllTypes(Commit(sha, s, tx).instance)
  {
  }

  lemma UnwrittenKeepTypes(st: Storage, st': Storage)
    requires ControlPlane.AllTypes(st) && UpgradeProxy.AdminTyped(st')
    requires SameAt(st, st', P_COUNT) && SameAt(st, st', VERSION) && SameAt(st, st', VER_INIT)
    requires SameAt(st, st', SEQ) && SameAt(st, st', PREV_H) && SameAt(st, st', CB_STATE) && SameAt(st, st', CB_GUARD)
    ensures ControlPlane.AllTypes(st')
  {
  }

  lemma ProxyKeepsAdminTypes(sha: Digest, s: State, tx: Tx)
    requires tx.call.Proxy? && ControlPlane.AllTypes(s.instance)
    ensures ControlPlane.AllTypes(Commit(sha, s, tx).instance)
  {
    if Apply(sha, s, tx).Ok? {
      UpgradeProxy.KeepsTypes(sha, s, tx.ctx, tx.call.proxy);
      UpgradeProxy.LeavesOthers(sha, s, tx.ctx, tx.call.proxy);
      UnwrittenKeepTypes(s.instance, Commit(sha, s, tx).instance);
    }
  }

  lemma AdminSideKeepsTypes(sha: Digest, s: State, tx: Tx)
    requires ControlPlane.AllTypes(s.instance)
    ensures ControlPlane.AllTypes(Commit(sha, s, tx).instance)
  {
    match tx.call
    case Admin(call) => ControlPlane.KeepsTypes(sha, s, tx.ctx, call);
    case Commitment(_, _) => CommitmentKeepsAdminTypes(sha, s, tx);
    case Breaker(_) => BreakerKeepsAdminTypes(sha, s, tx);
    case Proxy(_) => ProxyKeepsAdminTypes(sha, s, tx);
    case _ =>
      KeysAreApart(tx.call);
      OthersUnwritten(sha, s, tx, ControlPlane.KEYS);
  }

  lemma ComponentsKeepTypes(sha: Digest, s: State, tx: Tx)
    requires WellTyped(s.instance)
    ensures var st := Commit(sha, s, tx).instance;
            ZkHooks.OwnTypes(st) && Governance.OwnTypes(st) && EmergencyRecovery.OwnTypes(st)
            && FeeCollection.OwnTypes(st)
  {
    KeysAreApart(tx.call);
    if tx.call.Proof? {
      ZkHooks.KeepsTypes(s, tx.ctx, tx.call.proof);
    } else {
      OthersUnwritten(sha, s, tx, ZkHooks.KEYS);
    }
    if tx.call.Gov? {
      Governance.KeepsTypes(s, tx.ctx, tx.call.gov);
    } else {
      OthersUnwritten(sha, s, tx, Governance.KEYS);
    }
    if tx.call.Recovery? {
      EmergencyRecovery.KeepsTypes(s, tx.ctx, tx.call.recovery);
    } else {
      OthersUnwritten(sha, s, tx, EmergencyRecovery.KEYS);
    }
    if tx.call.Fee? {
      FeeCollection.KeepsTypes(s, tx.ctx, tx.call.fee);
    } else {
      OthersUnwritten(sha, s, tx, FeeCollection.KEYS);
    }
  }

  lemma PhaseKeepsType(sha: Digest, s: State, tx: Tx)
    requires Lifecycle.OwnTypes(s.instance)
    ensures Lifecycle.OwnTypes(Commit(sha, s, tx).instance)
  {
    if tx.call.Admin? {
      if Apply(sha, s, tx).Ok? {
        ControlPlane.PhaseWrites(sha, s, tx.ctx, tx.call.admin);
      }
    } else if !tx.call.Life? {
      KeysAreApart(tx.call);
      OthersUnwritten(sha, s, tx, Lifecycle.KEYS);
    }
  }

  /** In every run each key of the engine, if set, holds a value of the type its readers expect. */
  lemma {:induction false} RunIsWellTyped(d: Deployment, t: Trace)
    requires d.Blank()
    ensures WellTyped(After(d, t).instance)
  {
    if t.Then? {
      RunIsWellTyped(d, t.past);
      AdminSideKeepsTypes(d.sha, After(d, t.past), t.tx);
      ComponentsKeepTypes(d.sha, After(d, t.past), t.tx);
      PhaseKeepsType(d.sha, After(d, t.past), t.tx);
    }
  }

  /** The phase was last written by a parameter update, as a number twice as wide as its reader expects. */
  predicate Clobbered(d: Deployment, t: Trace) {
    t.Then? &&
    if Accepted(d, t) && t.tx.call.Life? then false
    else if Accepted(d, t) && t.tx.call.Admin? && ControlPlane.NamesPhase(t.tx.call.admin) then true
    else Clobbered(d, t.past)
  }

  lemma OthersKeepPhase(d: Deployment, t: Trace)
    requires t.Then? && !(Accepted(d, t) && (t.tx.call.Admin? || t.tx.call.Life?))
    ensures SameAt(After(d, t.past).instance, After(d, t).instance, PROTO_ST)
  {
    if Accepted(d, t) {
      KeysAreApart(t.tx.call);
      CommitFrame(d.sha, After(d, t.past), t.tx, PROTO_ST);
    }
  }

  lemma {:induction false} ClobberedIsStored(d: Deployment, t: Trace)
    requires d.Blank()
    ensures var st := After(d, t).instance; Clobbered(d, t) <==> PROTO_ST in st && st[PROTO_ST].U64Val?
  {
    if t.Then? {
      ClobberedIsStored(d, t.past);
      if Accepted(d, t) && t.tx.call.Admin? {
        ControlPlane.PhaseWrites(d.sha, After(d, t.past), t.tx.ctx, t.tx.call.admin);
      } else if !(Accepted(d, t) && t.tx.call.Life?) {
        OthersKeepPhase(d, t);
      }
    }
  }

  /** The one call that reads the phase. */
  predicate ReadsPhase(call: Call) {
    call.Life? && call.life.MoveTo?
  }

  /**
   * In every run a call traps on a stored value of the wrong type exactly when it reads the phase
   * and a parameter update wrote that last; no other parameter a caller may set can make one trap.
   */
  lemma TrapsOnTypeExactly(d: Deployment, t: Trace, tx: Tx)
    requires d.Blank()
    ensures Apply(d.sha, After(d, t), tx) == Err(WrongType) <==> ReadsPhase(tx.call) && Clobbered(d, t)
  {
    ClobberedIsStored(d, t);
    if tx.call.Life? {
      RunIsWellTyped(d, t);
      Lifecycle.TrapsExactly(After(d, t), tx.call.life);
    } else {
      RunIsWellTyped(d, t);
      OthersDoNotTrap(d.sha, After(d, t), tx);
    }
  }

  lemma OthersDoNotTrap(sha: Digest, s: State, tx: Tx)
    requires WellTyped(s.instance) && !tx.call.Life?
    ensures Apply(sha, s, tx) != Err(WrongType)
  {
    if AdminSide(tx.call) {
      AdminSideDoesNotTrap(sha, s, tx);
    } else {
      ComponentsDoNotTrap(sha, s, tx);
    }
  }

  lemma AdminSideDoesNotTrap(sha: Digest, s: State, tx: Tx)
    requires ControlPlane.AllTypes(s.instance) && AdminSide(tx.call)
    ensures Apply(sha, s, tx) != Err(WrongType)
  {
    match tx.call
    case Admin(call) => ControlPlane.KeepsTypes(sha, s, tx.ctx, call);
    case Commitment(c, payload) => Audit.KeepsTypes(sha, s, c, payload);
    case Breaker(call) => CircuitBreaker.KeepsTypes(s, tx.ctx, call);
    case Proxy(call) => UpgradeProxy.KeepsTypes(sha, s, tx.ctx, call);
  }

  lemma ComponentsDoNotTrap(sha: Digest, s: State, tx: Tx)
    requires WellTyped(s.instance) && !AdminSide(tx.call) && !tx.call.Life?
    ensures Apply(sha, s, tx) != Err(WrongType)
  {
    match tx.call
    case Proof(call) => ZkHooks.KeepsTypes(s, tx.ctx, call);
    case Gov(call) => Governance.KeepsTypes(s, tx.ctx, call);
    case Recovery(call) => EmergencyRecovery.KeepsTypes(s, tx.ctx, call);
    case Fee(call) => FeeCollection.KeepsTypes(s, tx.ctx, call);
    case Move(_, _, _, _) =>
  }

  // ----- what a call may change besides the instance storage -----

  lemma AdminSurroundings(sha: Digest, s: State, ctx: Context, call: ControlPlane.Call)
    requires ControlPlane.Apply(sha, s, ctx, call).Ok?
    ensures ControlPlane.Apply(sha, s, ctx, call).value.(instance := s.instance) == s
  {
  }

  lemma ProofSurroundings(s: State, ctx: Context, call: ZkHooks.Call)
    requires ZkHooks.Apply(s, ctx, call).Ok?
    ensures ZkHooks.Apply(s, ctx, call).value
            .(instance := s.instance, proofs := s.proofs, attestations := s.attestations) == s
  {
  }

  lemma GovSurroundings(s: State, ctx: Context, call: Governance.Call)
    requires Governance.Apply(s, ctx, call).Ok?
    ensures var v := Governance.Apply(s, ctx, call).value;
            v.(instance := s.instance, wasm := s.wasm) == s && v.wasm == if call.Install? then call.wasm else s.wasm
  {
  }

  lemma RecoverySurroundings(s: State, ctx: Context, call: EmergencyRecovery.Call)
    requires EmergencyRecovery.Apply(s, ctx, call).Ok?
    ensures var v := EmergencyRecovery.Apply(s, ctx, call).value;
            v.(instance := s.instance, balances := s.balances, transfers := s.transfers) == s
  {
  }

  lemma FeeSurroundings(s: State, ctx: Context, call: FeeCollection.Call)
    requires FeeCollection.Apply(s, ctx, call).Ok?
    ensures var v := FeeCollection.Apply(s, ctx, call).value;
            v.(instance := s.instance, balances := s.balances, transfers := s.transfers) == s
  {
  }

  lemma ChainSurroundings(sha: Digest, s: State, c: Audit.StateCommitment, payload: seq<Byte>)
    requires Audit.ValidateTransition(sha, s, c, payload).Ok?
    ensures Audit.ValidateTransition(sha, s, c, payload).value.(instance := s.instance) == s
  {
  }

  lemma BreakerSurroundings(s: State, ctx: Context, call: CircuitBreaker.Call)
    requires CircuitBreaker.Apply(s, ctx, call).Ok?
    ensures CircuitBreaker.Apply(s, ctx, call).value.(instance := s.instance) == s
  {
  }

  lemma ProxySurroundings(sha: Digest, s: State, ctx: Context, call: UpgradeProxy.Call)
    requires UpgradeProxy.Apply(sha, s, ctx, call).Ok?
    ensures var v := UpgradeProxy.Apply(sha, s, ctx, call).value;
            v.(instance := s.instance, wasm := s.wasm) == s && v.wasm == if call.Swap? then call.wasm else s.wasm
  {
    UpgradeProxy.CommittedDid(sha, s, ctx, call);
  }

  /**
   * Only governance and the proxy install code, only attestations register proofs, only payments move tokens;
   * the guard is never left set.
   */
  predicate Undisturbed(call: Call, s: State, v: State) {
    && v.locked == s.locked
    && (!(call.Gov? && call.gov.Install?) && !(call.Proxy? && call.proxy.Swap?) ==> v.wasm == s.wasm)
    && (!call.Proof? ==> v.proofs == s.proofs && v.attestations == s.attestations)
    && (!call.Recovery? && !call.Fee? && !call.Move? ==> TokensUntouched(s, v))
  }

  lemma AdminSideSurroundings(sha: Digest, s: State, tx: Tx)
    requires Apply(sha, s, tx).Ok? && AdminSide(tx.call)
    ensures Undisturbed(tx.call, s, Apply(sha, s, tx).value)
  {
    match tx.call
    case Admin(call) => AdminSurroundings(sha, s, tx.ctx, call);
    case Commitment(c, payload) => ChainSurroundings(sha, s, c, payload);
    case Breaker(call) => BreakerSurroundings(s, tx.ctx, call);
    case Proxy(call) => ProxySurroundings(sha, s, tx.ctx, call);
  }

  lemma PaymentSurroundings(sha: Digest, s: State, tx: Tx)
    requires Apply(sha, s, tx).Ok? && (tx.call.Recovery? || tx.call.Fee? || tx.call.Move?)
    ensures Undisturbed(tx.call, s, Apply(sha, s, tx).value)
  {
    match tx.call
    case Recovery(call) => RecoverySurroundings(s, tx.ctx, call);
    case Fee(call) => FeeSurroundings(s, tx.ctx, call);
    case Move(_, _, _, _) =>
  }

  lemma ComponentSurroundings(sha: Digest, s: State, tx: Tx)
    requires Apply(sha, s, tx).Ok? && (tx.call.Proof? || tx.call.Gov? || tx.call.Life?)
    ensures Undisturbed(tx.call, s, Apply(sha, s, tx).value)
  {
    match tx.call
    case Proof(call) => ProofSurroundings(s, tx.ctx, call);
    case Gov(call) => GovSurroundings(s, tx.ctx, call);
    case Life(call) =>
  }

  lemma CommitSurroundings(sha: Digest, s: State, tx: Tx)
    ensures Undisturbed(tx.call, s, Commit(sha, s, tx))
  {
    if Apply(sha, s, tx).Ok? {
      if AdminSide(tx.call) {
        AdminSideSurroundings(sha, s, tx);
      } else if tx.call.Recovery? || tx.call.Fee? || tx.call.Move? {
        PaymentSurroundings(sha, s, tx);
      } else {
        ComponentSurroundings(sha, s, tx);
      }
    }
  }

  lemma {:induction false} GuardIsFreeBetween(d: Deployment, t: Trace)
    requires d.Blank()
    ensures !After(d, t).locked
  {
    if t.Then? {
      GuardIsFreeBetween(d, t.past);
      CommitSurroundings(d.sha, After(d, t.past), t.tx);
    }
  }
}
