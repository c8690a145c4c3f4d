/** The audit chain, the update counter and the attestations over whole runs (audit.rs, control_plane.rs, zk_hooks.rs). */
module AuditRuns {
  import opened Wrappers
  import opened ContractState
  import opened Protocol
  import opened Audit
  import ControlPlane
  import ZkHooks
  import UpgradeProxy
  import Lifecycle
  import AccessRuns

  /** The last transaction committed and recorded a commitment: by itself, or with a parameter update. */
  predicate Updates(d: Deployment, t: Trace) {
    Accepted(d, t) && t.tx.call.Admin? && (t.tx.call.admin.Set? || t.tx.call.admin.SetMany?)
  }

  predicate Commits(d: Deployment, t: Trace) {
    Updates(d, t) || (Accepted(d, t) && t.tx.call.Commitment?)
  }

  function LinkOf(call: Protocol.Call): Link
    requires call.Commitment? || (call.Admin? && (call.admin.Set? || call.admin.SetMany?))
  {
    if call.Commitment? then Link(call.commitment.sequence, call.payload)
    else Link(call.admin.commitment.sequence, call.admin.digest)
  }

  /** Every commitment the run accepted, oldest first. */
  function Links(d: Deployment, t: Trace): seq<Link> {
    if t.Genesis? then [] else Links(d, t.past) + if Commits(d, t) then [LinkOf(t.tx.call)] else []
  }

  function UpdateCount(d: Deployment, t: Trace): nat {
    if t.Genesis? then 0 else UpdateCount(d, t.past) + if Updates(d, t) then 1 else 0
  }

  // ----- the chain -----

  predicate Rising(links: seq<Link>) {
    && (forall i :: 0 <= i < |links| ==> links[i].sequence > 0)
    && (forall i, j :: 0 <= i < j < |links| ==> links[i].sequence < links[j].sequence)
  }

  /** The stored sequence and head are those of the accepted commitments. */
  ghost predicate Chained(sha: Digest, st: Storage, links: seq<Link>) {
    && Rising(links)
    && SequenceOf(st) == (if links == [] then 0 else links[|links| - 1].sequence)
    && HeadOf(st) == Head(sha, links)
  }

  lemma RisesFurther(links: seq<Link>, link: Link)
    requires Rising(links) && link.sequence > if links == [] then 0 else links[|links| - 1].sequence
    ensures Rising(links + [link])
  {
    forall i | 0 <= i < |links| ensures links[i].sequence < link.sequence {
      assert i < |links| - 1 ==> links[i].sequence < links[|links| - 1].sequence;
    }
  }

  lemma OneMoreLink(sha: Digest, st: Storage, links: seq<Link>, c: StateCommitment, payload: seq<Byte>, st': Storage)
    requires Chained(sha, st, links) && Extended(sha, st, c, payload, st')
    ensures Chained(sha, st', links + [Link(c.sequence, payload)])
  {
    var more := links + [Link(c.sequence, payload)];
    RisesFurther(links, Link(c.sequence, payload));
    assert more[..|more| - 1] == links;
  }

  lemma QuietCallsKeepChain(d: Deployment, t: Trace)
    requires t.Then? && !Commits(d, t)
    ensures SequenceOf(StorageAt(d, t)) == SequenceOf(StorageAt(d, t.past))
    ensures HeadOf(StorageAt(d, t)) == HeadOf(StorageAt(d, t.past))
  {
    if Accepted(d, t) {
      CommitFrame(d.sha, After(d, t.past), t.tx, SEQ);
      CommitFrame(d.sha, After(d, t.past), t.tx, PREV_H);
    }
  }

  /**
   * In every run the accepted sequences strictly rise from one, and the stored head is the chained hash of all
   * of them.
   */
  lemma {:induction false} RunIsChained(d: Deployment, t: Trace)
    requires d.Blank()
    ensures Chained(d.sha, StorageAt(d, t), Links(d, t))
  {
    if t.Then? {
      RunIsChained(d, t.past);
      var s, call := After(d, t.past), t.tx.call;
      if Updates(d, t) {
        ControlPlane.UpdatesExtendChain(d.sha, s, t.tx.ctx, call.admin);
        OneMoreLink(d.sha, s.instance, Links(d, t.past), call.admin.commitment, call.admin.digest, StorageAt(d, t));
      } else if Commits(d, t) {
        CommittedExtends(d.sha, s, call.commitment, call.payload);
        OneMoreLink(d.sha, s.instance, Links(d, t.past), call.commitment, call.payload, StorageAt(d, t));
      } else {
        QuietCallsKeepChain(d, t);
        assert Links(d, t) == Links(d, t.past);
      }
    }
  }

  /**
   * Two runs that end with the same stored head accepted the same list of sequences and payloads,
   * or comparing them names a collision of the digest, or a preimage of the all-zero hash.
   */
  lemma HeadPinsHistory(d: Deployment, e: Deployment, t: Trace, u: Trace)
    requires d.Blank() && e.Blank() && d.sha == e.sha && HeadOf(StorageAt(d, t)) == HeadOf(StorageAt(e, u))
    ensures Proves(d.sha, Links(d, t), Links(e, u), Compare(d.sha, Links(d, t), Links(e, u)))
  {
    RunIsChained(d, t);
    RunIsChained(e, u);
    EqualHeadsTellAll(d.sha, Links(d, t), Links(e, u));
  }

  // ----- the update counter -----

  /**
   * Every accepted update so far left the counter itself alone, or wrote the value it had; and initialisation
   * came before them all.
   */
  predicate SparesCounter(d: Deployment, t: Trace) {
    t.Then? ==>
      && SparesCounter(d, t.past)
      && (Updates(d, t) ==> ControlPlane.SparesCount(StorageAt(d, t.past), t.tx.call.admin))
      && (Starts(d, t) ==> UpdateCount(d, t.past) == 0)
  }

  /** After every transaction so far the counter was the number of accepted updates. */
  predicate AlwaysExact(d: Deployment, t: Trace) {
    ControlPlane.CountOf(StorageAt(d, t)) == UpdateCount(d, t) && (t.Then? ==> AlwaysExact(d, t.past))
  }

  lemma SetUpCounts(sha: Digest, s: State, ctx: Context, call: ControlPlane.Call)
    requires (call.Start? || call.EstablishBreaker?) && ControlPlane.Apply(sha, s, ctx, call).Ok?
    ensures ControlPlane.CountOf(ControlPlane.Apply(sha, s, ctx, call).value.instance)
            == if call.Start? then 0 else ControlPlane.CountOf(s.instance)
  {
  }

  /** How one transaction moves the counter. */
  lemma CounterMoves(d: Deployment, t: Trace)
    requires d.Blank() && t.Then? && ControlPlane.CountOf(StorageAt(d, t.past)) == UpdateCount(d, t.past)
    ensures ControlPlane.CountOf(StorageAt(d, t)) == UpdateCount(d, t)
            <==> (Updates(d, t) ==> ControlPlane.SparesCount(StorageAt(d, t.past), t.tx.call.admin))
                 && (Starts(d, t) ==> UpdateCount(d, t.past) == 0)
  {
    var s, call := After(d, t.past), t.tx.call;
    if Updates(d, t) {
      RunIsWellTyped(d, t.past);
      ControlPlane.UpdateCountsExactly(d.sha, s, t.tx.ctx, call.admin);
    } else if Accepted(d, t) && call.Admin? {
      SetUpCounts(d.sha, s, t.tx.ctx, call.admin);
    } else if Accepted(d, t) {
      CommitFrame(d.sha, s, t.tx, P_COUNT);
    }
  }

  /**
   * In every run the counter is the number of accepted updates throughout exactly when every
   * update spares it and the control plane was not initialised after an update.
   */
  lemma {:induction false} CounterCountsUpdates(d: Deployment, t: Trace)
    requires d.Blank()
    ensures AlwaysExact(d, t) <==> SparesCounter(d, t)
  {
    if t.Then? {
      CounterCountsUpdates(d, t.past);
      if SparesCounter(d, t.past) {
        CounterMoves(d, t);
      }
    }
  }

  /** An update before the initialisation needs an admin, whom only the proxy can have appointed. */
  lemma {:induction false} EarlyUpdatesNeedProxy(d: Deployment, t: Trace)
    requires d.Blank() && UpdateCount(d, t) > 0
    ensures AccessRuns.Started(d, t) || AccessRuns.ProxyAppointed(d, t)
  {
    if Updates(d, t) {
      AccessRuns.RunFitsAdmin(d, t.past);
      AccessRuns.PrivilegedCallsAreSigned(d, t);
      AccessRuns.AppointedByOne(d, t.past);
    } else {
      EarlyUpdatesNeedProxy(d, t.past);
    }
  }

  /** So in a run in which the proxy appoints nobody, no initialisation comes after an update. */
  lemma WithoutProxyStartIsFirst(d: Deployment, t: Trace)
    requires d.Blank() && Starts(d, t) && !AccessRuns.ProxyAppointed(d, t.past)
    ensures UpdateCount(d, t.past) == 0
  {
    if UpdateCount(d, t.past) > 0 {
      EarlyUpdatesNeedProxy(d, t.past);
      AccessRuns.StartFindsProxyAdmin(d, t);
    }
  }

  function FirstUpdate(sha: Digest, admin: Address, k: Symbol, v: U64, payload: Hash): Tx {
    var c := StateCommitment(1, ComputeCommitment(sha, ZERO_HASH, 1, payload), 0, admin);
    Tx(Context(0, {admin}), Admin(ControlPlane.Set(admin, k, v, c, payload)))
  }

  /** An admin, no commitment yet, nothing counted, the breaker closed. */
  predicate Ripe(s: State, admin: Address) {
    && ADMIN in s.instance && s.instance[ADMIN] == AddressVal(admin) && !s.locked
    && SEQ !in s.instance && PREV_H !in s.instance && CB_STATE !in s.instance
    && ControlPlane.CountOf(s.instance) == 0 && (P_COUNT in s.instance ==> s.instance[P_COUNT].U64Val?)
  }

  predicate NotStarted(s: State) {
    !s.locked && CP_INIT !in s.instance && VER_INIT !in s.instance
  }

  lemma FirstUpdateCommits(sha: Digest, s: State, admin: Address, k: Symbol, v: U64, payload: Hash)
    requires Ripe(s, admin) && !ControlPlane.IsReservedKey(k) && (k == P_COUNT ==> v < U64_MAX)
    ensures var tx := FirstUpdate(sha, admin, k, v, payload);
            var r := ControlPlane.Apply(sha, s, tx.ctx, tx.call.admin);
            && r.Ok? && AccessRuns.AdminIs(r.value.instance, admin)
            && ControlPlane.CountOf(r.value.instance) == (if k == P_COUNT then v + 1 else 1)
            && (k != CP_INIT && NotStarted(s) ==> NotStarted(r.value))
  {
    ControlPlane.ReservedExactly(k);
  }

  lemma FirstUpdateRuns(d: Deployment, t: Trace, admin: Address, k: Symbol, v: U64, payload: Hash)
    requires Ripe(After(d, t), admin) && UpdateCount(d, t) == 0
    requires !ControlPlane.IsReservedKey(k) && (k == P_COUNT ==> v < U64_MAX)
    ensures var u := Then(t, FirstUpdate(d.sha, admin, k, v, payload));
            && Updates(d, u) && UpdateCount(d, u) == 1 && AccessRuns.AdminIs(StorageAt(d, u), admin)
            && ControlPlane.CountOf(StorageAt(d, u)) == (if k == P_COUNT then v + 1 else 1)
            && (k != CP_INIT && NotStarted(After(d, t)) ==> NotStarted(After(d, u)))
  {
    FirstUpdateCommits(d.sha, After(d, t), admin, k, v, payload);
  }

  function StartOf(admin: Address): Tx {
    Tx(Context(0, {admin}), Admin(ControlPlane.Start(admin)))
  }

  lemma StartRuns(d: Deployment, t: Trace, admin: Address)
    requires NotStarted(After(d, t)) && admin != Contract
    ensures var u := Then(t, StartOf(admin));
            && Starts(d, u) && ControlPlane.CountOf(StorageAt(d, u)) == 0 && AccessRuns.AdminIs(StorageAt(d, u), admin)
            && UpdateCount(d, u) == UpdateCount(d, t)
  {
  }

  lemma StartedRun(d: Deployment, admin: Address) returns (t: Trace)
    requires d.Blank() && admin != Contract
    ensures Starts(d, t) && t.past == Genesis && UpdateCount(d, t) == 0 && Ripe(After(d, t), admin)
  {
    t := Then(Genesis, StartOf(admin));
    StartRuns(d, Genesis, admin);
  }

  /** A run in which the counter is wrong: initialised, then updated itself, it goes from 0 to 42 in one update. */
  lemma AimedUpdateMiscounts(d: Deployment, admin: Address, payload: Hash) returns (started: Trace, aimed: Trace)
    requires d.Blank() && admin != Contract
    ensures Starts(d, started) && started.past == Genesis && ControlPlane.CountOf(StorageAt(d, started)) == 0
    ensures aimed == Then(started, FirstUpdate(d.sha, admin, P_COUNT, 41, payload))
    ensures Updates(d, aimed) && UpdateCount(d, aimed) == 1 && ControlPlane.CountOf(StorageAt(d, aimed)) == 42
  {
    started := StartedRun(d, admin);
    FirstUpdateRuns(d, started, admin, P_COUNT, 41, payload);
    aimed := Then(started, FirstUpdate(d.sha, admin, P_COUNT, 41, payload));
  }

  /**
   * A run in which a parameter makes a call trap: initialised, then the phase's key updated with a
   * 64-bit number, it can no longer read the phase.
   */
  lemma AimedUpdateTraps(d: Deployment, admin: Address, v: U64, payload: Hash, ctx: Context) returns (aimed: Trace)
    requires d.Blank() && admin != Contract
    ensures aimed.Then? && Starts(d, aimed.past) && aimed.tx == FirstUpdate(d.sha, admin, PROTO_ST, v, payload)
    ensures Updates(d, aimed) && Clobbered(d, aimed)
    ensures Apply(d.sha, After(d, aimed), Tx(ctx, Life(Lifecycle.MoveTo(Lifecycle.Active)))) == Err(WrongType)
  {
    var started := StartedRun(d, admin);
    ControlPlane.ReservedExactly(PROTO_ST);
    FirstUpdateRuns(d, started, admin, PROTO_ST, v, payload);
    aimed := Then(started, FirstUpdate(d.sha, admin, PROTO_ST, v, payload));
    TrapsOnTypeExactly(d, aimed, Tx(ctx, Life(Lifecycle.MoveTo(Lifecycle.Active))));
  }

  function AppointmentOf(admin: Address): Tx {
    Tx(Context(0, {admin}), Proxy(UpgradeProxy.Begin(admin)))
  }

  lemma AppointedRun(d: Deployment, admin: Address) returns (t: Trace)
    requires d.Blank()
    ensures Appoints(d, t) && t.past == Genesis && UpdateCount(d, t) == 0
    ensures Ripe(After(d, t), admin) && NotStarted(After(d, t))
  {
    t := Then(Genesis, AppointmentOf(admin));
  }

  /**
   * ... and one in which initialisation comes late: the proxy appoints one admin, who updates a
   * parameter, and the control plane is then initialised for another, with the counter back at 0.
   */
  lemma LateStartMiscounts(d: Deployment, first: Address, second: Address, name: string, v: U64, payload: Hash)
    returns (updated: Trace, late: Trace)
    requires d.Blank() && second != Contract
    ensures updated.Then? && Appoints(d, updated.past) && updated.tx == FirstUpdate(d.sha, first, Named(name), v, payload)
    ensures Updates(d, updated) && ControlPlane.CountOf(StorageAt(d, updated)) == 1
            && AccessRuns.AdminIs(StorageAt(d, updated), first)
    ensures late == Then(updated, StartOf(second)) && Starts(d, late) && UpdateCount(d, late) == 1
    ensures ControlPlane.CountOf(StorageAt(d, late)) == 0 && AccessRuns.AdminIs(StorageAt(d, late), second)
  {
    var appointed := AppointedRun(d, first);
    FirstUpdateRuns(d, appointed, first, Named(name), v, payload);
    updated := Then(appointed, FirstUpdate(d.sha, first, Named(name), v, payload));
    StartRuns(d, updated, second);
    late := Then(updated, StartOf(second));
  }

  function LoneCommitments(d: Deployment, t: Trace): nat {
    if t.Genesis? then 0
    else LoneCommitments(d, t.past) + if Accepted(d, t) && t.tx.call.Commitment? then 1 else 0
  }

  lemma {:induction false} LinksAreUpdatesAndLone(d: Deployment, t: Trace)
    ensures |Links(d, t)| == UpdateCount(d, t) + LoneCommitments(d, t)
  {
    if t.Then? {
      LinksAreUpdatesAndLone(d, t.past);
    }
  }

  /**
   * While the counter is spared, it is the length of the audit chain exactly when no commitment was recorded
   * without an update.
   */
  lemma CounterIsChainLength(d: Deployment, t: Trace)
    requires d.Blank() && SparesCounter(d, t)
    ensures ControlPlane.CountOf(StorageAt(d, t)) == |Links(d, t)| <==> LoneCommitments(d, t) == 0
  {
    CounterCountsUpdates(d, t);
    LinksAreUpdatesAndLone(d, t);
  }

  // ----- attestations -----

  predicate Registers(d: Deployment, t: Trace) {
    Accepted(d, t) && t.tx.call.Proof?
  }

  function Registrations(d: Deployment, t: Trace): nat {
    if t.Genesis? then 0 else Registrations(d, t.past) + if Registers(d, t) then 1 else 0
  }

  /** The proof hash last registered for each root. */
  function LastProofs(d: Deployment, t: Trace): map<Hash, Hash> {
    if t.Genesis? then map[]
    else if Registers(d, t) then LastProofs(d, t.past)[t.tx.call.proof.root := t.tx.call.proof.proofHash]
    else LastProofs(d, t.past)
  }

  function ProofCountOf(st: Storage): U64 {
    if ZK_COUNT in st && st[ZK_COUNT].U64Val? then st[ZK_COUNT].u64 else 0
  }

  /** This root was the audit head after some non-empty part of the accepted commitments. */
  ghost predicate WasHead(sha: Digest, links: seq<Link>, root: Hash) {
    exists n :: 0 < n <= |links| && Head(sha, links[..n]) == root
  }

  ghost predicate Attested(d: Deployment, t: Trace) {
    var s := After(d, t);
    && s.proofs == LastProofs(d, t)
    && s.attestations.Keys == s.proofs.Keys
    && (forall r :: r in s.proofs ==> s.attestations[r].stateRoot == r && s.attestations[r].proofHash == s.proofs[r])
    && (forall r :: r in s.proofs ==> WasHead(d.sha, Links(d, t), r))
    && ProofCountOf(s.instance) == Registrations(d, t)
  }

  lemma RegistrationEffect(s: State, ctx: Context, call: ZkHooks.Call)
    requires ZkHooks.Apply(s, ctx, call).Ok?
    ensures var v := ZkHooks.Apply(s, ctx, call).value;
            && v.proofs == s.proofs[call.root := call.proofHash]
            && v.attestations == s.attestations[call.root :=
                 Attestation(call.root, call.proofHash, call.blockSeq, ctx.ledger, call.metadata)]
            && ProofCountOf(v.instance) == ProofCountOf(s.instance) + 1
            && SequenceOf(s.instance) != 0 && HeadOf(s.instance) == call.root
  {
  }

  lemma WasHeadStill(sha: Digest, links: seq<Link>, more: seq<Link>, root: Hash)
    requires WasHead(sha, links, root)
    ensures WasHead(sha, links + more, root)
  {
    var n :| 0 < n <= |links| && Head(sha, links[..n]) == root;
    assert (links + more)[..n] == links[..n];
  }

  /**
   * In every run each stored proof and attestation is for a root that was the audit head of this
   * run, the two maps have the same keys and proof hashes, each holds what was last registered for
   * its root, and the proof counter is the number of registrations.
   */
  lemma {:induction false} RunIsAttested(d: Deployment, t: Trace)
    requires d.Blank()
    ensures Attested(d, t)
  {
    if t.Then? {
      RunIsAttested(d, t.past);
      HeadsStay(d, t);
      if Registers(d, t) {
        RegistersHead(d, t);
        RegistrationEffect(After(d, t.past), t.tx.ctx, t.tx.call.proof);
      } else {
        CommitSurroundings(d.sha, After(d, t.past), t.tx);
        CountUntouched(d, t);
      }
    }
  }

  lemma HeadsStay(d: Deployment, t: Trace)
    requires t.Then? && forall r :: r in After(d, t.past).proofs ==> WasHead(d.sha, Links(d, t.past), r)
    ensures forall r :: r in After(d, t.past).proofs ==> WasHead(d.sha, Links(d, t), r)
  {
    forall r | r in After(d, t.past).proofs ensures WasHead(d.sha, Links(d, t), r) {
      WasHeadStill(d.sha, Links(d, t.past), if Commits(d, t) then [LinkOf(t.tx.call)] else [], r);
    }
  }

  /** A registration is for the head of the commitments accepted so far. */
  lemma RegistersHead(d: Deployment, t: Trace)
    requires d.Blank() && t.Then? && Registers(d, t)
    ensures WasHead(d.sha, Links(d, t), t.tx.call.proof.root)
  {
    var before := Links(d, t.past);
    RegistrationEffect(After(d, t.past), t.tx.ctx, t.tx.call.proof);
    RunIsChained(d, t.past);
    assert before[..|before|] == before && Links(d, t) == before;
  }

  lemma CountUntouched(d: Deployment, t: Trace)
    requires t.Then? && !Registers(d, t)
    ensures ProofCountOf(StorageAt(d, t)) == ProofCountOf(StorageAt(d, t.past))
  {
    if Accepted(d, t) {
      KeysAreApart(t.tx.call);
      CommitFrame(d.sha, After(d, t.past), t.tx, ZK_COUNT);
    }
  }
}
