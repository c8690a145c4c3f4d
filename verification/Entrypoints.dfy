/**
 * The entrypoints as the contract runs them: each takes the guard, checks, writes storage key by
 * key and releases the guard, and each is proved against the function that specifies it. A panic
 * leaves the writes made so far, and the host undoes them (`Invoke`).
 */
module Entrypoints {
  import opened Wrappers
  import opened ContractState
  import opened Host
  import Audit
  import CircuitBreaker
  import Governance
  import EmergencyRecovery
  import ControlPlane
  import ZkHooks
  import FeeCollection
  import UpgradeProxy
  import Lifecycle
  import Protocol

  // ----- shared loops -----

  /** The uniqueness check of every signer, admin and guardian list. */
  method AllDistinct(xs: seq<Address>) returns (distinct: bool)
    ensures distinct <==> NoRepeats(xs)
  {
    var seen: seq<Address> := [];
    for n := 0 to |xs|
      invariant seen == xs[..n] && NoRepeats(seen)
    {
      if xs[n] in seen {
        assert exists i :: 0 <= i < n && xs[i] == xs[n];
        return false;
      }
      seen := seen + [xs[n]];
    }
    distinct := true;
  }

  // ----- audit.rs -----

  method ValidateTransitionInner(env: Env, c: Audit.StateCommitment, payload: seq<Byte>) returns (r: Result<(), Error>)
    modifies env`instance
    ensures Matches(Audit.ValidateTransitionInner(env.sha, old(env.Now()), c, payload), r, env.Now())
  {
    var _ :- AssertClosed(env.instance);
    var fits :- Audit.IntegrityCheck(env.sha, env.instance, c, payload);
    if !fits {
      return Err(if c.sequence <= Audit.SequenceOf(env.instance) then ReplayedSequence else HashMismatch);
    }
    env.Put(SEQ, U64Val(c.sequence));
    env.Put(PREV_H, HashVal(c.stateHash));
    r := Ok(());
  }

  method ValidateTransition(env: Env, c: Audit.StateCommitment, payload: seq<Byte>) returns (r: Result<(), Error>)
    modifies env
    ensures Matches(Audit.ValidateTransition(env.sha, old(env.Now()), c, payload), r, env.Now())
  {
    var _ :- env.EnterReentrancyGuard();
    var _ :- ValidateTransitionInner(env, c, payload);
    env.ExitReentrancyGuard();
    r := Ok(());
  }

  // ----- circuit_breaker.rs -----

  method InitBreakerInner(env: Env, guardians: seq<Address>) returns (r: Result<(), Error>)
    modifies env`instance
    ensures Matches(CircuitBreaker.Init(old(env.Now()), guardians), r, env.Now())
  {
    var _ :- Need(CB_GUARD !in env.instance, BreakerInitialized);
    var _ :- Need(guardians != [], InvalidGuardianSet);
    var distinct := AllDistinct(guardians);
    var _ :- Need(distinct, InvalidGuardianSet);
    env.Put(CB_STATE, BreakerVal(false));
    env.Put(CB_GUARD, AddressesVal(guardians));
    r := Ok(());
  }

  method Switch(env: Env, ctx: Context, guardian: Address, open: bool) returns (r: Result<(), Error>)
    modifies env
    ensures Matches(CircuitBreaker.Switch(old(env.Now()), ctx, guardian, open), r, env.Now())
  {
    var _ :- env.EnterReentrancyGuard();
    var _ :- RequireAuth(ctx, guardian);
    var _ :- CircuitBreaker.RequireGuardian(env.instance, guardian);
    var current :- ReadBreaker(env.instance);
    var _ :- Need(current != open, AlreadyInState);
    env.Put(CB_STATE, BreakerVal(open));
    env.ExitReentrancyGuard();
    r := Ok(());
  }

  // ----- control_plane.rs -----

  method Initialize(env: Env, ctx: Context, admin: Address) returns (r: Result<(), Error>)
    modifies env
    ensures Matches(ControlPlane.Initialize(old(env.Now()), ctx, admin), r, env.Now())
  {
    var _ :- env.EnterReentrancyGuard();
    var _ :- Need(CP_INIT !in env.instance, AlreadyInitialized);
    var _ :- Need(admin != Contract, InvalidAdmin);
    var _ :- RequireAuth(ctx, admin);
    env.Put(ADMIN, AddressVal(admin));
    env.Put(CP_INIT, BoolVal(true));
    env.Put(P_COUNT, U64Val(0));
    var _ :- Need(VER_INIT !in env.instance, VersionInitialized);
    env.Put(VERSION, U32Val(ControlPlane.CONTRACT_VERSION));
    env.Put(VER_INIT, BoolVal(true));
    env.ExitReentrancyGuard();
    r := Ok(());
  }

  method IncrementParamCount(env: Env) returns (r: Result<(), Error>)
    modifies env`instance
    ensures var spec := ControlPlane.IncrementParamCount(old(env.instance));
            if spec.Ok? then r.Ok? && env.instance == spec.value else r == Err(spec.error)
  {
    var count :- ReadU64(env.instance, P_COUNT, 0);
    var _ :- Need(count < U64_MAX, ArithmeticOverflow);
    env.Put(P_COUNT, U64Val(count + 1));
    r := Ok(());
  }

  method BeginUpdate(env: Env, ctx: Context, caller: Address) returns (r: Result<(), Error>)
    modifies env`locked
    ensures r == ControlPlane.MayUpdate(old(env.Now()), ctx, caller)
    ensures r.Ok? ==> env.locked
  {
    var _ :- env.EnterReentrancyGuard();
    var _ :- RequireAdmin(env.instance, ctx, caller);
    r := AssertClosed(env.instance);
  }

  method UpdateParam(env: Env, ctx: Context, caller: Address, k: Symbol, v: U64, c: Audit.StateCommitment, payload: Hash)
    returns (r: Result<(), Error>)
    modifies env
    ensures Matches(ControlPlane.UpdateParam(env.sha, old(env.Now()), ctx, caller, k, v, c, payload), r, env.Now())
  {
    var _ :- BeginUpdate(env, ctx, caller);
    var _ :- Need(!ControlPlane.IsReservedKey(k), ReservedKey);
    Audit.InnerIgnoresGuard(env.sha, old(env.Now()), c, payload);
    var _ :- ValidateTransitionInner(env, c, payload);
    env.Put(k, U64Val(v));
    env.Put(LASTPAR, SymbolVal(k));
    var _ :- IncrementParamCount(env);
    env.ExitReentrancyGuard();
    r := Ok(());
  }

  /** The first loop of the batch: no reserved key among its targets. */
  method CheckTargets(params: seq<(Symbol, U64)>) returns (r: Result<(), Error>)
    ensures r == Need(forall i :: 0 <= i < |params| ==> !ControlPlane.IsReservedKey(params[i].0), ReservedKey)
  {
    for n := 0 to |params|
      invariant forall i :: 0 <= i < n ==> !ControlPlane.IsReservedKey(params[i].0)
    {
      if ControlPlane.IsReservedKey(params[n].0) {
        return Err(ReservedKey);
      }
    }
    r := Ok(());
  }

  /** The second loop: the writes. */
  method WriteParams(env: Env, params: seq<(Symbol, U64)>)
    modifies env`instance
    ensures env.instance == ControlPlane.WriteAll(old(env.instance), params)
  {
    for n := 0 to |params|
      invariant env.instance == ControlPlane.WriteAll(old(env.instance), params[..n])
    {
      assert params[..n + 1][..n] == params[..n];
      env.Put(params[n].0, U64Val(params[n].1));
    }
    assert params[..|params|] == params;
  }

  /** The commitment is recorded before the targets are checked; a reserved target panics with the head already moved. */
  method BatchUpdateParam(env: Env, ctx: Context, caller: Address, params: seq<(Symbol, U64)>,
                          c: Audit.StateCommitment, payload: Hash)
    returns (r: Result<(), Error>)
    modifies env
    ensures Matches(ControlPlane.BatchUpdateParam(env.sha, old(env.Now()), ctx, caller, params, c, payload), r, env.Now())
  {
    var _ :- BeginUpdate(env, ctx, caller);
    Audit.InnerIgnoresGuard(env.sha, old(env.Now()), c, payload);
    var _ :- ValidateTransitionInner(env, c, payload);
    var _ :- CheckTargets(params);
    WriteParams(env, params);
    var _ :- IncrementParamCount(env);
    env.ExitReentrancyGuard();
    r := Ok(());
  }

  method InitBreaker(env: Env, ctx: Context, caller: Address, guardians: seq<Address>) returns (r: Result<(), Error>)
    modifies env
    ensures Matches(ControlPlane.InitBreaker(old(env.Now()), ctx, caller, guardians), r, env.Now())
  {
    var _ :- env.EnterReentrancyGuard();
    var _ :- RequireAdmin(env.instance, ctx, caller);
    var _ :- InitBreakerInner(env, guardians);
    env.ExitReentrancyGuard();
    r := Ok(());
  }

  // ----- governance.rs, upgrade.rs -----

  method InitGovernance(env: Env, signers: seq<Address>, threshold: U32, stakeToken: Option<Address>, minStake: I128)
    returns (r: Result<(), Error>)
    modifies env
    ensures Matches(Governance.Init(old(env.Now()), signers, threshold, stakeToken, minStake), r, env.Now())
  {
    var _ :- env.EnterReentrancyGuard();
    var _ :- Need(SIGNERS !in env.instance, GovernanceInitialized);
    var _ :- Need(0 < threshold <= |signers| && threshold <= Governance.MAX_THRESHOLD, InvalidThreshold);
    var _ :- Need(minStake >= 0 && (minStake > 0 ==> stakeToken.Some?), InvalidStake);
    var distinct := AllDistinct(signers);
    var _ :- Need(distinct, DuplicateSigner);
    env.Put(SIGNERS, AddressesVal(signers));
    env.Put(THRESH, U32Val(threshold));
    env.Put(MINSTAKE, I128Val(minStake));
    if stakeToken.Some? {
      env.Put(STKTOK, AddressVal(stakeToken.value));
    }
    env.Put(PROPS, ProposalsVal(map[]));
    env.ExitReentrancyGuard();
    r := Ok(());
  }

  method Propose(env: Env, ctx: Context, p: Proposal) returns (r: Result<U64, Error>)
    modifies env
    ensures Matches(Governance.Propose(old(env.Now()), ctx, p), r, env.Now())
    ensures r.Ok? ==> r.value == p.id
  {
    var _ :- env.EnterReentrancyGuard();
    var _ :- AssertClosed(env.instance);
    var _ :- Governance.RequireSigner(env.instance, p.proposer);
    var _ :- RequireAuth(ctx, p.proposer);
    var proposals :- ReadProposals(env.instance);
    var _ :- Need(p.id !in proposals, DuplicateProposal);
    var proposal := p.(state := Pending);
    proposal := proposal.(approvedBy := []);
    var _ :- Need(ctx.ledger + Governance.TIMELOCK_LEDGERS <= U32_MAX, ArithmeticOverflow);
    proposals := proposals[p.id := Filed(proposal, ctx.ledger + Governance.TIMELOCK_LEDGERS)];
    env.Put(PROPS, ProposalsVal(proposals));
    env.ExitReentrancyGuard();
    r := Ok(p.id);
  }

  /** The index search of `signer_index`. */
  method SignerIndex(env: Env, who: Address) returns (r: Result<nat, Error>)
    ensures r == Governance.SignerIndex(env.instance, who)
  {
    var signers :- ReadAddresses(env.instance, SIGNERS);
    for n := 0 to |signers|
      invariant who !in signers[..n]
    {
      if signers[n] == who {
        assert Governance.IndexIn(signers, who) == n by {
          assert forall j :: 0 <= j < n ==> signers[j] in signers[..n];
        }
        return Ok(n);
      }
    }
    r := Err(NotASigner);
  }

  method RequireOrder(env: Env, approvedBy: seq<Address>, who: Address) returns (r: Result<(), Error>)
    ensures r == Governance.RequireOrder(env.instance, approvedBy, who)
  {
    if approvedBy != [] {
      var last :- SignerIndex(env, approvedBy[|approvedBy| - 1]);
      var current :- SignerIndex(env, who);
      var _ :- Need(current > last, InvalidSignerOrder);
    }
    r := Ok(());
  }

  method BeginApproval(env: Env, ctx: Context, signer: Address) returns (r: Result<(), Error>)
    modifies env`locked
    ensures r == Governance.MayApprove(old(env.Now()), ctx, signer)
    ensures r.Ok? ==> env.locked
  {
    var _ :- AssertClosed(env.instance);
    var _ :- env.EnterReentrancyGuard();
    var _ :- RequireAuth(ctx, signer);
    var _ :- Governance.RequireSigner(env.instance, signer);
    r := Governance.RequireStake(env.Now(), signer);
  }

  method CheckApprovable(env: Env, p: Proposal, signer: Address) returns (r: Result<(), Error>)
    ensures r == Governance.Approvable(env.instance, p, signer)
  {
    var _ :- Need(p.state == Pending, InvalidStateTransition);
    var _ :- Need(signer !in p.approvedBy, AlreadyApproved);
    r := RequireOrder(env, p.approvedBy, signer);
  }

  /** The end of an approval: the new approver, and at quorum the new state and its timelock. */
  method WithApproval(f: Filed, who: Address, threshold: U32, ledger: U32) returns (r: Result<Filed, Error>)
    ensures r == Governance.WithApproval(f, who, threshold, ledger)
  {
    var proposal, unlock := f.proposal, f.unlock;
    proposal := proposal.(approvedBy := proposal.approvedBy + [who]);
    if |proposal.approvedBy| >= threshold {
      proposal := proposal.(state := Approved);
      var _ :- Need(ledger + Governance.TIMELOCK_LEDGERS <= U32_MAX, ArithmeticOverflow);
      unlock := ledger + Governance.TIMELOCK_LEDGERS;
    }
    r := Ok(Filed(proposal, unlock));
  }

  method Approve(env: Env, ctx: Context, signer: Address, id: U64) returns (r: Result<(), Error>)
    modifies env
    ensures Matches(Governance.Approve(old(env.Now()), ctx, signer, id), r, env.Now())
  {
    var _ :- BeginApproval(env, ctx, signer);
    var proposals :- ReadProposals(env.instance);
    var _ :- Need(id in proposals, ProposalNotFound);
    var f := proposals[id];
    var _ :- CheckApprovable(env, f.proposal, signer);
    var threshold :- ReadU32(env.instance, THRESH, 0);
    var _ :- Need(threshold != 0, InvalidThreshold);
    var approved :- WithApproval(f, signer, threshold, ctx.ledger);
    proposals := proposals[id := approved];
    env.Put(PROPS, ProposalsVal(proposals));
    env.ExitReentrancyGuard();
    r := Ok(());
  }

  method Execute(env: Env, ctx: Context, id: U64) returns (r: Result<Proposal, Error>)
    modifies env
    ensures Matches(Governance.Execute(old(env.Now()), ctx, id), r, env.Now())
    ensures r.Ok? ==> env.instance[PROPS].proposals[id].proposal == r.value
  {
    var _ :- AssertClosed(env.instance);
    var _ :- env.EnterReentrancyGuard();
    var proposals :- ReadProposals(env.instance);
    var _ :- Need(id in proposals, ProposalNotFound);
    var proposal, unlock := proposals[id].proposal, proposals[id].unlock;
    var _ :- Need(proposal.state == Approved, InvalidStateTransition);
    var threshold :- ReadU32(env.instance, THRESH, 0);
    var _ :- Need(|proposal.approvedBy| >= threshold, ThresholdNotMet);
    var _ :- Need(ctx.ledger >= unlock, TimelockActive);
    proposal := proposal.(state := Executed);
    proposals := proposals[id := Filed(proposal, unlock)];
    env.Put(PROPS, ProposalsVal(proposals));
    env.ExitReentrancyGuard();
    r := Ok(proposal);
  }

  method Upgrade(env: Env, ctx: Context, id: U64, wasm: Hash) returns (r: Result<(), Error>)
    modifies env
    ensures Matches(Governance.Upgrade(old(env.Now()), ctx, id, wasm), r, env.Now())
  {
    var _ :- AssertClosed(env.instance);
    var _ :- Need(wasm != ZERO_HASH, InvalidWasmHash);
    var proposals :- ReadProposals(env.instance);
    var _ :- Need(id in proposals, ProposalNotFound);
    var _ :- Need(proposals[id].proposal.state == Approved, ProposalNotApproved);
    var _ :- Need(proposals[id].proposal.actionHash == wasm, InvalidWasmHash);
    var _ :- Execute(env, ctx, id);
    env.wasm := wasm;
    r := Ok(());
  }

  // ----- emergency_recovery.rs -----

  method ClearPending(env: Env)
    modifies env`instance
    ensures env.instance == EmergencyRecovery.ClearPending(old(env.instance))
  {
    env.Put(ER_APPRVS, AddressesVal([]));
    env.instance := env.instance - {ER_DEST};
    env.instance := env.instance - {ER_TOKEN};
    env.instance := env.instance - {ER_AMOUNT};
    assert env.instance == old(env.instance)[ER_APPRVS := AddressesVal([])] - {ER_DEST, ER_TOKEN, ER_AMOUNT};
  }

  /** The address check over a list, one by one. */
  method CheckAddresses(xs: seq<Address>) returns (r: Result<(), Error>)
    ensures r == Need(Zero !in xs, InvalidAddress)
  {
    for n := 0 to |xs|
      invariant Zero !in xs[..n]
    {
      if xs[n] == Zero {
        return Err(InvalidAddress);
      }
    }
    assert xs[..|xs|] == xs;
    r := Ok(());
  }

  method InitRecovery(env: Env, admins: seq<Address>, threshold: U32) returns (r: Result<(), Error>)
    modifies env
    ensures Matches(EmergencyRecovery.Init(old(env.Now()), admins, threshold), r, env.Now())
  {
    var _ :- Need(ER_ADMINS !in env.instance, RecoveryInitialized);
    var _ :- Need(0 < threshold <= |admins|, InvalidThreshold);
    var distinct := AllDistinct(admins);
    var _ :- Need(distinct, DuplicateAdmin);
    var _ :- CheckAddresses(admins);
    env.Put(ER_ADMINS, AddressesVal(admins));
    env.Put(ER_THRESH, U32Val(threshold));
    ClearPending(env);
    r := Ok(());
  }

  method ExecuteRecovery(env: Env, dest: Address) returns (r: Result<(), Error>)
    modifies env
    ensures Matches(EmergencyRecovery.ExecuteRecovery(old(env.Now()), dest), r, env.Now())
  {
    var _ :- AssertClosed(env.instance);
    var token :- ReadAddress(env.instance, ER_TOKEN, NoPendingRequest);
    var amount :- ReadAmount(env.instance, ER_AMOUNT, NoPendingRequest);
    var _ :- env.Pay(token, dest, amount);
    var _ :- Need(0 < amount <= U64_MAX, InvalidAmount);
    ClearPending(env);
    r := Ok(());
  }

  method Tally(env: Env, approvals: seq<Address>, dest: Address) returns (r: Result<(), Error>)
    modifies env
    ensures Matches(EmergencyRecovery.Tally(old(env.Now()), approvals, dest), r, env.Now())
  {
    var threshold :- ReadU32(env.instance, ER_THRESH, 1);
    r := Ok(());
    if |approvals| >= threshold {
      r := ExecuteRecovery(env, dest);
    }
  }

  method BeginRecovery(env: Env, ctx: Context, who: Address) returns (r: Result<(), Error>)
    modifies env`locked
    ensures r == EmergencyRecovery.MayAct(old(env.Now()), ctx, who)
    ensures r.Ok? ==> env.locked
  {
    var _ :- env.EnterReentrancyGuard();
    var _ :- AssertClosed(env.instance);
    var _ :- RequireAuth(ctx, who);
    r := EmergencyRecovery.RequireRecoveryAdmin(env.instance, who);
  }

  method FileRequest(env: Env, requester: Address, token: Address, dest: Address, amount: I128)
    modifies env`instance
    ensures env.instance == EmergencyRecovery.Filed(old(env.instance), requester, token, dest, amount)
  {
    ClearPending(env);
    env.Put(ER_TOKEN, AddressVal(token));
    env.Put(ER_DEST, AddressVal(dest));
    env.Put(ER_AMOUNT, I128Val(amount));
    env.Put(ER_APPRVS, AddressesVal([requester]));
  }

  method RequestRecovery(env: Env, ctx: Context, requester: Address, token: Address, dest: Address, amount: I128)
    returns (r: Result<(), Error>)
    modifies env
    ensures Matches(EmergencyRecovery.Request(old(env.Now()), ctx, requester, token, dest, amount), r, env.Now())
  {
    var _ :- BeginRecovery(env, ctx, requester);
    var _ :- Need(token != Zero && dest != Zero, InvalidAddress);
    var _ :- Need(amount > 0, InvalidAmount);
    FileRequest(env, requester, token, dest, amount);
    var _ :- Need(amount <= U64_MAX, InvalidAmount);
    EmergencyRecovery.TallyIgnoresGuard(env.Now().(locked := false), [requester], dest);
    var _ :- Tally(env, [requester], dest);
    env.ExitReentrancyGuard();
    r := Ok(());
  }

  method ApproveRecovery(env: Env, ctx: Context, admin: Address) returns (r: Result<(), Error>)
    modifies env
    ensures Matches(EmergencyRecovery.Approve(old(env.Now()), ctx, admin), r, env.Now())
  {
    var _ :- BeginRecovery(env, ctx, admin);
    var dest :- ReadAddress(env.instance, ER_DEST, NoPendingRequest);
    var approvals :- ReadAddresses(env.instance, ER_APPRVS);
    var _ :- Need(admin !in approvals, AlreadyApproved);
    approvals := approvals + [admin];
    env.Put(ER_APPRVS, AddressesVal(approvals));
    EmergencyRecovery.TallyIgnoresGuard(env.Now().(locked := false), approvals, dest);
    var _ :- Tally(env, approvals, dest);
    env.ExitReentrancyGuard();
    r := Ok(());
  }

  // ----- zk_hooks.rs -----

  /** The metadata limits, entry by entry. */
  method CheckMetadata(metadata: map<string, seq<Byte>>) returns (r: Result<(), Error>)
    ensures r == Need(ZkHooks.MetadataFits(metadata), MetadataTooLarge)
  {
    var _ :- Need(|metadata| <= ZkHooks.MAX_METADATA_ENTRIES, MetadataTooLarge);
    var left := metadata.Keys;
    while left != {}
      invariant left <= metadata.Keys
      invariant forall k :: k in metadata && k !in left ==> |metadata[k]| <= ZkHooks.MAX_METADATA_VALUE_BYTES
      decreases |left|
    {
      var k :| k in left;
      if |metadata[k]| > ZkHooks.MAX_METADATA_VALUE_BYTES {
        return Err(MetadataTooLarge);
      }
      left := left - {k};
    }
    r := Ok(());
  }

  method IncrementProofCount(env: Env) returns (r: Result<(), Error>)
    modifies env`instance
    ensures var spec := ZkHooks.IncrementProofCount(old(env.instance));
            if spec.Ok? then r.Ok? && env.instance == spec.value else r == Err(spec.error)
  {
    var count :- ReadU64(env.instance, ZK_COUNT, 0);
    var _ :- Need(count < U64_MAX, ArithmeticOverflow);
    env.Put(ZK_COUNT, U64Val(count + 1));
    r := Ok(());
  }

  method CheckRegistration(env: Env, ctx: Context, caller: Address, root: Hash, proofHash: Hash,
                           metadata: map<string, seq<Byte>>)
    returns (r: Result<(), Error>)
    ensures r == ZkHooks.Admissible(env.instance, ctx, caller, root, proofHash, metadata)
  {
    var _ :- RequireAdmin(env.instance, ctx, caller);
    var _ :- ZkHooks.ValidateCurrentStateRoot(env.instance, root);
    var _ :- Need(proofHash != ZERO_HASH, InvalidProofHash);
    r := CheckMetadata(metadata);
  }

  method StoreAttestation(env: Env, attestation: Attestation)
    modifies env`proofs, env`attestations
    ensures env.Now() == ZkHooks.Stored(old(env.Now()), attestation)
  {
    env.proofs := env.proofs[attestation.stateRoot := attestation.proofHash];
    env.attestations := env.attestations[attestation.stateRoot := attestation];
  }

  method RegisterProof(env: Env, ctx: Context, caller: Address, root: Hash, proofHash: Hash, blockSeq: U32,
                       metadata: map<string, seq<Byte>>)
    returns (r: Result<(), Error>)
    modifies env
    ensures Matches(ZkHooks.RegisterProof(old(env.Now()), ctx, caller, root, proofHash, blockSeq, metadata), r, env.Now())
  {
    var _ :- env.EnterReentrancyGuard();
    var _ :- CheckRegistration(env, ctx, caller, root, proofHash, metadata);
    StoreAttestation(env, Attestation(root, proofHash, blockSeq, ctx.ledger, metadata));
    var _ :- IncrementProofCount(env);
    env.ExitReentrancyGuard();
    r := Ok(());
  }

  // ----- protocol_fee.rs -----

  method InitFee(env: Env, bps: U32, recipient: Address) returns (r: Result<(), Error>)
    modifies env`instance
    ensures Matches(FeeCollection.InitFee(old(env.Now()), bps, recipient), r, env.Now())
  {
    var _ :- Need(bps <= FeeCollection.ProtocolFee.MAX_BPS, InvalidBasisPoints);
    var _ :- Need(recipient != Zero, InvalidRecipient);
    env.Put(FEE_BPS, U32Val(bps));
    env.Put(FEE_RCP, AddressVal(recipient));
    r := Ok(());
  }

  method SetFeeBps(env: Env, ctx: Context, caller: Address, bps: U32) returns (r: Result<(), Error>)
    modifies env`instance
    ensures Matches(FeeCollection.SetFeeBps(old(env.Now()), ctx, caller, bps), r, env.Now())
  {
    var _ :- RequireAdmin(env.instance, ctx, caller);
    var _ :- Need(bps <= FeeCollection.ProtocolFee.MAX_BPS, InvalidBasisPoints);
    env.Put(FEE_BPS, U32Val(bps));
    r := Ok(());
  }

  method SetFeeRecipient(env: Env, ctx: Context, caller: Address, recipient: Address) returns (r: Result<(), Error>)
    modifies env`instance
    ensures Matches(FeeCollection.SetFeeRecipient(old(env.Now()), ctx, caller, recipient), r, env.Now())
  {
    var _ :- RequireAdmin(env.instance, ctx, caller);
    var _ :- Need(recipient != Zero, InvalidRecipient);
    env.Put(FEE_RCP, AddressVal(recipient));
    r := Ok(());
  }

  method DeductFee(env: Env, token: Address, amount: I128) returns (r: Result<int, Error>)
    modifies env
    ensures match FeeCollection.DeductFee(old(env.Now()), token, amount)
            case Ok(paid) => r == Ok(paid.1) && env.Now() == paid.0
            case Err(e) => r == Err(e)
  {
    var _ :- env.EnterReentrancyGuard();
    var _ :- AssertClosed(env.instance);
    var split :- FeeCollection.StoredFee(env.instance, amount);
    if split.0 > 0 {
      var recipient :- ReadAddress(env.instance, FEE_RCP, InvalidRecipient);
      TransferIgnoresGuard(old(env.Now()), token, Contract, recipient, split.0);
      var _ :- env.Pay(token, recipient, split.0);
      var _ :- Need(split.0 <= U64_MAX, FeeCalculationOverflow);
    }
    env.ExitReentrancyGuard();
    r := Ok(split.1);
  }

  // ----- core/proxy.rs -----

  method InitProxy(env: Env, ctx: Context, admin: Address) returns (r: Result<(), Error>)
    modifies env
    ensures Matches(UpgradeProxy.Init(old(env.Now()), ctx, admin), r, env.Now())
  {
    var _ :- env.EnterReentrancyGuard();
    var _ :- Need(ADMIN !in env.instance, ProxyInitialized);
    var _ :- RequireAuth(ctx, admin);
    env.Put(ADMIN, AddressVal(admin));
    env.Put(GAP, NumbersVal(UpgradeProxy.Repeated(0, UpgradeProxy.GAP_WORDS)));
    env.ExitReentrancyGuard();
    r := Ok(());
  }

  method UpgradeByProxy(env: Env, ctx: Context, wasm: Hash) returns (r: Result<(), Error>)
    modifies env
    ensures Matches(UpgradeProxy.Upgrade(old(env.Now()), ctx, wasm), r, env.Now())
  {
    var _ :- env.EnterReentrancyGuard();
    var admin :- ReadAddress(env.instance, ADMIN, ProxyNotInitialized);
    var _ :- RequireAuth(ctx, admin);
    var _ :- Need(wasm != ZERO_HASH, InvalidWasmHash);
    env.wasm := wasm;
    env.ExitReentrancyGuard();
    r := Ok(());
  }

  /** The guard is taken, and then taken again: this panics whatever it is given. */
  method VerifyIntegrity(env: Env, c: Audit.StateCommitment, payload: seq<Byte>) returns (r: Result<(), Error>)
    modifies env
    ensures Matches(UpgradeProxy.VerifyIntegrity(env.sha, old(env.Now()), c, payload), r, env.Now())
    ensures r == Err(ReentrancyDetected)
  {
    UpgradeProxy.NeverCommits(env.sha, env.Now(), c, payload);
    var _ :- env.EnterReentrancyGuard();
    r := ValidateTransition(env, c, payload);
  }

  // ----- core/state.rs -----

  method InitPhase(env: Env)
    modifies env`instance
    ensures Lifecycle.Apply(old(env.Now()), Lifecycle.Begin) == Ok(env.Now())
  {
    env.Put(PROTO_ST, U32Val(0));
  }

  method TransitionTo(env: Env, next: Lifecycle.Phase) returns (r: Result<(), Error>)
    modifies env`instance
    ensures Matches(Lifecycle.TransitionTo(old(env.Now()), next), r, env.Now())
  {
    var current :- Lifecycle.CurrentPhase(env.instance);
    var _ :- Need(current != next, PhaseUnchanged);
    var _ :- Need(Lifecycle.Allowed(current, next), InvalidTransition);
    env.Put(PROTO_ST, U32Val(Lifecycle.Number(next)));
    r := Ok(());
  }

  // ----- a transaction -----

  method CallAdmin(env: Env, ctx: Context, call: ControlPlane.Call) returns (r: Result<(), Error>)
    modifies env
    ensures Matches(ControlPlane.Apply(env.sha, old(env.Now()), ctx, call), r, env.Now())
  {
    match call
    case Start(admin) => r := Initialize(env, ctx, admin);
    case Set(caller, k, v, c, digest) => r := UpdateParam(env, ctx, caller, k, v, c, digest);
    case SetMany(caller, params, c, digest) => r := BatchUpdateParam(env, ctx, caller, params, c, digest);
    case EstablishBreaker(caller, guardians) => r := InitBreaker(env, ctx, caller, guardians);
  }

  method CallGovernance(env: Env, ctx: Context, call: Governance.Call) returns (r: Result<(), Error>)
    modifies env
    ensures Matches(Governance.Apply(old(env.Now()), ctx, call), r, env.Now())
  {
    match call
    case Establish(signers, threshold, token, minStake) => r := InitGovernance(env, signers, threshold, token, minStake);
    case Submit(p) =>
      var _ :- Propose(env, ctx, p);
      r := Ok(());
    case Endorse(signer, id) => r := Approve(env, ctx, signer, id);
    case Perform(id) =>
      var _ :- Execute(env, ctx, id);
      r := Ok(());
    case Install(id, wasm) => r := Upgrade(env, ctx, id, wasm);
  }

  method CallRecovery(env: Env, ctx: Context, call: EmergencyRecovery.Call) returns (r: Result<(), Error>)
    modifies env
    ensures Matches(EmergencyRecovery.Apply(old(env.Now()), ctx, call), r, env.Now())
  {
    match call
    case Establish(admins, threshold) => r := InitRecovery(env, admins, threshold);
    case Ask(requester, token, dest, amount) => r := RequestRecovery(env, ctx, requester, token, dest, amount);
    case Endorse(admin) => r := ApproveRecovery(env, ctx, admin);
  }

  method CallFee(env: Env, ctx: Context, call: FeeCollection.Call) returns (r: Result<(), Error>)
    modifies env
    ensures Matches(FeeCollection.Apply(old(env.Now()), ctx, call), r, env.Now())
  {
    match call
    case SetUp(bps, recipient) => r := InitFee(env, bps, recipient);
    case ChangeRate(caller, bps) => r := SetFeeBps(env, ctx, caller, bps);
    case ChangeRecipient(caller, recipient) => r := SetFeeRecipient(env, ctx, caller, recipient);
    case Charge(token, gross) =>
      var _ :- DeductFee(env, token, gross);
      r := Ok(());
  }

  method CallProxy(env: Env, ctx: Context, call: UpgradeProxy.Call) returns (r: Result<(), Error>)
    modifies env
    ensures Matches(UpgradeProxy.Apply(env.sha, old(env.Now()), ctx, call), r, env.Now())
  {
    match call
    case Begin(admin) => r := InitProxy(env, ctx, admin);
    case Swap(wasm) => r := UpgradeByProxy(env, ctx, wasm);
    case Verify(c, payload) => r := VerifyIntegrity(env, c, payload);
  }

  method CallLife(env: Env, call: Lifecycle.Call) returns (r: Result<(), Error>)
    modifies env
    ensures Matches(Lifecycle.Apply(old(env.Now()), call), r, env.Now())
  {
    match call
    case Begin =>
      InitPhase(env);
      r := Ok(());
    case MoveTo(next) => r := TransitionTo(env, next);
  }

  method DispatchAdminSide(env: Env, tx: Protocol.Tx) returns (r: Result<(), Error>)
    requires Protocol.AdminSide(tx.call)
    modifies env
    ensures Matches(Protocol.Apply(env.sha, old(env.Now()), tx), r, env.Now())
  {
    match tx.call
    case Admin(call) => r := CallAdmin(env, tx.ctx, call);
    case Commitment(c, payload) => r := ValidateTransition(env, c, payload);
    case Breaker(call) => r := Switch(env, tx.ctx, call.guardian, call.Trip?);
    case Proxy(call) => r := CallProxy(env, tx.ctx, call);
  }

  predicate MovesTokens(call: Protocol.Call) {
    call.Recovery? || call.Fee? || call.Move?
  }

  method DispatchPayment(env: Env, tx: Protocol.Tx) returns (r: Result<(), Error>)
    requires MovesTokens(tx.call)
    modifies env
    ensures Matches(Protocol.Apply(env.sha, old(env.Now()), tx), r, env.Now())
  {
    match tx.call
    case Recovery(call) => r := CallRecovery(env, tx.ctx, call);
    case Fee(call) => r := CallFee(env, tx.ctx, call);
    case Move(token, from, to, moved) =>
      if from == Contract {
        r := Err(NotAuthorized);
      } else {
        r := env.Move(token, from, to, moved);
      }
  }

  method DispatchOther(env: Env, tx: Protocol.Tx) returns (r: Result<(), Error>)
    requires !Protocol.AdminSide(tx.call) && !MovesTokens(tx.call)
    modifies env
    ensures Matches(Protocol.Apply(env.sha, old(env.Now()), tx), r, env.Now())
  {
    match tx.call
    case Proof(call) =>
      r := RegisterProof(env, tx.ctx, call.caller, call.root, call.proofHash, call.blockSeq, call.metadata);
    case Gov(call) => r := CallGovernance(env, tx.ctx, call);
    case Life(call) => r := CallLife(env, call);
  }

  /** A transaction as the host runs it: its writes stay if it returns, and are undone if it panics. */
  method Invoke(env: Env, tx: Protocol.Tx) returns (r: Result<(), Error>)
    modifies env
    ensures env.Now() == Protocol.Commit(env.sha, old(env.Now()), tx)
    ensures r.Ok? <==> Protocol.Apply(env.sha, old(env.Now()), tx).Ok?
  {
    var snapshot := env.Now();
    if Protocol.AdminSide(tx.call) {
      r := DispatchAdminSide(env, tx);
    } else if MovesTokens(tx.call) {
      r := DispatchPayment(env, tx);
    } else {
      r := DispatchOther(env, tx);
    }
    if r.Err? {
      env.RollBack(snapshot);
    }
  }

  function TraceOf(txs: seq<Protocol.Tx>): Protocol.Trace {
    if txs == [] then Protocol.Genesis else Protocol.Then(TraceOf(txs[..|txs| - 1]), txs[|txs| - 1])
  }

  /** Transactions one after another: what is proved about traces holds of every state the entrypoints reach. */
  method Replay(env: Env, txs: seq<Protocol.Tx>)
    modifies env
    ensures env.Now() == Protocol.After(Protocol.Deployment(env.sha, old(env.Now())), TraceOf(txs))
  {
    for n := 0 to |txs|
      invariant env.Now() == Protocol.After(Protocol.Deployment(env.sha, old(env.Now())), TraceOf(txs[..n]))
    {
      assert txs[..n + 1][..n] == txs[..n];
      var _ := Invoke(env, txs[n]);
    }
    assert txs[..|txs|] == txs;
  }
}
