/**
 * What each call of the contract does, read off the stored values alone: the first reason for
 * which it is refused, in the order in which the code looks, or the state it leaves. The keys are
 * taken to hold values of their own types, as they do in every run (`Protocol.RunIsWellTyped`).
 */
module CallOutcomes {
  import opened Wrappers
  import opened ContractState
  import Audit
  import CircuitBreaker
  import ControlPlane
  import EmergencyRecovery
  import FeeCollection
  import Governance
  import Lifecycle
  import Protocol
  import UpgradeProxy
  import ZkHooks

  predicate IsOpen(st: Storage)
    requires CB_STATE in st ==> st[CB_STATE].BreakerVal?
  {
    CB_STATE in st && st[CB_STATE].open
  }

  lemma IsZero(h: Hash)
    ensures h == ZERO_HASH <==> forall i :: 0 <= i < 32 ==> h[i] == 0
  {
  }

  // ----- tokens -----

  /** A token moves when the amount is not negative and covered, from the one balance to the other. */
  lemma TransferExactly(s: State, token: Address, from: Address, to: Address, amount: int)
    ensures var r := TokenTransfer(s, token, from, to, amount);
            var held := if token in s.balances && from in s.balances[token] then s.balances[token][from] else 0;
            if 0 <= amount <= held then
              && r.Ok? && r.value.transfers == s.transfers + [Transfer(token, from, to, amount)]
              && r.value.(balances := s.balances, transfers := s.transfers) == s
            else r == Err(TransferTrapped)
  {
  }

  lemma TransferMoves(s: State, token: Address, from: Address, to: Address, amount: int, t: Address, who: Address)
    requires TokenTransfer(s, token, from, to, amount).Ok?
    ensures BalanceOf(TokenTransfer(s, token, from, to, amount).value, t, who)
            == BalanceOf(s, t, who) + (if t == token && who == to then amount else 0)
               - (if t == token && who == from then amount else 0)
  {
  }

  /** A transfer by another account than the contract. */
  lemma MoveExactly(sha: Digest, s: State, ctx: Context, token: Address, from: Address, to: Address, moved: int)
    ensures Protocol.Apply(sha, s, Protocol.Tx(ctx, Protocol.Move(token, from, to, moved)))
            == if from == Contract then Err(NotAuthorized) else TokenTransfer(s, token, from, to, moved)
  {
  }

  // ----- the breaker -----

  lemma TripExactly(s: State, ctx: Context, guardian: Address)
    requires CircuitBreaker.OwnTypes(s.instance)
    ensures var st, r := s.instance, CircuitBreaker.Apply(s, ctx, CircuitBreaker.Trip(guardian));
            if s.locked then r == Err(ReentrancyDetected)
            else if guardian !in ctx.auths then r == Err(NotAuthorized)
            else if CB_GUARD !in st || guardian !in st[CB_GUARD].addresses then r == Err(NotGuardian)
            else if IsOpen(st) then r == Err(AlreadyInState)
            else r == Ok(s.(instance := st[CB_STATE := BreakerVal(true)]))
  {
  }

  lemma ResetExactly(s: State, ctx: Context, guardian: Address)
    requires CircuitBreaker.OwnTypes(s.instance)
    ensures var st, r := s.instance, CircuitBreaker.Apply(s, ctx, CircuitBreaker.Reset(guardian));
            if s.locked then r == Err(ReentrancyDetected)
            else if guardian !in ctx.auths then r == Err(NotAuthorized)
            else if CB_GUARD !in st || guardian !in st[CB_GUARD].addresses then r == Err(NotGuardian)
            else if !IsOpen(st) then r == Err(AlreadyInState)
            else r == Ok(s.(instance := st[CB_STATE := BreakerVal(false)]))
  {
  }

  // ----- the control plane -----

  lemma StartExactly(sha: Digest, s: State, ctx: Context, admin: Address)
    ensures var st, r := s.instance, ControlPlane.Apply(sha, s, ctx, ControlPlane.Start(admin));
            if s.locked then r == Err(ReentrancyDetected)
            else if CP_INIT in st then r == Err(AlreadyInitialized)
            else if admin == Contract then r == Err(InvalidAdmin)
            else if admin !in ctx.auths then r == Err(NotAuthorized)
            else if VER_INIT in st then r == Err(VersionInitialized)
            else r == Ok(s.(instance := st + map[ADMIN := AddressVal(admin), CP_INIT := BoolVal(true),
                                                 P_COUNT := U64Val(0), VERSION := U32Val(1),
                                                 VER_INIT := BoolVal(true)]))
  {
    var st := s.instance;
    assert st + map[ADMIN := AddressVal(admin), CP_INIT := BoolVal(true), P_COUNT := U64Val(0), VERSION := U32Val(1),
                    VER_INIT := BoolVal(true)]
           == st[ADMIN := AddressVal(admin)][CP_INIT := BoolVal(true)][P_COUNT := U64Val(0)][VERSION := U32Val(1)]
                [VER_INIT := BoolVal(true)];
  }

  lemma EstablishBreakerExactly(sha: Digest, s: State, ctx: Context, caller: Address, guardians: seq<Address>)
    requires ControlPlane.AllTypes(s.instance)
    ensures var st, r := s.instance, ControlPlane.Apply(sha, s, ctx, ControlPlane.EstablishBreaker(caller, guardians));
            if s.locked then r == Err(ReentrancyDetected)
            else if caller !in ctx.auths then r == Err(NotAuthorized)
            else if ADMIN !in st then r == Err(NotInitialized)
            else if caller != st[ADMIN].address then r == Err(Unauthorized)
            else if CB_GUARD in st then r == Err(BreakerInitialized)
            else if guardians == [] || !NoRepeats(guardians) then r == Err(InvalidGuardianSet)
            else r == Ok(s.(instance := st[CB_STATE := BreakerVal(false)][CB_GUARD := AddressesVal(guardians)]))
  {
  }

  /** The bytes whose digest an update's commitment must carry. */
  ghost predicate Preimage(x: seq<Byte>, st: Storage, c: Audit.StateCommitment, payload: Hash)
    requires Audit.OwnTypes(st)
  {
    Audit.Spells(x, if PREV_H in st then st[PREV_H].hash else ZERO_HASH, c.sequence, payload)
  }

  /** Of the engine's keys these few are open to updates, and every foreign symbol. */
  predicate IsOpenKey(k: Symbol) {
    k.CP_INIT? || k.P_COUNT? || k.LASTPAR? || k.PROTO_ST? || k.Named?
  }

  lemma MayUpdateExactly(s: State, ctx: Context, caller: Address)
    requires ControlPlane.AllTypes(s.instance)
    ensures var st, r := s.instance, ControlPlane.MayUpdate(s, ctx, caller);
            if s.locked then r == Err(ReentrancyDetected)
            else if caller !in ctx.auths then r == Err(NotAuthorized)
            else if ADMIN !in st then r == Err(NotInitialized)
            else if caller != st[ADMIN].address then r == Err(Unauthorized)
            else if IsOpen(st) then r == Err(CircuitOpen)
            else r == Ok(())
  {
  }

  lemma CommittedExactly(sha: Digest, s: State, c: Audit.StateCommitment, digest: Hash, x: seq<Byte>)
    requires ControlPlane.AllTypes(s.instance) && Preimage(x, s.instance, c, digest)
    ensures var st, r := s.instance, Audit.ValidateTransitionInner(sha, s, c, digest);
            if IsOpen(st) then r == Err(CircuitOpen)
            else if c.sequence <= (if SEQ in st then st[SEQ].u64 else 0) then r == Err(ReplayedSequence)
            else if c.stateHash != sha(x) then r == Err(HashMismatch)
            else r == Ok(s.(instance := st[SEQ := U64Val(c.sequence)][PREV_H := HashVal(c.stateHash)]))
  {
    Audit.AcceptedExactly(sha, s, c, digest, x);
  }

  lemma SetExactly(sha: Digest, s: State, ctx: Context, caller: Address, k: Symbol, v: U64, c: Audit.StateCommitment,
                   digest: Hash, x: seq<Byte>)
    requires ControlPlane.AllTypes(s.instance) && Preimage(x, s.instance, c, digest)
    ensures var st, r := s.instance, ControlPlane.Apply(sha, s, ctx, ControlPlane.Set(caller, k, v, c, digest));
            var written := st[SEQ := U64Val(c.sequence)][PREV_H := HashVal(c.stateHash)]
                             [k := U64Val(v)][LASTPAR := SymbolVal(k)];
            if s.locked then r == Err(ReentrancyDetected)
            else if caller !in ctx.auths then r == Err(NotAuthorized)
            else if ADMIN !in st then r == Err(NotInitialized)
            else if caller != st[ADMIN].address then r == Err(Unauthorized)
            else if IsOpen(st) then r == Err(CircuitOpen)
            else if !IsOpenKey(k) then r == Err(ReservedKey)
            else if c.sequence <= (if SEQ in st then st[SEQ].u64 else 0) then r == Err(ReplayedSequence)
            else if c.stateHash != sha(x) then r == Err(HashMismatch)
            else if P_COUNT !in written then r == Ok(s.(instance := written[P_COUNT := U64Val(1)]))
            else if written[P_COUNT].u64 == 0xFFFF_FFFF_FFFF_FFFF then r == Err(ArithmeticOverflow)
            else r == Ok(s.(instance := written[P_COUNT := U64Val(written[P_COUNT].u64 + 1)]))
  {
    ControlPlane.ReservedExactly(k);
    CommittedExactly(sha, s, c, digest, x);
    MayUpdateExactly(s, ctx, caller);
  }

  lemma SetManyRefused(sha: Digest, s: State, ctx: Context, caller: Address, params: seq<(Symbol, U64)>,
                       c: Audit.StateCommitment, digest: Hash, x: seq<Byte>)
    requires ControlPlane.AllTypes(s.instance) && Preimage(x, s.instance, c, digest)
    ensures var st, r := s.instance, ControlPlane.Apply(sha, s, ctx, ControlPlane.SetMany(caller, params, c, digest));
            if s.locked then r == Err(ReentrancyDetected)
            else if caller !in ctx.auths then r == Err(NotAuthorized)
            else if ADMIN !in st then r == Err(NotInitialized)
            else if caller != st[ADMIN].address then r == Err(Unauthorized)
            else if IsOpen(st) then r == Err(CircuitOpen)
            else if c.sequence <= (if SEQ in st then st[SEQ].u64 else 0) then r == Err(ReplayedSequence)
            else if c.stateHash != sha(x) then r == Err(HashMismatch)
            else if exists i :: 0 <= i < |params| && !IsOpenKey(params[i].0) then r == Err(ReservedKey)
            else r.Ok? || r == Err(ArithmeticOverflow)
  {
    CommittedExactly(sha, s, c, digest, x);
    MayUpdateExactly(s, ctx, caller);
    forall i | 0 <= i < |params| ensures ControlPlane.IsReservedKey(params[i].0) <==> !IsOpenKey(params[i].0) {
      ControlPlane.ReservedExactly(params[i].0);
    }
    if ControlPlane.Apply(sha, s, ctx, ControlPlane.SetMany(caller, params, c, digest)).Err? {
      ControlPlane.SetManyKeepsTypes(sha, s, ctx, ControlPlane.SetMany(caller, params, c, digest));
    }
  }

  /** What a batch would count from: the counter, or the last number it writes over it. */
  function CountFrom(st: Storage, params: seq<(Symbol, U64)>): U64
    requires P_COUNT in st ==> st[P_COUNT].U64Val?
  {
    var last := ControlPlane.LastFor(params, P_COUNT);
    if last.Some? then last.value else if P_COUNT in st then st[P_COUNT].u64 else 0
  }

  lemma BatchCounts(st: Storage, params: seq<(Symbol, U64)>)
    requires P_COUNT in st ==> st[P_COUNT].U64Val?
    ensures var count, r := CountFrom(st, params), ControlPlane.IncrementParamCount(ControlPlane.WriteAll(st, params));
            if count == 0xFFFF_FFFF_FFFF_FFFF then r == Err(ArithmeticOverflow)
            else r.Ok? && P_COUNT in r.value && r.value[P_COUNT] == U64Val(count + 1)
  {
    ControlPlane.WriteAllIsLast(st, params, P_COUNT);
  }

  /** What a batch writes besides the count is in `ControlPlane.BatchOutcome` and `UpdatesExtendChain`. */
  lemma SetManyCounts(sha: Digest, s: State, ctx: Context, call: ControlPlane.Call)
    requires call.SetMany? && ControlPlane.AllTypes(s.instance)
    ensures var count, r := CountFrom(s.instance, call.params), ControlPlane.Apply(sha, s, ctx, call);
            && (r.Ok? ==> count < 0xFFFF_FFFF_FFFF_FFFF && P_COUNT in r.value.instance
                          && r.value.instance[P_COUNT] == U64Val(count + 1))
            && (r == Err(ArithmeticOverflow) ==> count == 0xFFFF_FFFF_FFFF_FFFF)
  {
    var r := ControlPlane.Apply(sha, s, ctx, call);
    if r.Ok? || r == Err(ArithmeticOverflow) {
      BatchIsCounted(sha, s, ctx, call);
      var st := Audit.ValidateTransitionInner(sha, s, call.commitment, call.digest).value.instance;
      BatchCounts(st, call.params);
    }
  }

  lemma BatchIsCounted(sha: Digest, s: State, ctx: Context, call: ControlPlane.Call)
    requires call.SetMany?
    ensures var r := ControlPlane.Apply(sha, s, ctx, call);
            var committed := Audit.ValidateTransitionInner(sha, s, call.commitment, call.digest);
            r.Ok? || r == Err(ArithmeticOverflow) ==>
              && committed.Ok? && SameAt(s.instance, committed.value.instance, P_COUNT)
              && var counted := ControlPlane.IncrementParamCount(
                                  ControlPlane.WriteAll(committed.value.instance, call.params));
                 if r.Ok? then counted == Ok(r.value.instance) else counted == Err(r.error)
  {
  }

  // ----- governance -----

  lemma EstablishGovernanceExactly(s: State, ctx: Context, signers: seq<Address>, threshold: U32,
                                   stakeToken: Option<Address>, minStake: I128)
    ensures var st, r := s.instance,
                         Governance.Apply(s, ctx, Governance.Establish(signers, threshold, stakeToken, minStake));
            if s.locked then r == Err(ReentrancyDetected)
            else if SIGNERS in st then r == Err(GovernanceInitialized)
            else if threshold == 0 || threshold > |signers| || threshold > 100 then r == Err(InvalidThreshold)
            else if minStake < 0 || (minStake > 0 && stakeToken.None?) then r == Err(InvalidStake)
            else if exists i, j :: 0 <= i < j < |signers| && signers[i] == signers[j] then r == Err(DuplicateSigner)
            else
              && r.Ok? && r.value.(instance := st) == s
              && SIGNERS in r.value.instance && r.value.instance[SIGNERS] == AddressesVal(signers)
              && THRESH in r.value.instance && r.value.instance[THRESH] == U32Val(threshold)
              && MINSTAKE in r.value.instance && r.value.instance[MINSTAKE] == I128Val(minStake)
              && PROPS in r.value.instance && r.value.instance[PROPS] == ProposalsVal(map[])
              && (if stakeToken.Some? then STKTOK in r.value.instance
                                           && r.value.instance[STKTOK] == AddressVal(stakeToken.value)
                  else SameAt(st, r.value.instance, STKTOK))
  {
  }

  lemma SubmitExactly(s: State, ctx: Context, p: Proposal)
    requires Governance.OwnTypes(s.instance) && CircuitBreaker.OwnTypes(s.instance)
    ensures var st, r := s.instance, Governance.Apply(s, ctx, Governance.Submit(p));
            var proposals := if PROPS in st then st[PROPS].proposals else map[];
            if s.locked then r == Err(ReentrancyDetected)
            else if IsOpen(st) then r == Err(CircuitOpen)
            else if SIGNERS !in st || p.proposer !in st[SIGNERS].addresses then r == Err(NotASigner)
            else if p.proposer !in ctx.auths then r == Err(NotAuthorized)
            else if p.id in proposals then r == Err(DuplicateProposal)
            else if ctx.ledger + 720 > U32_MAX then r == Err(ArithmeticOverflow)
            else
              var filed := Filed(Proposal(p.id, p.actionHash, p.proposer, [], Pending), ctx.ledger + 720);
              r == Ok(s.(instance := st[PROPS := ProposalsVal(proposals[p.id := filed])]))
  {
  }

  /** What an approval leaves of a proposal: at the threshold it is approved and its timelock starts. */
  function Endorsed(f: Filed, signer: Address, threshold: U32, ledger: U32): Filed
    requires |f.proposal.approvedBy| + 1 < threshold || ledger + 720 <= U32_MAX
  {
    var p := f.proposal;
    if |p.approvedBy| + 1 < threshold then
      Filed(Proposal(p.id, p.actionHash, p.proposer, p.approvedBy + [signer], p.state), f.unlock)
    else
      Filed(Proposal(p.id, p.actionHash, p.proposer, p.approvedBy + [signer], Approved), ledger + 720)
  }

  lemma ApprovableExactly(st: Storage, p: Proposal, signer: Address)
    requires Governance.OwnTypes(st) && SIGNERS in st && signer in st[SIGNERS].addresses
    ensures var signers, approvers := st[SIGNERS].addresses, p.approvedBy;
            Governance.Approvable(st, p, signer)
            == if p.state != Pending then Err(InvalidStateTransition)
               else if signer in approvers then Err(AlreadyApproved)
               else if approvers == [] then Ok(())
               else if approvers[|approvers| - 1] !in signers then Err(NotASigner)
               else if Governance.IndexIn(signers, signer)
                       <= Governance.IndexIn(signers, approvers[|approvers| - 1]) then Err(InvalidSignerOrder)
               else Ok(())
  {
  }

  lemma EndorsedAtThreshold(f: Filed, signer: Address, threshold: U32, ledger: U32)
    ensures Governance.WithApproval(f, signer, threshold, ledger)
            == if |f.proposal.approvedBy| + 1 >= threshold && ledger + 720 > U32_MAX then Err(ArithmeticOverflow)
               else Ok(Endorsed(f, signer, threshold, ledger))
  {
  }

  /** An approval; `ApprovableExactly` says when a proposal takes one. */
  lemma EndorseExactly(s: State, ctx: Context, signer: Address, id: U64)
    requires Governance.OwnTypes(s.instance) && CircuitBreaker.OwnTypes(s.instance)
    ensures var st, r := s.instance, Governance.Apply(s, ctx, Governance.Endorse(signer, id));
            var signers := if SIGNERS in st then st[SIGNERS].addresses else [];
            var proposals := if PROPS in st then st[PROPS].proposals else map[];
            var threshold := if THRESH in st then st[THRESH].u32 else 0;
            if IsOpen(st) then r == Err(CircuitOpen)
            else if s.locked then r == Err(ReentrancyDetected)
            else if signer !in ctx.auths then r == Err(NotAuthorized)
            else if signer !in signers then r == Err(NotASigner)
            else if !Governance.HoldsStake(s, signer) then r == Err(InvalidStake)
            else if id !in proposals then r == Err(ProposalNotFound)
            else
              var approvers := proposals[id].proposal.approvedBy;
              if Governance.Approvable(st, proposals[id].proposal, signer).Err?
              then r == Err(Governance.Approvable(st, proposals[id].proposal, signer).error)
              else if threshold == 0 then r == Err(InvalidThreshold)
              else if |approvers| + 1 >= threshold && ctx.ledger + 720 > U32_MAX then r == Err(ArithmeticOverflow)
              else
                var endorsed := Endorsed(proposals[id], signer, threshold, ctx.ledger);
                r == Ok(s.(instance := st[PROPS := ProposalsVal(proposals[id := endorsed])]))
  {
    Governance.StakeExactly(s, signer);
    var st := s.instance;
    if PROPS in st && id in st[PROPS].proposals {
      EndorsedAtThreshold(st[PROPS].proposals[id], signer, if THRESH in st then st[THRESH].u32 else 0, ctx.ledger);
    }
  }

  lemma PerformExactly(s: State, ctx: Context, id: U64)
    requires Governance.OwnTypes(s.instance) && CircuitBreaker.OwnTypes(s.instance)
    ensures var st, r := s.instance, Governance.Apply(s, ctx, Governance.Perform(id));
            var proposals := if PROPS in st then st[PROPS].proposals else map[];
            if IsOpen(st) then r == Err(CircuitOpen)
            else if s.locked then r == Err(ReentrancyDetected)
            else if id !in proposals then r == Err(ProposalNotFound)
            else
              var p, unlock := proposals[id].proposal, proposals[id].unlock;
              if p.state != Approved then r == Err(InvalidStateTransition)
              else if |p.approvedBy| < (if THRESH in st then st[THRESH].u32 else 0) then r == Err(ThresholdNotMet)
              else if ctx.ledger < unlock then r == Err(TimelockActive)
              else
                var executed := Filed(Proposal(p.id, p.actionHash, p.proposer, p.approvedBy, Executed), unlock);
                r == Ok(s.(instance := st[PROPS := ProposalsVal(proposals[id := executed])]))
  {
  }

  /** An installation executes the proposal too, so it is refused for whatever an execution is. */
  lemma InstallExactly(s: State, ctx: Context, id: U64, wasm: Hash)
    requires Governance.OwnTypes(s.instance) && CircuitBreaker.OwnTypes(s.instance)
    ensures var st, r := s.instance, Governance.Apply(s, ctx, Governance.Install(id, wasm));
            var proposals := if PROPS in st then st[PROPS].proposals else map[];
            if IsOpen(st) then r == Err(CircuitOpen)
            else if forall i :: 0 <= i < 32 ==> wasm[i] == 0 then r == Err(InvalidWasmHash)
            else if id !in proposals then r == Err(ProposalNotFound)
            else if proposals[id].proposal.state != Approved then r == Err(ProposalNotApproved)
            else if proposals[id].proposal.actionHash != wasm then r == Err(InvalidWasmHash)
            else match Governance.Apply(s, ctx, Governance.Perform(id))
                 case Ok(executed) => r == Ok(executed.(wasm := wasm))
                 case Err(e) => r == Err(e)
  {
    IsZero(wasm);
  }

  // ----- emergency recovery -----

  lemma EstablishRecoveryExactly(s: State, ctx: Context, admins: seq<Address>, threshold: U32)
    ensures var st, r := s.instance, EmergencyRecovery.Apply(s, ctx, EmergencyRecovery.Establish(admins, threshold));
            if ER_ADMINS in st then r == Err(RecoveryInitialized)
            else if threshold == 0 || threshold > |admins| then r == Err(InvalidThreshold)
            else if exists i, j :: 0 <= i < j < |admins| && admins[i] == admins[j] then r == Err(DuplicateAdmin)
            else if Zero in admins then r == Err(InvalidAddress)
            else r == Ok(s.(instance := st[ER_ADMINS := AddressesVal(admins)][ER_THRESH := U32Val(threshold)]
                                          [ER_APPRVS := AddressesVal([])] - {ER_DEST, ER_TOKEN, ER_AMOUNT}))
  {
  }

  /** The contract pays the pending request, as a transfer by the token, and nothing is pending any more. */
  ghost predicate PaysOut(s: State, token: Address, dest: Address, amount: int, r: Result<State, Error>) {
    var paid := TokenTransfer(s, token, Contract, dest, amount);
    if paid.Err? then r == Err(TransferTrapped)
    else if amount <= 0 || amount > 0xFFFF_FFFF_FFFF_FFFF then r == Err(InvalidAmount)
    else r == Ok(paid.value.(instance := s.instance[ER_APPRVS := AddressesVal([])] - {ER_DEST, ER_TOKEN, ER_AMOUNT}))
  }

  /** What a request and an approval are refused for first. */
  ghost predicate RefusedToAct(s: State, ctx: Context, who: Address, r: Result<State, Error>)
    requires EmergencyRecovery.OwnTypes(s.instance) && CircuitBreaker.OwnTypes(s.instance)
  {
    var st := s.instance;
    if s.locked then r == Err(ReentrancyDetected)
    else if IsOpen(st) then r == Err(CircuitOpen)
    else if who !in ctx.auths then r == Err(NotAuthorized)
    else (ER_ADMINS !in st || who !in st[ER_ADMINS].addresses) && r == Err(NotAdmin)
  }

  lemma MayActExactly(s: State, ctx: Context, who: Address)
    requires EmergencyRecovery.OwnTypes(s.instance) && CircuitBreaker.OwnTypes(s.instance)
    ensures var st, r := s.instance, EmergencyRecovery.MayAct(s, ctx, who);
            if s.locked then r == Err(ReentrancyDetected)
            else if IsOpen(st) then r == Err(CircuitOpen)
            else if who !in ctx.auths then r == Err(NotAuthorized)
            else if ER_ADMINS !in st || who !in st[ER_ADMINS].addresses then r == Err(NotAdmin)
            else r == Ok(())
  {
  }

  lemma TallyExactly(s: State, approvals: seq<Address>, dest: Address)
    requires EmergencyRecovery.OwnTypes(s.instance) && CircuitBreaker.OwnTypes(s.instance) && !IsOpen(s.instance)
    ensures var st, r := s.instance, EmergencyRecovery.Tally(s, approvals, dest);
            if |approvals| < (if ER_THRESH in st then st[ER_THRESH].u32 else 1) then r == Ok(s)
            else if ER_TOKEN !in st || ER_AMOUNT !in st then r == Err(NoPendingRequest)
            else PaysOut(s, st[ER_TOKEN].address, dest, st[ER_AMOUNT].i128, r)
  {
  }

  lemma FiledExactly(st: Storage, requester: Address, token: Address, dest: Address, amount: I128)
    ensures EmergencyRecovery.Filed(st, requester, token, dest, amount)
            == st[ER_TOKEN := AddressVal(token)][ER_DEST := AddressVal(dest)][ER_AMOUNT := I128Val(amount)]
                 [ER_APPRVS := AddressesVal([requester])]
  {
  }

  lemma AskRefused(s: State, ctx: Context, requester: Address, token: Address, dest: Address, amount: I128)
    requires EmergencyRecovery.OwnTypes(s.instance) && CircuitBreaker.OwnTypes(s.instance)
    requires s.locked || IsOpen(s.instance) || requester !in ctx.auths || ER_ADMINS !in s.instance
             || requester !in s.instance[ER_ADMINS].addresses
    ensures RefusedToAct(s, ctx, requester,
                         EmergencyRecovery.Apply(s, ctx, EmergencyRecovery.Ask(requester, token, dest, amount)))
  {
    MayActExactly(s, ctx, requester);
  }

  /** A request by an admin who may act; `filed` is the storage with the request in it. */
  lemma AskExactly(s: State, ctx: Context, requester: Address, token: Address, dest: Address, amount: I128,
                   filed: Storage)
    requires EmergencyRecovery.OwnTypes(s.instance) && CircuitBreaker.OwnTypes(s.instance)
    requires !s.locked && !IsOpen(s.instance) && requester in ctx.auths && ER_ADMINS in s.instance
             && requester in s.instance[ER_ADMINS].addresses
    requires filed == s.instance[ER_TOKEN := AddressVal(token)][ER_DEST := AddressVal(dest)]
                                [ER_AMOUNT := I128Val(amount)][ER_APPRVS := AddressesVal([requester])]
    ensures var st, r := s.instance,
                         EmergencyRecovery.Apply(s, ctx, EmergencyRecovery.Ask(requester, token, dest, amount));
            if token == Zero || dest == Zero then r == Err(InvalidAddress)
            else if amount <= 0 || amount > 0xFFFF_FFFF_FFFF_FFFF then r == Err(InvalidAmount)
            else if ER_THRESH in st && 1 < st[ER_THRESH].u32 then r == Ok(s.(instance := filed))
            else PaysOut(s.(instance := filed), token, dest, amount, r)
  {
    MayActExactly(s, ctx, requester);
    FiledExactly(s.instance, requester, token, dest, amount);
    TallyExactly(s.(instance := filed), [requester], dest);
  }

  lemma EndorseRecoveryExactly(s: State, ctx: Context, admin: Address)
    requires EmergencyRecovery.OwnTypes(s.instance) && CircuitBreaker.OwnTypes(s.instance)
    ensures var st, r := s.instance, EmergencyRecovery.Apply(s, ctx, EmergencyRecovery.Endorse(admin));
            var approvals := if ER_APPRVS in st then st[ER_APPRVS].addresses else [];
            var recorded := s.(instance := st[ER_APPRVS := AddressesVal(approvals + [admin])]);
            if s.locked || IsOpen(st) || admin !in ctx.auths || ER_ADMINS !in st || admin !in st[ER_ADMINS].addresses
            then RefusedToAct(s, ctx, admin, r)
            else if ER_DEST !in st then r == Err(NoPendingRequest)
            else if admin in approvals then r == Err(AlreadyApproved)
            else if |approvals| + 1 < (if ER_THRESH in st then st[ER_THRESH].u32 else 1) then r == Ok(recorded)
            else if ER_TOKEN !in st || ER_AMOUNT !in st then r == Err(NoPendingRequest)
            else PaysOut(recorded, st[ER_TOKEN].address, st[ER_DEST].address, st[ER_AMOUNT].i128, r)
  {
    MayActExactly(s, ctx, admin);
    var st := s.instance;
    var approvals := if ER_APPRVS in st then st[ER_APPRVS].addresses else [];
    var recorded := s.(instance := st[ER_APPRVS := AddressesVal(approvals + [admin])]);
    if ER_DEST in st && !IsOpen(st) {
      TallyExactly(recorded, approvals + [admin], st[ER_DEST].address);
    }
  }

  // ----- the protocol fee -----

  lemma SetUpFeeExactly(s: State, ctx: Context, bps: U32, recipient: Address)
    ensures var st, r := s.instance, FeeCollection.Apply(s, ctx, FeeCollection.SetUp(bps, recipient));
            if bps > 10_000 then r == Err(InvalidBasisPoints)
            else if recipient == Zero then r == Err(InvalidRecipient)
            else r == Ok(s.(instance := st[FEE_BPS := U32Val(bps)][FEE_RCP := AddressVal(recipient)]))
  {
  }

  lemma ChangeRateExactly(s: State, ctx: Context, caller: Address, bps: U32)
    requires ControlPlane.AllTypes(s.instance)
    ensures var st, r := s.instance, FeeCollection.Apply(s, ctx, FeeCollection.ChangeRate(caller, bps));
            if caller !in ctx.auths then r == Err(NotAuthorized)
            else if ADMIN !in st then r == Err(NotInitialized)
            else if caller != st[ADMIN].address then r == Err(Unauthorized)
            else if bps > 10_000 then r == Err(InvalidBasisPoints)
            else r == Ok(s.(instance := st[FEE_BPS := U32Val(bps)]))
  {
  }

  lemma ChangeRecipientExactly(s: State, ctx: Context, caller: Address, recipient: Address)
    requires ControlPlane.AllTypes(s.instance)
    ensures var st, r := s.instance, FeeCollection.Apply(s, ctx, FeeCollection.ChangeRecipient(caller, recipient));
            if caller !in ctx.auths then r == Err(NotAuthorized)
            else if ADMIN !in st then r == Err(NotInitialized)
            else if caller != st[ADMIN].address then r == Err(Unauthorized)
            else if recipient == Zero then r == Err(InvalidRecipient)
            else r == Ok(s.(instance := st[FEE_RCP := AddressVal(recipient)]))
  {
  }

  /** Charging pays the stored rate of the amount, rounded down, to the stored recipient; the rest is the caller's. */
  lemma ChargeExactly(s: State, ctx: Context, token: Address, gross: I128)
    requires FeeCollection.OwnTypes(s.instance) && CircuitBreaker.OwnTypes(s.instance)
    ensures var st, r := s.instance, FeeCollection.DeductFee(s, token, gross);
            var bps := if FEE_BPS in st then st[FEE_BPS].u32 else 0;
            if s.locked then r == Err(ReentrancyDetected)
            else if IsOpen(st) then r == Err(CircuitOpen)
            else if gross < 0 then r == Err(InvalidAmount)
            else if gross * bps > I128_MAX then r == Err(FeeCalculationOverflow)
            else if gross * bps < 10_000 then r == Ok((s, gross))
            else if FEE_RCP !in st then r == Err(InvalidRecipient)
            else
              var fee := gross * bps / 10_000;
              var paid := TokenTransfer(s, token, Contract, st[FEE_RCP].address, fee);
              if paid.Err? then r == Err(TransferTrapped)
              else if fee > 0xFFFF_FFFF_FFFF_FFFF then r == Err(FeeCalculationOverflow)
              else r == Ok((paid.value, gross - fee))
    ensures var r := FeeCollection.DeductFee(s, token, gross);
            FeeCollection.Apply(s, ctx, FeeCollection.Charge(token, gross))
            == if r.Ok? then Ok(r.value.0) else Err(r.error)
  {
  }

  // ----- proxy, proofs, phases -----

  lemma ProxyExactly(sha: Digest, s: State, ctx: Context, call: UpgradeProxy.Call)
    requires UpgradeProxy.AdminTyped(s.instance)
    ensures var st, r := s.instance, UpgradeProxy.Apply(sha, s, ctx, call);
            if s.locked then r == Err(ReentrancyDetected)
            else match call
                 case Begin(admin) =>
                   if ADMIN in st then r == Err(ProxyInitialized)
                   else if admin !in ctx.auths then r == Err(NotAuthorized)
                   else r.Ok?
                 case Swap(wasm) =>
                   if ADMIN !in st then r == Err(ProxyNotInitialized)
                   else if st[ADMIN].address !in ctx.auths then r == Err(NotAuthorized)
                   else if forall i :: 0 <= i < 32 ==> wasm[i] == 0 then r == Err(InvalidWasmHash)
                   else r == Ok(s.(wasm := wasm))
                 case Verify(_, _) => r == Err(ReentrancyDetected)
  {
    if call.Swap? {
      IsZero(call.wasm);
    }
  }

  lemma RegisterExactly(s: State, ctx: Context, call: ZkHooks.Call)
    requires ZkHooks.OwnTypes(s.instance) && ControlPlane.AllTypes(s.instance)
    ensures var st, r := s.instance, ZkHooks.Apply(s, ctx, call);
            if s.locked then r == Err(ReentrancyDetected)
            else if call.caller !in ctx.auths then r == Err(NotAuthorized)
            else if ADMIN !in st then r == Err(NotInitialized)
            else if call.caller != st[ADMIN].address then r == Err(Unauthorized)
            else if SEQ !in st || st[SEQ].u64 == 0
                    || call.root != (if PREV_H in st then st[PREV_H].hash else ZERO_HASH)
                 then r == Err(StateRootMismatch)
            else if forall i :: 0 <= i < 32 ==> call.proofHash[i] == 0 then r == Err(InvalidProofHash)
            else if |call.metadata| > 16 || exists k :: k in call.metadata && |call.metadata[k]| > 256
                 then r == Err(MetadataTooLarge)
            else
              var count := if ZK_COUNT in st then st[ZK_COUNT].u64 else 0;
              var attestation := Attestation(call.root, call.proofHash, call.blockSeq, ctx.ledger, call.metadata);
              if count == 0xFFFF_FFFF_FFFF_FFFF then r == Err(ArithmeticOverflow)
              else r == Ok(s.(instance := st[ZK_COUNT := U64Val(count + 1)],
                              proofs := s.proofs[call.root := call.proofHash],
                              attestations := s.attestations[call.root := attestation]))
  {
    IsZero(call.proofHash);
  }

  /** A phase is stored as its number; a number that is no phase reads as the first. */
  lemma PhasesExactly(s: State, next: Lifecycle.Phase)
    requires PROTO_ST in s.instance ==> s.instance[PROTO_ST].U32Val?
    ensures var st := s.instance;
            var from := if PROTO_ST in st && st[PROTO_ST].u32 <= 3 then st[PROTO_ST].u32 else 0;
            var to := match next { case Pending => 0 case Active => 1 case Settled => 2 case Closed => 3 };
            && Lifecycle.Apply(s, Lifecycle.Begin) == Ok(s.(instance := st[PROTO_ST := U32Val(0)]))
            && Lifecycle.Apply(s, Lifecycle.MoveTo(next))
               == if from == to then Err(PhaseUnchanged)
                  else if to < from || (from, to) == (0, 2) then Err(InvalidTransition)
                  else Ok(s.(instance := st[PROTO_ST := U32Val(to)]))
  {
  }
}
