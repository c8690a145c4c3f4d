/**
 * Multi-signature proposals with a timelock, and the upgrades they approve (engine-core/src/governance.rs,
 * upgrade.rs).
 */
module Governance {
  import opened Wrappers
  import opened ContractState
  import CircuitBreaker

  const TIMELOCK_LEDGERS: U32 := 720
  const MAX_THRESHOLD: U32 := 100

  function Init(s: State, signers: seq<Address>, threshold: U32, stakeToken: Option<Address>, minStake: I128)
    : Result<State, Error>
  {
    var _ :- EnterGuard(s);
    var _ :- Need(SIGNERS !in s.instance, GovernanceInitialized);
    var _ :- Need(0 < threshold <= |signers| && threshold <= MAX_THRESHOLD, InvalidThreshold);
    var _ :- Need(minStake >= 0 && (minStake > 0 ==> stakeToken.Some?), InvalidStake);
    var _ :- Need(NoRepeats(signers), DuplicateSigner);
    var base := s.instance[SIGNERS := AddressesVal(signers)][THRESH := U32Val(threshold)][MINSTAKE := I128Val(minStake)];
    var staked := if stakeToken.Some? then base[STKTOK := AddressVal(stakeToken.value)] else base;
    Ok(s.(instance := staked[PROPS := ProposalsVal(map[])]))
  }

  function RequireSigner(st: Storage, who: Address): Result<(), Error> {
    var signers :- ReadAddresses(st, SIGNERS);
    Need(who in signers, NotASigner)
  }

  /** Where an address first occurs; the length of the list if it does not. */
  function IndexIn(signers: seq<Address>, who: Address): (i: nat)
    ensures i <= |signers|
    ensures i < |signers| ==> signers[i] == who
    ensures who in signers ==> i < |signers|
    ensures forall j :: 0 <= j < i ==> signers[j] != who
  {
    if signers == [] then 0
    else if signers[0] == who then 0
    else 1 + IndexIn(signers[1..], who)
  }

  function RequireStake(s: State, who: Address): Result<(), Error> {
    var minStake :- ReadI128(s.instance, MINSTAKE, 0);
    if minStake == 0 then
      Ok(())
    else
      var token :- ReadAddress(s.instance, STKTOK, InvalidStake);
      Need(BalanceOf(s, token, who) >= minStake, InvalidStake)
  }

  function Propose(s: State, ctx: Context, p: Proposal): Result<State, Error> {
    var _ :- EnterGuard(s);
    var _ :- AssertClosed(s.instance);
    var _ :- RequireSigner(s.instance, p.proposer);
    var _ :- RequireAuth(ctx, p.proposer);
    var proposals :- ReadProposals(s.instance);
    var _ :- Need(p.id !in proposals, DuplicateProposal);
    var _ :- Need(ctx.ledger + TIMELOCK_LEDGERS <= U32_MAX, ArithmeticOverflow);
    var filed := Filed(p.(state := Pending, approvedBy := []), ctx.ledger + TIMELOCK_LEDGERS);
    Ok(s.(instance := s.instance[PROPS := ProposalsVal(proposals[p.id := filed])]))
  }

  function SignerIndex(st: Storage, who: Address): Result<nat, Error> {
    var signers :- ReadAddresses(st, SIGNERS);
    if who in signers then Ok(IndexIn(signers, who)) else Err(NotASigner)
  }

  /** The approval order: by signer index, strictly increasing. */
  function RequireOrder(st: Storage, approvedBy: seq<Address>, who: Address): Result<(), Error> {
    if approvedBy == [] then Ok(())
    else
      var last :- SignerIndex(st, approvedBy[|approvedBy| - 1]);
      var current :- SignerIndex(st, who);
      Need(last < current, InvalidSignerOrder)
  }

  /** A pending proposal with one more approval, approved and time-locked once the threshold is met. */
  function WithApproval(f: Filed, who: Address, threshold: U32, ledger: U32): Result<Filed, Error> {
    var p := f.proposal.(approvedBy := f.proposal.approvedBy + [who]);
    if |p.approvedBy| < threshold then
      Ok(f.(proposal := p))
    else
      var _ :- Need(ledger + TIMELOCK_LEDGERS <= U32_MAX, ArithmeticOverflow);
      Ok(Filed(p.(state := Approved), ledger + TIMELOCK_LEDGERS))
  }

  /** The breaker is closed, and this is a signer with a stake who signed. */
  function MayApprove(s: State, ctx: Context, signer: Address): Result<(), Error> {
    var _ :- AssertClosed(s.instance);
    var _ :- EnterGuard(s);
    var _ :- RequireAuth(ctx, signer);
    var _ :- RequireSigner(s.instance, signer);
    RequireStake(s, signer)
  }

  /** Still pending, and the signer comes after everyone who approved. */
  function Approvable(st: Storage, p: Proposal, signer: Address): Result<(), Error> {
    var _ :- Need(p.state.Pending?, InvalidStateTransition);
    var _ :- Need(signer !in p.approvedBy, AlreadyApproved);
    RequireOrder(st, p.approvedBy, signer)
  }

  function Approve(s: State, ctx: Context, signer: Address, id: U64): Result<State, Error> {
    var _ :- MayApprove(s, ctx, signer);
    var proposals :- ReadProposals(s.instance);
    var _ :- Need(id in proposals, ProposalNotFound);
    var f := proposals[id];
    var _ :- Approvable(s.instance, f.proposal, signer);
    var threshold :- ReadU32(s.instance, THRESH, 0);
    var _ :- Need(threshold != 0, InvalidThreshold);
    var approved :- WithApproval(f, signer, threshold, ctx.ledger);
    Ok(s.(instance := s.instance[PROPS := ProposalsVal(proposals[id := approved])]))
  }

  function Execute(s: State, ctx: Context, id: U64): Result<State, Error> {
    var _ :- AssertClosed(s.instance);
    var _ :- EnterGuard(s);
    var proposals :- ReadProposals(s.instance);
    var _ :- Need(id in proposals, ProposalNotFound);
    var f := proposals[id];
    var _ :- Need(f.proposal.state.Approved?, InvalidStateTransition);
    var threshold :- ReadU32(s.instance, THRESH, 0);
    var _ :- Need(|f.proposal.approvedBy| >= threshold, ThresholdNotMet);
    var _ :- Need(ctx.ledger >= f.unlock, TimelockActive);
    var executed := f.(proposal := f.proposal.(state := Executed));
    Ok(s.(instance := s.instance[PROPS := ProposalsVal(proposals[id := executed])]))
  }

  /** `upgrade::upgrade`: executes the proposal and installs the code whose hash it approved. */
  function Upgrade(s: State, ctx: Context, id: U64, wasm: Hash): Result<State, Error> {
    var _ :- AssertClosed(s.instance);
    var _ :- Need(wasm != ZERO_HASH, InvalidWasmHash);
    var proposals :- ReadProposals(s.instance);
    var _ :- Need(id in proposals, ProposalNotFound);
    var _ :- Need(proposals[id].proposal.state.Approved?, ProposalNotApproved);
    var _ :- Need(proposals[id].proposal.actionHash == wasm, InvalidWasmHash);
    var executed :- Execute(s, ctx, id);
    Ok(executed.(wasm := wasm))
  }

  datatype Call =
    | Establish(signers: seq<Address>, threshold: U32, stakeToken: Option<Address>, minStake: I128)
    | Submit(proposal: Proposal)
    | Endorse(signer: Address, id: U64)
    | Perform(id: U64)
    | Install(id: U64, wasm: Hash)

  function Apply(s: State, ctx: Context, call: Call): Result<State, Error> {
    match call
    case Establish(signers, threshold, token, minStake) => Init(s, signers, threshold, token, minStake)
    case Submit(p) => Propose(s, ctx, p)
    case Endorse(signer, id) => Approve(s, ctx, signer, id)
    case Perform(id) => Execute(s, ctx, id)
    case Install(id, wasm) => Upgrade(s, ctx, id, wasm)
  }

  const KEYS := {SIGNERS, THRESH, MINSTAKE, STKTOK, PROPS}

  ghost predicate OwnTypes(st: Storage) {
    && (SIGNERS in st ==> st[SIGNERS].AddressesVal?)
    && (THRESH in st ==> st[THRESH].U32Val?)
    && (MINSTAKE in st ==> st[MINSTAKE].I128Val?)
    && (STKTOK in st ==> st[STKTOK].AddressVal?)
    && (PROPS in st ==> st[PROPS].ProposalsVal?)
  }

  lemma Frame(s: State, ctx: Context, call: Call, k: Symbol)
    requires Apply(s, ctx, call).Ok? && k !in KEYS
    ensures SameAt(s.instance, Apply(s, ctx, call).value.instance, k)
  {
  }

  lemma EndorseKeepsTypes(s: State, ctx: Context, call: Call)
    requires call.Endorse? && OwnTypes(s.instance) && CircuitBreaker.OwnTypes(s.instance)
    ensures var r := Apply(s, ctx, call);
            if r.Ok? then OwnTypes(r.value.instance) else r.error != WrongType
  {
  }

  lemma EstablishKeepsTypes(s: State, ctx: Context, call: Call)
    requires call.Establish? && OwnTypes(s.instance)
    ensures var r := Apply(s, ctx, call);
            if r.Ok? then OwnTypes(r.value.instance) else r.error != WrongType
  {
  }

  lemma OthersKeepTypes(s: State, ctx: Context, call: Call)
    requires !call.Establish? && !call.Endorse? && OwnTypes(s.instance) && CircuitBreaker.OwnTypes(s.instance)
    ensures var r := Apply(s, ctx, call);
            if r.Ok? then OwnTypes(r.value.instance) else r.error != WrongType
  {
  }

  lemma KeepsTypes(s: State, ctx: Context, call: Call)
    requires OwnTypes(s.instance) && CircuitBreaker.OwnTypes(s.instance)
    ensures var r := Apply(s, ctx, call);
            if r.Ok? then OwnTypes(r.value.instance) else r.error != WrongType
  {
    match call
    case Establish(_, _, _, _) => EstablishKeepsTypes(s, ctx, call);
    case Endorse(_, _) => EndorseKeepsTypes(s, ctx, call);
    case _ => OthersKeepTypes(s, ctx, call);
  }

  // ----- what a committed call did, without the storage around it -----

  datatype View = View(
    open: bool, established: bool, signers: seq<Address>, threshold: U32, minStake: I128, proposals: map<U64, Filed>)

  function ViewOf(st: Storage): View {
    View(Open(st),
         SIGNERS in st,
         if SIGNERS in st && st[SIGNERS].AddressesVal? then st[SIGNERS].addresses else [],
         if THRESH in st && st[THRESH].U32Val? then st[THRESH].u32 else 0,
         if MINSTAKE in st && st[MINSTAKE].I128Val? then st[MINSTAKE].i128 else 0,
         if PROPS in st && st[PROPS].ProposalsVal? then st[PROPS].proposals else map[])
  }

  /** A signer comes after everyone who approved before. */
  predicate InOrder(signers: seq<Address>, approvedBy: seq<Address>, who: Address) {
    approvedBy != [] ==>
      approvedBy[|approvedBy| - 1] in signers
      && IndexIn(signers, approvedBy[|approvedBy| - 1]) < IndexIn(signers, who)
  }

  predicate MayEndorse(v: View, ctx: Context, signer: Address, id: U64) {
    && !v.open && signer in ctx.auths && signer in v.signers && v.threshold > 0
    && id in v.proposals && v.proposals[id].proposal.state.Pending?
    && signer !in v.proposals[id].proposal.approvedBy
    && InOrder(v.signers, v.proposals[id].proposal.approvedBy, signer)
    && WithApproval(v.proposals[id], signer, v.threshold, ctx.ledger).Ok?
  }

  predicate MayPerform(v: View, ctx: Context, id: U64) {
    && !v.open && id in v.proposals && v.proposals[id].proposal.state.Approved?
    && |v.proposals[id].proposal.approvedBy| >= v.threshold && ctx.ledger >= v.proposals[id].unlock
  }

  function Performed(v: View, id: U64): View
    requires id in v.proposals
  {
    v.(proposals := v.proposals[id := v.proposals[id].(proposal := v.proposals[id].proposal.(state := Executed))])
  }

  predicate Steps(v: View, ctx: Context, call: Call, w: View) {
    match call
    case Establish(signers, threshold, _, minStake) =>
      && !v.established && 0 < threshold <= |signers| && threshold <= 100 && NoRepeats(signers) && minStake >= 0
      && w == View(v.open, true, signers, threshold, minStake, map[])
    case Submit(p) =>
      && !v.open && p.proposer in v.signers && p.proposer in ctx.auths && p.id !in v.proposals
      && ctx.ledger + TIMELOCK_LEDGERS <= U32_MAX
      && var filed := Filed(p.(state := Pending, approvedBy := []), ctx.ledger + TIMELOCK_LEDGERS);
         w == v.(proposals := v.proposals[p.id := filed])
    case Endorse(signer, id) =>
      && MayEndorse(v, ctx, signer, id)
      && w == v.(proposals := v.proposals[id := WithApproval(v.proposals[id], signer, v.threshold, ctx.ledger).value])
    case Perform(id) => MayPerform(v, ctx, id) && w == Performed(v, id)
    case Install(id, wasm) =>
      MayPerform(v, ctx, id) && v.proposals[id].proposal.actionHash == wasm && w == Performed(v, id)
  }

  lemma EstablishSteps(s: State, ctx: Context, call: Call)
    requires call.Establish? && Apply(s, ctx, call).Ok?
    ensures Steps(ViewOf(s.instance), ctx, call, ViewOf(Apply(s, ctx, call).value.instance))
  {
  }

  lemma ApprovableInOrder(st: Storage, p: Proposal, signer: Address)
    requires Approvable(st, p, signer).Ok?
    ensures p.state.Pending? && signer !in p.approvedBy && InOrder(ViewOf(st).signers, p.approvedBy, signer)
  {
  }

  lemma EndorseSteps(s: State, ctx: Context, call: Call)
    requires call.Endorse? && Apply(s, ctx, call).Ok?
    ensures Steps(ViewOf(s.instance), ctx, call, ViewOf(Apply(s, ctx, call).value.instance))
  {
    ApprovableInOrder(s.instance, s.instance[PROPS].proposals[call.id].proposal, call.signer);
  }

  lemma SubmitSteps(s: State, ctx: Context, call: Call)
    requires call.Submit? && Apply(s, ctx, call).Ok?
    ensures Steps(ViewOf(s.instance), ctx, call, ViewOf(Apply(s, ctx, call).value.instance))
  {
  }

  lemma PerformSteps(s: State, ctx: Context, call: Call)
    requires (call.Perform? || call.Install?) && Apply(s, ctx, call).Ok?
    ensures Steps(ViewOf(s.instance), ctx, call, ViewOf(Apply(s, ctx, call).value.instance))
  {
  }

  /** Every committed call is a step of the views. */
  lemma CommittedSteps(s: State, ctx: Context, call: Call)
    requires Apply(s, ctx, call).Ok?
    ensures Steps(ViewOf(s.instance), ctx, call, ViewOf(Apply(s, ctx, call).value.instance))
  {
    if call.Establish? {
      EstablishSteps(s, ctx, call);
    } else if call.Endorse? {
      EndorseSteps(s, ctx, call);
    } else if call.Submit? {
      SubmitSteps(s, ctx, call);
    } else {
      PerformSteps(s, ctx, call);
    }
  }

  /** The minimum stake is zero or not set, or the account holds that much of the stake token. */
  predicate HoldsStake(s: State, who: Address) {
    var st := s.instance;
    MINSTAKE in st && st[MINSTAKE] != I128Val(0)
    ==> STKTOK in st && st[MINSTAKE].I128Val? && st[STKTOK].AddressVal?
        && BalanceOf(s, st[STKTOK].address, who) >= st[MINSTAKE].i128
  }

  lemma StakeExactly(s: State, who: Address)
    requires OwnTypes(s.instance)
    ensures RequireStake(s, who) == if HoldsStake(s, who) then Ok(()) else Err(InvalidStake)
  {
  }

  lemma EndorserHoldsStake(s: State, ctx: Context, signer: Address, id: U64)
    requires Apply(s, ctx, Endorse(signer, id)).Ok?
    ensures HoldsStake(s, signer)
  {
  }

  /** An approval commits exactly when the view allows it and the signer holds the stake. */
  lemma EndorsedExactly(s: State, ctx: Context, signer: Address, id: U64)
    requires OwnTypes(s.instance) && CircuitBreaker.OwnTypes(s.instance) && !s.locked
    ensures var st := s.instance;
            Apply(s, ctx, Endorse(signer, id)).Ok?
            <==> MayEndorse(ViewOf(st), ctx, signer, id)
                 && (MINSTAKE !in st || st[MINSTAKE].i128 == 0
                     || (STKTOK in st && BalanceOf(s, st[STKTOK].address, signer) >= st[MINSTAKE].i128))
  {
    if Apply(s, ctx, Endorse(signer, id)).Ok? {
      EndorseSteps(s, ctx, Endorse(signer, id));
      EndorserHoldsStake(s, ctx, signer, id);
    } else if MayEndorse(ViewOf(s.instance), ctx, signer, id) && HoldsStake(s, signer) {
      AllowedEndorsementCommits(s, ctx, signer, id);
    }
  }

  lemma AllowedEndorsementCommits(s: State, ctx: Context, signer: Address, id: U64)
    requires OwnTypes(s.instance) && CircuitBreaker.OwnTypes(s.instance) && !s.locked
    requires HoldsStake(s, signer) && MayEndorse(ViewOf(s.instance), ctx, signer, id)
    ensures Apply(s, ctx, Endorse(signer, id)).Ok?
  {
    StakeExactly(s, signer);
  }

  /** An execution that the view allows commits. */
  lemma AllowedExecutionCommits(s: State, ctx: Context, id: U64)
    requires OwnTypes(s.instance) && CircuitBreaker.OwnTypes(s.instance) && !s.locked
    requires MayPerform(ViewOf(s.instance), ctx, id)
    ensures Apply(s, ctx, Perform(id)).Ok?
  {
  }
}
