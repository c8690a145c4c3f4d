/**
 * The state one Soroban contract instance keeps: typed values under symbols, the reentrancy
 * flag, proof attestations, the installed code, and the token balances it can move.
 */
module ContractState {
  import opened Wrappers

  type Byte = b: int | 0 <= b < 0x100
  type U32 = n: int | 0 <= n < 0x1_0000_0000
  type U64 = n: int | 0 <= n < 0x1_0000_0000_0000_0000
  type I128 = n: int | -0x8000_0000_0000_0000_0000_0000_0000_0000 <= n < 0x8000_0000_0000_0000_0000_0000_0000_0000

  const U32_MAX: int := 0xFFFF_FFFF
  const U64_MAX: int := 0xFFFF_FFFF_FFFF_FFFF
  const I128_MAX: int := 0x7FFF_FFFF_FFFF_FFFF_FFFF_FFFF_FFFF_FFFF

  /** A 32-byte digest. */
  type Hash = h: seq<Byte> | |h| == 32 witness Zeros(32)

  function Zeros(n: nat): (bytes: seq<Byte>)
    ensures |bytes| == n && forall i :: 0 <= i < n ==> bytes[i] == 0
  {
    if n == 0 then [] else [0] + Zeros(n - 1)
  }

  const ZERO_HASH: Hash := Zeros(32)

  /** The digest function, of which nothing is known. */
  type Digest = seq<Byte> -> Hash

  /** The all-zero account, this contract, or any other account. */
  datatype Address = Zero | Contract | Account(id: nat)

  /** The storage keys of the engine, and every other symbol. */
  datatype Symbol =
    | ADMIN | CP_INIT | P_COUNT | LASTPAR | SEQ | PREV_H | CB_STATE | CB_GUARD
    | PROPS | SIGNERS | THRESH | MINSTAKE | STKTOK
    | ER_ADMINS | ER_THRESH | ER_APPRVS | ER_DEST | ER_TOKEN | ER_AMOUNT
    | FEE_BPS | FEE_RCP | SNAPC | SNAPL | OUTFLOWS | TR_ADMIN
    | VERSION | VER_INIT | ZK_COUNT | C_INIT | C_ADMIN | C_OPERS | C_AUDIT | GAP | PROTO_ST
    | Named(name: string)

  datatype ProposalState = Pending | Approved | Executed | Expired | Cancelled

  datatype Proposal = Proposal(
    id: U64, actionHash: Hash, proposer: Address, approvedBy: seq<Address>, state: ProposalState)

  /** A stored proposal with the ledger from which it may be executed. */
  datatype Filed = Filed(proposal: Proposal, unlock: U32)

  datatype Val =
    | U32Val(u32: U32)
    | U64Val(u64: U64)
    | I128Val(i128: I128)
    | BoolVal(flag: bool)
    | AddressVal(address: Address)
    | AddressesVal(addresses: seq<Address>)
    | HashVal(hash: Hash)
    | BreakerVal(open: bool)
    | ProposalsVal(proposals: map<U64, Filed>)
    | SymbolVal(symbol: Symbol)
    | NumbersVal(numbers: seq<U64>)

  type Storage = map<Symbol, Val>

  datatype Attestation = Attestation(
    stateRoot: Hash, proofHash: Hash, blockSeq: U32, registeredAt: U32, metadata: map<string, seq<Byte>>)

  datatype Transfer = Transfer(token: Address, from: Address, to: Address, amount: int)

  /**
   * `locked` is the reentrancy flag in temporary storage; `transfers` are the calls the token
   * contracts have executed, oldest first.
   */
  datatype State = State(
    instance: Storage, locked: bool, proofs: map<Hash, Hash>, attestations: map<Hash, Attestation>,
    wasm: Hash, balances: map<Address, map<Address, int>>, transfers: seq<Transfer>)

  datatype Error =
    | ReentrancyDetected | NotAuthorized | WrongType | TransferTrapped
    | CircuitOpen | NotGuardian | AlreadyInState | InvalidGuardianSet | BreakerInitialized
    | ReplayedSequence | HashMismatch
    | AlreadyInitialized | Unauthorized | NotInitialized | ArithmeticOverflow | ReservedKey | InvalidAdmin
    | VersionInitialized
    | NotASigner | AlreadyApproved | ProposalNotFound | TimelockActive | InvalidStateTransition
    | InvalidThreshold | InvalidStake | GovernanceInitialized | DuplicateSigner | DuplicateProposal
    | ThresholdNotMet | InvalidSignerOrder
    | InvalidWasmHash | ProposalNotApproved
    | NotAdmin | NoPendingRequest | InvalidAddress | InvalidAmount | DuplicateAdmin | RecoveryInitialized
    | StateRootMismatch | InvalidProofHash | MetadataTooLarge
    | InvalidBasisPoints | InvalidRecipient | FeeCalculationOverflow
    | ProxyInitialized | ProxyNotInitialized
    | PhaseUnchanged | InvalidTransition

  /** What a transaction is run with: the current ledger and the accounts that authorised it. */
  datatype Context = Context(ledger: U32, auths: set<Address>)

  function Need(condition: bool, error: Error): Result<(), Error> {
    if condition then Ok(()) else Err(error)
  }

  // ----- typed reads: a value of another type than expected traps -----

  function ReadU32(st: Storage, k: Symbol, default: U32): Result<U32, Error> {
    if k !in st then Ok(default) else if st[k].U32Val? then Ok(st[k].u32) else Err(WrongType)
  }

  function ReadU64(st: Storage, k: Symbol, default: U64): Result<U64, Error> {
    if k !in st then Ok(default) else if st[k].U64Val? then Ok(st[k].u64) else Err(WrongType)
  }

  function ReadI128(st: Storage, k: Symbol, default: I128): Result<I128, Error> {
    if k !in st then Ok(default) else if st[k].I128Val? then Ok(st[k].i128) else Err(WrongType)
  }

  function ReadHash(st: Storage, k: Symbol): Result<Hash, Error> {
    if k !in st then Ok(ZERO_HASH) else if st[k].HashVal? then Ok(st[k].hash) else Err(WrongType)
  }

  function ReadAddresses(st: Storage, k: Symbol): Result<seq<Address>, Error> {
    if k !in st then Ok([]) else if st[k].AddressesVal? then Ok(st[k].addresses) else Err(WrongType)
  }

  /** An address that must be there. */
  function ReadAddress(st: Storage, k: Symbol, missing: Error): Result<Address, Error> {
    if k !in st then Err(missing) else if st[k].AddressVal? then Ok(st[k].address) else Err(WrongType)
  }

  function ReadAmount(st: Storage, k: Symbol, missing: Error): Result<I128, Error> {
    if k !in st then Err(missing) else if st[k].I128Val? then Ok(st[k].i128) else Err(WrongType)
  }

  function ReadProposals(st: Storage): Result<map<U64, Filed>, Error> {
    if PROPS !in st then Ok(map[]) else if st[PROPS].ProposalsVal? then Ok(st[PROPS].proposals) else Err(WrongType)
  }

  function ReadBreaker(st: Storage): Result<bool, Error> {
    if CB_STATE !in st then Ok(false) else if st[CB_STATE].BreakerVal? then Ok(st[CB_STATE].open) else Err(WrongType)
  }

  // ----- checks every module makes -----

  /** The guard every guarded entrypoint takes first; it is released when the entrypoint ends. */
  function EnterGuard(s: State): Result<(), Error> {
    Need(!s.locked, ReentrancyDetected)
  }

  /** The emergency switch is on. */
  predicate Open(st: Storage) {
    CB_STATE in st && st[CB_STATE] == BreakerVal(true)
  }

  function AssertClosed(st: Storage): Result<(), Error> {
    var open :- ReadBreaker(st);
    Need(!open, CircuitOpen)
  }

  function RequireAuth(ctx: Context, who: Address): Result<(), Error> {
    Need(who in ctx.auths, NotAuthorized)
  }

  /** `require_admin` of the control plane, the ZK hooks and the fee module. */
  function RequireAdmin(st: Storage, ctx: Context, caller: Address): Result<(), Error> {
    var _ :- RequireAuth(ctx, caller);
    var admin :- ReadAddress(st, ADMIN, NotInitialized);
    Need(caller == admin, Unauthorized)
  }

  predicate NoRepeats(xs: seq<Address>) {
    forall i, j :: 0 <= i < j < |xs| ==> xs[i] != xs[j]
  }

  // ----- tokens -----

  function BalanceOf(s: State, token: Address, who: Address): int {
    if token in s.balances && who in s.balances[token] then s.balances[token][who] else 0
  }

  function Holdings(s: State, token: Address): map<Address, int> {
    if token in s.balances then s.balances[token] else map[]
  }

  /** One token's holdings after a payment. */
  function Moved(held: map<Address, int>, from: Address, to: Address, amount: int): map<Address, int> {
    var paid := held[from := (if from in held then held[from] else 0) - amount];
    paid[to := (if to in paid then paid[to] else 0) + amount]
  }

  /** A token contract's `transfer`, which traps when the sender cannot pay. */
  function TokenTransfer(s: State, token: Address, from: Address, to: Address, amount: int): Result<State, Error> {
    if amount < 0 || BalanceOf(s, token, from) < amount then
      Err(TransferTrapped)
    else
      Ok(s.(balances := s.balances[token := Moved(Holdings(s, token), from, to, amount)],
            transfers := s.transfers + [Transfer(token, from, to, amount)]))
  }

  /** A token contract neither reads nor moves the guard. */
  lemma TransferIgnoresGuard(s: State, token: Address, from: Address, to: Address, amount: int)
    ensures var free := TokenTransfer(s, token, from, to, amount);
            var held := TokenTransfer(s.(locked := true), token, from, to, amount);
            if free.Ok? then held == Ok(free.value.(locked := true)) && free.value.locked == s.locked else held == free
  {
  }

  /** One transfer went through, and nothing else touched the tokens. */
  predicate PaidOut(s: State, paid: Transfer, s': State) {
    var r := TokenTransfer(s, paid.token, paid.from, paid.to, paid.amount);
    r.Ok? && s'.balances == r.value.balances && s'.transfers == r.value.transfers
  }

  predicate TokensUntouched(s: State, s': State) {
    s'.balances == s.balances && s'.transfers == s.transfers
  }

  // ----- what a storage may hold -----

  /** Two storages agree at a key. */
  predicate SameAt(st: Storage, st': Storage, k: Symbol) {
    (k in st <==> k in st') && (k in st ==> st[k] == st'[k])
  }
}
