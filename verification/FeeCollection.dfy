/** Charging the protocol fee on chain (engine-core/src/protocol_fee.rs). */
module FeeCollection {
  import opened Wrappers
  import opened ContractState
  import ControlPlane
  import ProtocolFee

  function InitFee(s: State, bps: U32, recipient: Address): Result<State, Error> {
    var _ :- Need(bps <= ProtocolFee.MAX_BPS, InvalidBasisPoints);
    var _ :- Need(recipient != Zero, InvalidRecipient);
    Ok(s.(instance := s.instance[FEE_BPS := U32Val(bps)][FEE_RCP := AddressVal(recipient)]))
  }

  function SetFeeBps(s: State, ctx: Context, caller: Address, bps: U32): Result<State, Error> {
    var _ :- RequireAdmin(s.instance, ctx, caller);
    var _ :- Need(bps <= ProtocolFee.MAX_BPS, InvalidBasisPoints);
    Ok(s.(instance := s.instance[FEE_BPS := U32Val(bps)]))
  }

  function SetFeeRecipient(s: State, ctx: Context, caller: Address, recipient: Address): Result<State, Error> {
    var _ :- RequireAdmin(s.instance, ctx, caller);
    var _ :- Need(recipient != Zero, InvalidRecipient);
    Ok(s.(instance := s.instance[FEE_RCP := AddressVal(recipient)]))
  }

  /** The fee on an amount at the stored rate, and what is left. */
  function StoredFee(st: Storage, amount: I128): Result<(int, int), Error> {
    var bps :- ReadU32(st, FEE_BPS, 0);
    match ProtocolFee.CalculateFee(bps, amount)
    case Ok(split) => Ok(split)
    case Err(e) => if e.InvalidAmount? then Err(InvalidAmount) else Err(FeeCalculationOverflow)
  }

  /** Pays the fee from the contract to the recipient; the caller keeps the net amount. */
  function DeductFee(s: State, token: Address, amount: I128): Result<(State, int), Error> {
    var _ :- EnterGuard(s);
    var _ :- AssertClosed(s.instance);
    var split :- StoredFee(s.instance, amount);
    if split.0 <= 0 then
      Ok((s, split.1))
    else
      var recipient :- ReadAddress(s.instance, FEE_RCP, InvalidRecipient);
      var paid :- TokenTransfer(s, token, Contract, recipient, split.0);
      var _ :- Need(split.0 <= U64_MAX, FeeCalculationOverflow);
      Ok((paid, split.1))
  }

  datatype Call =
    | SetUp(bps: U32, recipient: Address)
    | ChangeRate(caller: Address, bps: U32)
    | ChangeRecipient(caller: Address, recipient: Address)
    | Charge(token: Address, gross: I128)

  function Apply(s: State, ctx: Context, call: Call): Result<State, Error> {
    match call
    case SetUp(bps, recipient) => InitFee(s, bps, recipient)
    case ChangeRate(caller, bps) => SetFeeBps(s, ctx, caller, bps)
    case ChangeRecipient(caller, recipient) => SetFeeRecipient(s, ctx, caller, recipient)
    case Charge(token, gross) =>
      var paid :- DeductFee(s, token, gross);
      Ok(paid.0)
  }

  const KEYS := {FEE_BPS, FEE_RCP}

  ghost predicate OwnTypes(st: Storage) {
    (FEE_BPS in st ==> st[FEE_BPS].U32Val?) && (FEE_RCP in st ==> st[FEE_RCP].AddressVal?)
  }

  lemma Frame(s: State, ctx: Context, call: Call, k: Symbol)
    requires Apply(s, ctx, call).Ok? && k !in KEYS
    ensures SameAt(s.instance, Apply(s, ctx, call).value.instance, k)
  {
  }

  lemma KeepsTypes(s: State, ctx: Context, call: Call)
    requires OwnTypes(s.instance) && ControlPlane.AllTypes(s.instance)
    ensures var r := Apply(s, ctx, call);
            if r.Ok? then OwnTypes(r.value.instance) else r.error != WrongType
  {
  }

  // ----- what a committed call paid -----

  /** Charging moves the fee at the stored rate from the contract to the recipient; nothing else here moves tokens. */
  lemma CommittedPays(s: State, ctx: Context, call: Call)
    requires Apply(s, ctx, call).Ok?
    ensures var s' := Apply(s, ctx, call).value;
            if call.Charge? && StoredFee(s.instance, call.gross).value.0 > 0
            then FEE_RCP in s.instance && s.instance[FEE_RCP].AddressVal?
                 && var fee := StoredFee(s.instance, call.gross).value.0;
                    PaidOut(s, Transfer(call.token, Contract, s.instance[FEE_RCP].address, fee), s')
            else TokensUntouched(s, s')
  {
  }
}
