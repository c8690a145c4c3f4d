/** The threshold-controlled way out for locked funds (engine-core/src/emergency_recovery.rs). */
module EmergencyRecovery {
  import opened Wrappers
  import opened ContractState
  import CircuitBreaker

  function ClearPending(st: Storage): Storage {
    st[ER_APPRVS := AddressesVal([])] - {ER_DEST, ER_TOKEN, ER_AMOUNT}
  }

  function Init(s: State, admins: seq<Address>, threshold: U32): Result<State, Error> {
    var _ :- Need(ER_ADMINS !in s.instance, RecoveryInitialized);
    var _ :- Need(0 < threshold <= |admins|, InvalidThreshold);
    var _ :- Need(NoRepeats(admins), DuplicateAdmin);
    var _ :- Need(Zero !in admins, InvalidAddress);
    Ok(s.(instance := ClearPending(s.instance[ER_ADMINS := AddressesVal(admins)][ER_THRESH := U32Val(threshold)])))
  }

  function RequireRecoveryAdmin(st: Storage, caller: Address): Result<(), Error> {
    var admins :- ReadAddresses(st, ER_ADMINS);
    Need(caller in admins, NotAdmin)
  }

  /** The breaker is closed, and this is a recovery admin who signed. */
  function MayAct(s: State, ctx: Context, who: Address): Result<(), Error> {
    var _ :- EnterGuard(s);
    var _ :- AssertClosed(s.instance);
    var _ :- RequireAuth(ctx, who);
    RequireRecoveryAdmin(s.instance, who)
  }

  /** Pays out the pending request and clears it. */
  function ExecuteRecovery(s: State, dest: Address): Result<State, Error> {
    var _ :- AssertClosed(s.instance);
    var token :- ReadAddress(s.instance, ER_TOKEN, NoPendingRequest);
    var amount :- ReadAmount(s.instance, ER_AMOUNT, NoPendingRequest);
    var paid :- TokenTransfer(s, token, Contract, dest, amount);
    var _ :- Need(0 < amount <= U64_MAX, InvalidAmount);
    Ok(paid.(instance := ClearPending(paid.instance)))
  }

  /** Executes at once when enough approvals are in, and otherwise leaves them pending. */
  function Tally(s: State, approvals: seq<Address>, dest: Address): Result<State, Error> {
    var threshold :- ReadU32(s.instance, ER_THRESH, 1);
    if |approvals| >= threshold then ExecuteRecovery(s, dest) else Ok(s)
  }

  /** The payout neither reads nor moves the guard. */
  lemma TallyIgnoresGuard(s: State, approvals: seq<Address>, dest: Address)
    ensures var free, held := Tally(s, approvals, dest), Tally(s.(locked := true), approvals, dest);
            if free.Ok? then held == Ok(free.value.(locked := true)) && free.value.locked == s.locked else held == free
  {
  }

  /** A new request replaces whatever was pending; the requester is its first approver. */
  function Filed(st: Storage, requester: Address, token: Address, dest: Address, amount: I128): Storage {
    ClearPending(st)[ER_TOKEN := AddressVal(token)][ER_DEST := AddressVal(dest)][ER_AMOUNT := I128Val(amount)]
                    [ER_APPRVS := AddressesVal([requester])]
  }

  function Request(s: State, ctx: Context, requester: Address, token: Address, dest: Address, amount: I128)
    : Result<State, Error>
  {
    var _ :- MayAct(s, ctx, requester);
    var _ :- Need(token != Zero && dest != Zero, InvalidAddress);
    var _ :- Need(amount > 0, InvalidAmount);
    var _ :- Need(amount <= U64_MAX, InvalidAmount);
    Tally(s.(instance := Filed(s.instance, requester, token, dest, amount)), [requester], dest)
  }

  function Approve(s: State, ctx: Context, admin: Address): Result<State, Error> {
    var _ :- MayAct(s, ctx, admin);
    var dest :- ReadAddress(s.instance, ER_DEST, NoPendingRequest);
    var approvals :- ReadAddresses(s.instance, ER_APPRVS);
    var _ :- Need(admin !in approvals, AlreadyApproved);
    var more := approvals + [admin];
    Tally(s.(instance := s.instance[ER_APPRVS := AddressesVal(more)]), more, dest)
  }

  datatype Call =
    | Establish(admins: seq<Address>, threshold: U32)
    | Ask(requester: Address, token: Address, dest: Address, amount: I128)
    | Endorse(admin: Address)

  function Apply(s: State, ctx: Context, call: Call): Result<State, Error> {
    match call
    case Establish(admins, threshold) => Init(s, admins, threshold)
    case Ask(requester, token, dest, amount) => Request(s, ctx, requester, token, dest, amount)
    case Endorse(admin) => Approve(s, ctx, admin)
  }

  const KEYS := {ER_ADMINS, ER_THRESH, ER_APPRVS, ER_DEST, ER_TOKEN, ER_AMOUNT}

  ghost predicate OwnTypes(st: Storage) {
    && (ER_ADMINS in st ==> st[ER_ADMINS].AddressesVal?)
    && (ER_THRESH in st ==> st[ER_THRESH].U32Val?)
    && (ER_APPRVS in st ==> st[ER_APPRVS].AddressesVal?)
    && (ER_DEST in st ==> st[ER_DEST].AddressVal?)
    && (ER_TOKEN in st ==> st[ER_TOKEN].AddressVal?)
    && (ER_AMOUNT in st ==> st[ER_AMOUNT].I128Val?)
  }

  lemma Frame(s: State, ctx: Context, call: Call, k: Symbol)
    requires Apply(s, ctx, call).Ok? && k !in KEYS
    ensures SameAt(s.instance, Apply(s, ctx, call).value.instance, k)
  {
  }

  lemma TallyKeepsTypes(s: State, approvals: seq<Address>, dest: Address)
    requires OwnTypes(s.instance) && CircuitBreaker.OwnTypes(s.instance)
    ensures var r := Tally(s, approvals, dest);
            if r.Ok? then OwnTypes(r.value.instance) else r.error != WrongType
  {
  }

  lemma MayActReadsTypes(s: State, ctx: Context, who: Address)
    requires OwnTypes(s.instance) && CircuitBreaker.OwnTypes(s.instance)
    ensures MayAct(s, ctx, who) != Err(WrongType)
  {
  }

  lemma FiledKeepsTypes(st: Storage, requester: Address, token: Address, dest: Address, amount: I128)
    requires OwnTypes(st) && CircuitBreaker.OwnTypes(st)
    ensures OwnTypes(Filed(st, requester, token, dest, amount))
            && CircuitBreaker.OwnTypes(Filed(st, requester, token, dest, amount))
  {
  }

  lemma AskKeepsTypes(s: State, ctx: Context, call: Call)
    requires call.Ask? && OwnTypes(s.instance) && CircuitBreaker.OwnTypes(s.instance)
    ensures var r := Apply(s, ctx, call);
            if r.Ok? then OwnTypes(r.value.instance) else r.error != WrongType
  {
    if MayAct(s, ctx, call.requester).Err? {
      MayActReadsTypes(s, ctx, call.requester);
    } else {
      var filed := Filed(s.instance, call.requester, call.token, call.dest, call.amount);
      FiledKeepsTypes(s.instance, call.requester, call.token, call.dest, call.amount);
      TallyKeepsTypes(s.(instance := filed), [call.requester], call.dest);
    }
  }

  lemma EndorseKeepsTypes(s: State, ctx: Context, call: Call)
    requires call.Endorse? && OwnTypes(s.instance) && CircuitBreaker.OwnTypes(s.instance)
    ensures var r := Apply(s, ctx, call);
            if r.Ok? then OwnTypes(r.value.instance) else r.error != WrongType
  {
    MayActReadsTypes(s, ctx, call.admin);
    if ER_DEST in s.instance {
      var more := AddressesAt(s.instance, ER_APPRVS) + [call.admin];
      TallyKeepsTypes(s.(instance := s.instance[ER_APPRVS := AddressesVal(more)]), more, s.instance[ER_DEST].address);
    }
  }

  lemma KeepsTypes(s: State, ctx: Context, call: Call)
    requires OwnTypes(s.instance) && CircuitBreaker.OwnTypes(s.instance)
    ensures var r := Apply(s, ctx, call);
            if r.Ok? then OwnTypes(r.value.instance) else r.error != WrongType
  {
    match call
    case Establish(_, _) =>
    case Ask(_, _, _, _) => AskKeepsTypes(s, ctx, call);
    case Endorse(_) => EndorseKeepsTypes(s, ctx, call);
  }

  // ----- what a committed call did, without the storage around it -----

  datatype View = View(
    open: bool, established: bool, admins: seq<Address>, threshold: U32, approvals: seq<Address>,
    token: Option<Address>, dest: Option<Address>, amount: Option<I128>)

  function AddressAt(st: Storage, k: Symbol): Option<Address> {
    if k in st && st[k].AddressVal? then Some(st[k].address) else None
  }

  function AddressesAt(st: Storage, k: Symbol): seq<Address> {
    if k in st && st[k].AddressesVal? then st[k].addresses else []
  }

  function ViewOf(st: Storage): View {
    View(Open(st), ER_ADMINS in st, AddressesAt(st, ER_ADMINS),
         if ER_THRESH in st && st[ER_THRESH].U32Val? then st[ER_THRESH].u32 else 1,
         AddressesAt(st, ER_APPRVS), AddressAt(st, ER_TOKEN), AddressAt(st, ER_DEST),
         if ER_AMOUNT in st && st[ER_AMOUNT].I128Val? then Some(st[ER_AMOUNT].i128) else None)
  }

  function Cleared(v: View): View {
    v.(approvals := [], token := None, dest := None, amount := None)
  }

  predicate Enough(v: View) {
    |v.approvals| >= v.threshold
  }

  predicate Complete(v: View) {
    v.token.Some? && v.dest.Some? && v.amount.Some?
  }

  /** The request or approval itself, before it is decided whether to pay. */
  function Recorded(v: View, call: Call): View {
    match call
    case Establish(admins, threshold) => Cleared(v.(established := true, admins := admins, threshold := threshold))
    case Ask(requester, token, dest, amount) =>
      v.(approvals := [requester], token := Some(token), dest := Some(dest), amount := Some(amount))
    case Endorse(admin) => v.(approvals := v.approvals + [admin])
  }

  predicate Pays(v: View, call: Call) {
    !call.Establish? && Enough(Recorded(v, call))
  }

  function Payment(v: View, call: Call): Transfer
    requires Complete(Recorded(v, call))
  {
    var asked := Recorded(v, call);
    Transfer(asked.token.value, Contract, asked.dest.value, asked.amount.value)
  }

  predicate MayCall(v: View, ctx: Context, call: Call) {
    match call
    case Establish(admins, threshold) =>
      !v.established && 0 < threshold <= |admins| && NoRepeats(admins) && Zero !in admins
    case Ask(requester, token, dest, amount) =>
      !v.open && requester in ctx.auths && requester in v.admins && token != Zero && dest != Zero && 0 < amount <= U64_MAX
    case Endorse(admin) =>
      !v.open && admin in ctx.auths && admin in v.admins && v.dest.Some? && admin !in v.approvals
  }

  /** What the call leaves behind: the request or approval pending, or its payment made and nothing pending. */
  predicate Settled(v: View, call: Call, s: State, s': State) {
    && (Pays(v, call) ==> Complete(Recorded(v, call)))
    && ViewOf(s'.instance) == (if Pays(v, call) then Cleared(Recorded(v, call)) else Recorded(v, call))
    && if Pays(v, call) then PaidOut(s, Payment(v, call), s') else TokensUntouched(s, s')
  }

  /** The count of approvals settles what was recorded: by paying it, or by leaving it pending. */
  lemma TallySettles(v: View, call: Call, s: State, approvals: seq<Address>, dest: Address)
    requires !call.Establish? && ViewOf(s.instance) == Recorded(v, call) && Recorded(v, call).dest == Some(dest)
    requires Recorded(v, call).approvals == approvals && Tally(s, approvals, dest).Ok?
    ensures Settled(v, call, s, Tally(s, approvals, dest).value)
  {
    if |approvals| >= Recorded(v, call).threshold {
      RecoveryPays(s, dest);
    }
  }

  lemma RecoveryPays(s: State, dest: Address)
    requires ExecuteRecovery(s, dest).Ok?
    ensures var v, s' := ViewOf(s.instance), ExecuteRecovery(s, dest).value;
            && v.token.Some? && v.amount.Some? && ViewOf(s'.instance) == Cleared(v)
            && PaidOut(s, Transfer(v.token.value, Contract, dest, v.amount.value), s')
  {
  }

  lemma AskSteps(s: State, ctx: Context, call: Call)
    requires call.Ask? && Apply(s, ctx, call).Ok?
    ensures MayCall(ViewOf(s.instance), ctx, call) && Settled(ViewOf(s.instance), call, s, Apply(s, ctx, call).value)
  {
    var filed := Filed(s.instance, call.requester, call.token, call.dest, call.amount);
    assert ViewOf(filed) == Recorded(ViewOf(s.instance), call);
    TallySettles(ViewOf(s.instance), call, s.(instance := filed), [call.requester], call.dest);
  }

  lemma EndorseSteps(s: State, ctx: Context, call: Call)
    requires call.Endorse? && Apply(s, ctx, call).Ok?
    ensures MayCall(ViewOf(s.instance), ctx, call) && Settled(ViewOf(s.instance), call, s, Apply(s, ctx, call).value)
  {
    var more := AddressesAt(s.instance, ER_APPRVS) + [call.admin];
    var recorded := s.instance[ER_APPRVS := AddressesVal(more)];
    assert ViewOf(recorded) == Recorded(ViewOf(s.instance), call);
    TallySettles(ViewOf(s.instance), call, s.(instance := recorded), more, s.instance[ER_DEST].address);
  }

  lemma EstablishSteps(s: State, ctx: Context, call: Call)
    requires call.Establish? && Apply(s, ctx, call).Ok?
    ensures MayCall(ViewOf(s.instance), ctx, call) && Settled(ViewOf(s.instance), call, s, Apply(s, ctx, call).value)
  {
  }

  /** Every committed call pays what was asked for when the approvals suffice, and else nothing. */
  lemma CommittedSteps(s: State, ctx: Context, call: Call)
    requires Apply(s, ctx, call).Ok?
    ensures MayCall(ViewOf(s.instance), ctx, call) && Settled(ViewOf(s.instance), call, s, Apply(s, ctx, call).value)
  {
    match call
    case Establish(_, _) => EstablishSteps(s, ctx, call);
    case Ask(_, _, _, _) => AskSteps(s, ctx, call);
    case Endorse(_) => EndorseSteps(s, ctx, call);
  }

  /** An approval that the view allows commits, if what it pays can be paid. */
  lemma AllowedApprovalCommits(s: State, ctx: Context, admin: Address)
    requires OwnTypes(s.instance) && CircuitBreaker.OwnTypes(s.instance) && !s.locked
    requires MayCall(ViewOf(s.instance), ctx, Endorse(admin)) && Complete(ViewOf(s.instance))
    requires var v := ViewOf(s.instance);
             0 < v.amount.value <= U64_MAX && BalanceOf(s, v.token.value, Contract) >= v.amount.value
    ensures Apply(s, ctx, Endorse(admin)).Ok?
  {
  }
}
