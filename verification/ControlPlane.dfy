/**
 * The administrative entrypoints: initialisation, and parameters behind the audit chain
 * (engine-core/src/core/control_plane.rs).
 */
module ControlPlane {
  import opened Wrappers
  import opened ContractState
  import opened Audit
  import CircuitBreaker

  const RESERVED_KEYS: set<Symbol> := {
    ADMIN, SEQ, PREV_H, CB_STATE, CB_GUARD, PROPS, SIGNERS, THRESH, MINSTAKE, STKTOK,
    ER_ADMINS, ER_THRESH, ER_APPRVS, ER_DEST, ER_TOKEN, ER_AMOUNT, FEE_BPS, FEE_RCP,
    SNAPC, SNAPL, OUTFLOWS, TR_ADMIN, VERSION, VER_INIT, ZK_COUNT,
    C_INIT, C_ADMIN, C_OPERS, C_AUDIT, GAP}

  const CONTRACT_VERSION: U32 := 1

  predicate IsReservedKey(k: Symbol) {
    k in RESERVED_KEYS
  }

  /** The engine's keys that a parameter update may overwrite, and every foreign symbol. */
  lemma ReservedExactly(k: Symbol)
    ensures IsReservedKey(k) <==> !(k.CP_INIT? || k.P_COUNT? || k.LASTPAR? || k.PROTO_ST? || k.Named?)
  {
  }

  function Initialize(s: State, ctx: Context, admin: Address): Result<State, Error> {
    var _ :- EnterGuard(s);
    var _ :- Need(CP_INIT !in s.instance, AlreadyInitialized);
    var _ :- Need(admin != Contract, InvalidAdmin);
    var _ :- RequireAuth(ctx, admin);
    var _ :- Need(VER_INIT !in s.instance, VersionInitialized);
    Ok(s.(instance := s.instance[ADMIN := AddressVal(admin)][CP_INIT := BoolVal(true)][P_COUNT := U64Val(0)]
                                [VERSION := U32Val(CONTRACT_VERSION)][VER_INIT := BoolVal(true)]))
  }

  function IncrementParamCount(st: Storage): Result<Storage, Error> {
    var count :- ReadU64(st, P_COUNT, 0);
    if count == U64_MAX then Err(ArithmeticOverflow) else Ok(st[P_COUNT := U64Val(count + 1)])
  }

  /** The checks every update makes first. */
  function MayUpdate(s: State, ctx: Context, caller: Address): Result<(), Error> {
    var _ :- EnterGuard(s);
    var _ :- RequireAdmin(s.instance, ctx, caller);
    AssertClosed(s.instance)
  }

  /** A single parameter write also notes which parameter it was. */
  function Written(st: Storage, k: Symbol, v: U64): Storage {
    st[k := U64Val(v)][LASTPAR := SymbolVal(k)]
  }

  function UpdateParam(sha: Digest, s: State, ctx: Context, caller: Address, k: Symbol, v: U64,
                       c: StateCommitment, payload: Hash): Result<State, Error> {
    var _ :- MayUpdate(s, ctx, caller);
    var _ :- Need(!IsReservedKey(k), ReservedKey);
    var committed :- ValidateTransitionInner(sha, s, c, payload);
    var counted :- IncrementParamCount(Written(committed.instance, k, v));
    Ok(committed.(instance := counted))
  }

  /** The parameter writes of a batch, in order: the last write to a key wins. */
  function WriteAll(st: Storage, params: seq<(Symbol, U64)>): Storage {
    if params == [] then st
    else WriteAll(st, params[..|params| - 1])[params[|params| - 1].0 := U64Val(params[|params| - 1].1)]
  }

  function BatchUpdateParam(sha: Digest, s: State, ctx: Context, caller: Address, params: seq<(Symbol, U64)>,
                            c: StateCommitment, payload: Hash): Result<State, Error> {
    var _ :- MayUpdate(s, ctx, caller);
    var committed :- ValidateTransitionInner(sha, s, c, payload);
    var _ :- Need(forall i :: 0 <= i < |params| ==> !IsReservedKey(params[i].0), ReservedKey);
    var counted :- IncrementParamCount(WriteAll(committed.instance, params));
    Ok(committed.(instance := counted))
  }

  function InitBreaker(s: State, ctx: Context, caller: Address, guardians: seq<Address>): Result<State, Error> {
    var _ :- EnterGuard(s);
    var _ :- RequireAdmin(s.instance, ctx, caller);
    CircuitBreaker.Init(s, guardians)
  }

  datatype Call =
    | Start(admin: Address)
    | Set(caller: Address, key: Symbol, value: U64, commitment: StateCommitment, digest: Hash)
    | SetMany(caller: Address, params: seq<(Symbol, U64)>, commitment: StateCommitment, digest: Hash)
    | EstablishBreaker(caller: Address, guardians: seq<Address>)

  function Apply(sha: Digest, s: State, ctx: Context, call: Call): Result<State, Error> {
    match call
    case Start(admin) => Initialize(s, ctx, admin)
    case Set(caller, k, v, c, digest) => UpdateParam(sha, s, ctx, caller, k, v, c, digest)
    case SetMany(caller, params, c, digest) => BatchUpdateParam(sha, s, ctx, caller, params, c, digest)
    case EstablishBreaker(caller, guardians) => InitBreaker(s, ctx, caller, guardians)
  }

  const KEYS := {ADMIN, CP_INIT, P_COUNT, LASTPAR, VERSION, VER_INIT, SEQ, PREV_H, CB_STATE, CB_GUARD}

  ghost predicate OwnTypes(st: Storage) {
    && (ADMIN in st ==> st[ADMIN].AddressVal?)
    && (P_COUNT in st ==> st[P_COUNT].U64Val?)
    && (VERSION in st ==> st[VERSION].U32Val?)
    && (VER_INIT in st ==> st[VER_INIT].BoolVal?)
  }

  /** What the writes of a batch leave alone, and the type of what they leave behind. */
  lemma {:induction false} WriteAllAt(st: Storage, params: seq<(Symbol, U64)>, k: Symbol)
    ensures (forall i :: 0 <= i < |params| ==> params[i].0 != k) ==> SameAt(st, WriteAll(st, params), k)
    ensures k in WriteAll(st, params) ==> WriteAll(st, params)[k].U64Val? || (k in st && WriteAll(st, params)[k] == st[k])
  {
    if params != [] {
      WriteAllAt(st, params[..|params| - 1], k);
    }
  }

  /** The last value a batch writes under a key. */
  function LastFor(params: seq<(Symbol, U64)>, k: Symbol): Option<U64> {
    if params == [] then None
    else if params[|params| - 1].0 == k then Some(params[|params| - 1].1)
    else LastFor(params[..|params| - 1], k)
  }

  lemma {:induction false} WriteAllIsLast(st: Storage, params: seq<(Symbol, U64)>, k: Symbol)
    ensures match LastFor(params, k)
            case Some(v) => k in WriteAll(st, params) && WriteAll(st, params)[k] == U64Val(v)
            case None => SameAt(st, WriteAll(st, params), k)
  {
    if params != [] {
      WriteAllIsLast(st, params[..|params| - 1], k);
    }
  }

  /** The keys a call may write: an update its parameters, the chain and the counter, set-up its own keys. */
  predicate MayWrite(call: Call, k: Symbol) {
    match call
    case Start(_) => k in {ADMIN, CP_INIT, P_COUNT, VERSION, VER_INIT}
    case Set(_, key, _, _, _) => k in Audit.KEYS || k in {P_COUNT, LASTPAR} || (k == key && !IsReservedKey(k))
    case SetMany(_, params, _, _) => k in Audit.KEYS || k == P_COUNT || (LastFor(params, k).Some? && !IsReservedKey(k))
    case EstablishBreaker(_, _) => k in CircuitBreaker.KEYS
  }

  lemma SetFrame(sha: Digest, s: State, ctx: Context, call: Call, k: Symbol)
    requires call.Set? && Apply(sha, s, ctx, call).Ok? && !MayWrite(call, k)
    ensures SameAt(s.instance, Apply(sha, s, ctx, call).value.instance, k)
  {
    var committed := ValidateTransitionInner(sha, s, call.commitment, call.digest).value.instance;
    assert SameAt(s.instance, committed, k);
    var written := Written(committed, call.key, call.value);
    assert SameAt(committed, written, k) && SameAt(written, IncrementParamCount(written).value, k);
  }

  lemma SetManyFrame(sha: Digest, s: State, ctx: Context, call: Call, k: Symbol)
    requires call.SetMany? && Apply(sha, s, ctx, call).Ok? && !MayWrite(call, k)
    ensures SameAt(s.instance, Apply(sha, s, ctx, call).value.instance, k)
  {
    var committed := ValidateTransitionInner(sha, s, call.commitment, call.digest).value.instance;
    if IsReservedKey(k) {
      WriteAllAt(committed, call.params, k);
    } else {
      WriteAllIsLast(committed, call.params, k);
    }
  }

  /** A committed call writes only under the keys it may write. */
  lemma Frame(sha: Digest, s: State, ctx: Context, call: Call, k: Symbol)
    requires Apply(sha, s, ctx, call).Ok? && !MayWrite(call, k)
    ensures SameAt(s.instance, Apply(sha, s, ctx, call).value.instance, k)
  {
    if call.Set? {
      SetFrame(sha, s, ctx, call, k);
    } else if call.SetMany? {
      SetManyFrame(sha, s, ctx, call, k);
    }
  }

  /** Parameter updates change a reserved key only by recording their commitment. */
  lemma UpdatesRespectReservedKeys(sha: Digest, s: State, ctx: Context, call: Call, k: Symbol)
    requires (call.Set? || call.SetMany?) && Apply(sha, s, ctx, call).Ok?
    requires IsReservedKey(k) && k !in Audit.KEYS
    ensures SameAt(s.instance, Apply(sha, s, ctx, call).value.instance, k)
  {
    ReservedExactly(k);
    Frame(sha, s, ctx, call, k);
  }

  ghost predicate AllTypes(st: Storage) {
    OwnTypes(st) && Audit.OwnTypes(st) && CircuitBreaker.OwnTypes(st)
  }

  lemma CommitmentKeepsTypes(sha: Digest, s: State, c: StateCommitment, payload: seq<Byte>)
    requires AllTypes(s.instance)
    ensures var r := ValidateTransitionInner(sha, s, c, payload);
            if r.Ok? then AllTypes(r.value.instance) else r.error != WrongType
  {
  }

  lemma CountKeepsTypes(st: Storage)
    requires AllTypes(st)
    ensures var r := IncrementParamCount(st);
            if r.Ok? then AllTypes(r.value) else r.error != WrongType
  {
  }

  lemma MayUpdateReadsTypes(s: State, ctx: Context, caller: Address)
    requires AllTypes(s.instance)
    ensures MayUpdate(s, ctx, caller) != Err(WrongType)
  {
  }

  lemma WrittenKeepsTypes(st: Storage, k: Symbol, v: U64)
    requires AllTypes(st) && !IsReservedKey(k)
    ensures AllTypes(Written(st, k, v))
  {
  }

  lemma SetKeepsTypes(sha: Digest, s: State, ctx: Context, call: Call)
    requires call.Set? && AllTypes(s.instance)
    ensures var r := Apply(sha, s, ctx, call);
            if r.Ok? then AllTypes(r.value.instance) else r.error != WrongType
  {
    MayUpdateReadsTypes(s, ctx, call.caller);
    CommitmentKeepsTypes(sha, s, call.commitment, call.digest);
    var committed := ValidateTransitionInner(sha, s, call.commitment, call.digest);
    if committed.Ok? && !IsReservedKey(call.key) {
      WrittenKeepsTypes(committed.value.instance, call.key, call.value);
      CountKeepsTypes(Written(committed.value.instance, call.key, call.value));
    }
  }

  lemma {:induction false} WriteAllKeepsTypes(st: Storage, params: seq<(Symbol, U64)>)
    requires AllTypes(st) && forall i :: 0 <= i < |params| ==> !IsReservedKey(params[i].0)
    ensures AllTypes(WriteAll(st, params))
  {
    if params != [] {
      WriteAllKeepsTypes(st, params[..|params| - 1]);
      ReservedExactly(params[|params| - 1].0);
    }
  }

  lemma SetManyKeepsTypes(sha: Digest, s: State, ctx: Context, call: Call)
    requires call.SetMany? && AllTypes(s.instance)
    ensures var r := Apply(sha, s, ctx, call);
            if r.Ok? then AllTypes(r.value.instance) else r.error != WrongType
  {
    MayUpdateReadsTypes(s, ctx, call.caller);
    CommitmentKeepsTypes(sha, s, call.commitment, call.digest);
    var committed := ValidateTransitionInner(sha, s, call.commitment, call.digest);
    if committed.Ok? && forall i :: 0 <= i < |call.params| ==> !IsReservedKey(call.params[i].0) {
      WriteAllKeepsTypes(committed.value.instance, call.params);
      CountKeepsTypes(WriteAll(committed.value.instance, call.params));
    }
  }

  lemma KeepsTypes(sha: Digest, s: State, ctx: Context, call: Call)
    requires AllTypes(s.instance)
    ensures var r := Apply(sha, s, ctx, call);
            if r.Ok? then AllTypes(r.value.instance) else r.error != WrongType
  {
    if call.Set? {
      SetKeepsTypes(sha, s, ctx, call);
    } else if call.SetMany? {
      SetManyKeepsTypes(sha, s, ctx, call);
    }
  }

  // ----- what a committed update did -----

  function CountOf(st: Storage): U64 {
    if P_COUNT in st && st[P_COUNT].U64Val? then st[P_COUNT].u64 else 0
  }

  /** A committed update extends the audit chain by its commitment. */
  lemma UpdatesExtendChain(sha: Digest, s: State, ctx: Context, call: Call)
    requires (call.Set? || call.SetMany?) && Apply(sha, s, ctx, call).Ok?
    ensures Extended(sha, s.instance, call.commitment, call.digest, Apply(sha, s, ctx, call).value.instance)
  {
    CommittedExtends(sha, s, call.commitment, call.digest);
    var st := ValidateTransitionInner(sha, s, call.commitment, call.digest).value.instance;
    if call.Set? {
      SetKeepsHead(st, call.key, call.value);
    } else {
      SetManyKeepsHead(st, call.params);
    }
  }

  lemma SetKeepsHead(st: Storage, k: Symbol, v: U64)
    requires !IsReservedKey(k) && IncrementParamCount(Written(st, k, v)).Ok?
    ensures var st' := IncrementParamCount(Written(st, k, v)).value;
            SequenceOf(st') == SequenceOf(st) && HeadOf(st') == HeadOf(st)
  {
  }

  lemma SetManyKeepsHead(st: Storage, params: seq<(Symbol, U64)>)
    requires forall i :: 0 <= i < |params| ==> !IsReservedKey(params[i].0)
    requires IncrementParamCount(WriteAll(st, params)).Ok?
    ensures var st' := IncrementParamCount(WriteAll(st, params)).value;
            SequenceOf(st') == SequenceOf(st) && HeadOf(st') == HeadOf(st)
  {
    ReservedExactly(SEQ);
    ReservedExactly(PREV_H);
    WriteAllAt(st, params, SEQ);
    WriteAllAt(st, params, PREV_H);
  }

  /** The update does not touch the counter, which is not a reserved key, or writes the value already there. */
  predicate SparesCount(st: Storage, call: Call) {
    match call
    case Set(_, k, v, _, _) => k == P_COUNT ==> v == CountOf(st)
    case SetMany(_, params, _, _) => LastFor(params, P_COUNT).Some? ==> LastFor(params, P_COUNT).value == CountOf(st)
    case _ => true
  }

  lemma SetManyCountsExactly(sha: Digest, s: State, ctx: Context, call: Call)
    requires call.SetMany? && OwnTypes(s.instance) && Apply(sha, s, ctx, call).Ok?
    ensures CountOf(Apply(sha, s, ctx, call).value.instance) == CountOf(s.instance) + 1 <==> SparesCount(s.instance, call)
  {
    WriteAllIsLast(ValidateTransitionInner(sha, s, call.commitment, call.digest).value.instance, call.params, P_COUNT);
  }

  /** A committed update raises the counter by one exactly when it spares the counter. */
  lemma UpdateCountsExactly(sha: Digest, s: State, ctx: Context, call: Call)
    requires (call.Set? || call.SetMany?) && OwnTypes(s.instance) && Apply(sha, s, ctx, call).Ok?
    ensures CountOf(Apply(sha, s, ctx, call).value.instance) == CountOf(s.instance) + 1 <==> SparesCount(s.instance, call)
  {
    if call.SetMany? {
      SetManyCountsExactly(sha, s, ctx, call);
    }
  }

  /** The call writes the phase of `core/state.rs`, whose key is not reserved. */
  predicate NamesPhase(call: Call) {
    (call.Set? && call.key == PROTO_ST) || (call.SetMany? && LastFor(call.params, PROTO_ST).Some?)
  }

  lemma PhaseWrites(sha: Digest, s: State, ctx: Context, call: Call)
    requires Apply(sha, s, ctx, call).Ok?
    ensures var st := Apply(sha, s, ctx, call).value.instance;
            if NamesPhase(call) then PROTO_ST in st && st[PROTO_ST].U64Val? else SameAt(s.instance, st, PROTO_ST)
  {
    if call.SetMany? {
      WriteAllIsLast(ValidateTransitionInner(sha, s, call.commitment, call.digest).value.instance, call.params, PROTO_ST);
    }
  }

  /** An update never removes a key. */
  lemma UpdatesKeepKey(sha: Digest, s: State, ctx: Context, call: Call, k: Symbol)
    requires (call.Set? || call.SetMany?) && Apply(sha, s, ctx, call).Ok? && k in s.instance
    ensures k in Apply(sha, s, ctx, call).value.instance
  {
    if call.SetMany? {
      WriteAllKeepsKey(ValidateTransitionInner(sha, s, call.commitment, call.digest).value.instance, call.params, k);
    }
  }

  lemma {:induction false} WriteAllKeepsKey(st: Storage, params: seq<(Symbol, U64)>, k: Symbol)
    requires k in st
    ensures k in WriteAll(st, params)
  {
    if params != [] {
      WriteAllKeepsKey(st, params[..|params| - 1], k);
    }
  }

  /** The last write is the one with no later write to that key, so it wins over the earlier ones. */
  lemma {:induction false} LastWriteWins(params: seq<(Symbol, U64)>, i: nat)
    requires i < |params| && forall j :: i < j < |params| ==> params[j].0 != params[i].0
    ensures LastFor(params, params[i].0) == Some(params[i].1)
  {
    if i < |params| - 1 {
      LastWriteWins(params[..|params| - 1], i);
    }
  }

  /**
   * A committed batch leaves its last write under each key, and every key it does not name as it
   * was; the counter and the chain aside.
   */
  lemma BatchOutcome(sha: Digest, s: State, ctx: Context, call: Call, k: Symbol)
    requires call.SetMany? && Apply(sha, s, ctx, call).Ok? && k != P_COUNT && k !in Audit.KEYS
    ensures var st := Apply(sha, s, ctx, call).value.instance;
            match LastFor(call.params, k)
            case Some(v) => k in st && st[k] == U64Val(v)
            case None => SameAt(s.instance, st, k)
  {
    WriteAllIsLast(ValidateTransitionInner(sha, s, call.commitment, call.digest).value.instance, call.params, k);
  }

  /** A batch that names a reserved key does not commit at all, although its commitment is recorded first. */
  lemma BatchIsAllOrNothing(sha: Digest, s: State, ctx: Context, call: Call, i: nat)
    requires call.SetMany? && i < |call.params| && IsReservedKey(call.params[i].0)
    ensures Apply(sha, s, ctx, call).Err?
  {
  }
}
