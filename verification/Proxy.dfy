/** The upgradeable proxy, which shares the contract's storage (engine-core/src/core/proxy.rs). */
module UpgradeProxy {
  import opened Wrappers
  import opened ContractState
  import Audit

  const GAP_WORDS: nat := 50

  function Repeated(word: U64, n: nat): (words: seq<U64>)
    ensures |words| == n && forall i :: 0 <= i < n ==> words[i] == word
  {
    if n == 0 then [] else [word] + Repeated(word, n - 1)
  }

  /** Appoints an admin where there is none, and reserves the storage gap. */
  function Init(s: State, ctx: Context, admin: Address): Result<State, Error> {
    var _ :- EnterGuard(s);
    var _ :- Need(ADMIN !in s.instance, ProxyInitialized);
    var _ :- RequireAuth(ctx, admin);
    Ok(s.(instance := s.instance[ADMIN := AddressVal(admin)][GAP := NumbersVal(Repeated(0, GAP_WORDS))]))
  }

  /** Installs code on the admin's word alone: neither a proposal nor the breaker is asked. */
  function Upgrade(s: State, ctx: Context, wasm: Hash): Result<State, Error> {
    var _ :- EnterGuard(s);
    var admin :- ReadAddress(s.instance, ADMIN, ProxyNotInitialized);
    var _ :- RequireAuth(ctx, admin);
    var _ :- Need(wasm != ZERO_HASH, InvalidWasmHash);
    Ok(s.(wasm := wasm))
  }

  /** Takes the guard and then calls `validate_transition`, which takes it again. */
  function VerifyIntegrity(sha: Digest, s: State, c: Audit.StateCommitment, payload: seq<Byte>): Result<State, Error> {
    var _ :- EnterGuard(s);
    Audit.ValidateTransition(sha, s.(locked := true), c, payload)
  }

  /** ... so no commitment ever passes through it. */
  lemma NeverCommits(sha: Digest, s: State, c: Audit.StateCommitment, payload: seq<Byte>)
    ensures VerifyIntegrity(sha, s, c, payload) == Err(ReentrancyDetected)
  {
  }

  datatype Call =
    | Begin(admin: Address)
    | Swap(wasm: Hash)
    | Verify(commitment: Audit.StateCommitment, payload: seq<Byte>)

  function Apply(sha: Digest, s: State, ctx: Context, call: Call): Result<State, Error> {
    match call
    case Begin(admin) => Init(s, ctx, admin)
    case Swap(wasm) => Upgrade(s, ctx, wasm)
    case Verify(c, payload) => VerifyIntegrity(sha, s, c, payload)
  }

  const KEYS := {ADMIN, GAP}

  ghost predicate AdminTyped(st: Storage) {
    ADMIN in st ==> st[ADMIN].AddressVal?
  }

  lemma Frame(sha: Digest, s: State, ctx: Context, call: Call, k: Symbol)
    requires Apply(sha, s, ctx, call).Ok? && k !in KEYS
    ensures SameAt(s.instance, Apply(sha, s, ctx, call).value.instance, k)
  {
    if call.Verify? {
      NeverCommits(sha, s, call.commitment, call.payload);
    }
  }

  lemma LeavesOthers(sha: Digest, s: State, ctx: Context, call: Call)
    requires Apply(sha, s, ctx, call).Ok?
    ensures forall k :: k !in KEYS ==> SameAt(s.instance, Apply(sha, s, ctx, call).value.instance, k)
  {
    forall k | k !in KEYS ensures SameAt(s.instance, Apply(sha, s, ctx, call).value.instance, k) {
      Frame(sha, s, ctx, call, k);
    }
  }

  lemma KeepsTypes(sha: Digest, s: State, ctx: Context, call: Call)
    requires AdminTyped(s.instance)
    ensures var r := Apply(sha, s, ctx, call);
            if r.Ok? then AdminTyped(r.value.instance) else r.error != WrongType
  {
    if call.Verify? {
      NeverCommits(sha, s, call.commitment, call.payload);
    }
  }

  /**
   * A call that commits appointed the admin who signed it, where there was none, and reserved the gap, or installed
   * code the admin signed for; and it did nothing else.
   */
  lemma CommittedDid(sha: Digest, s: State, ctx: Context, call: Call)
    requires Apply(sha, s, ctx, call).Ok?
    ensures var v := Apply(sha, s, ctx, call).value;
            match call
            case Begin(admin) =>
              && ADMIN !in s.instance && admin in ctx.auths
              && ADMIN in v.instance && v.instance[ADMIN] == AddressVal(admin)
              && GAP in v.instance && v.instance[GAP].NumbersVal? && |v.instance[GAP].numbers| == 50
              && (forall i :: 0 <= i < 50 ==> v.instance[GAP].numbers[i] == 0)
              && (forall k :: k !in KEYS ==> SameAt(s.instance, v.instance, k)) && v.(instance := s.instance) == s
            case Swap(wasm) =>
              && ADMIN in s.instance && s.instance[ADMIN].AddressVal? && s.instance[ADMIN].address in ctx.auths
              && v == s.(wasm := wasm)
            case Verify(_, _) => false
  {
    if call.Verify? {
      NeverCommits(sha, s, call.commitment, call.payload);
    }
  }
}
