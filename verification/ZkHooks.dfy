/** Attestations of off-chain proofs for the audited head (engine-core/src/core/zk_hooks.rs). */
module ZkHooks {
  import opened Wrappers
  import opened ContractState
  import ControlPlane

  const MAX_METADATA_ENTRIES: nat := 16
  const MAX_METADATA_VALUE_BYTES: nat := 256

  predicate MetadataFits(metadata: map<string, seq<Byte>>) {
    |metadata| <= MAX_METADATA_ENTRIES && forall k :: k in metadata ==> |metadata[k]| <= MAX_METADATA_VALUE_BYTES
  }

  function ValidateCurrentStateRoot(st: Storage, root: Hash): Result<(), Error> {
    var last :- ReadU64(st, SEQ, 0);
    var head :- ReadHash(st, PREV_H);
    Need(last != 0 && head == root, StateRootMismatch)
  }

  /** The checks of a registration. */
  function Admissible(st: Storage, ctx: Context, caller: Address, root: Hash, proofHash: Hash,
                      metadata: map<string, seq<Byte>>): Result<(), Error> {
    var _ :- RequireAdmin(st, ctx, caller);
    var _ :- ValidateCurrentStateRoot(st, root);
    var _ :- Need(proofHash != ZERO_HASH, InvalidProofHash);
    Need(MetadataFits(metadata), MetadataTooLarge)
  }

  function IncrementProofCount(st: Storage): Result<Storage, Error> {
    var count :- ReadU64(st, ZK_COUNT, 0);
    if count == U64_MAX then Err(ArithmeticOverflow) else Ok(st[ZK_COUNT := U64Val(count + 1)])
  }

  /** The proof and its attestation, under the root they are for. */
  function Stored(s: State, attestation: Attestation): State {
    s.(proofs := s.proofs[attestation.stateRoot := attestation.proofHash],
       attestations := s.attestations[attestation.stateRoot := attestation])
  }

  function RegisterProof(s: State, ctx: Context, caller: Address, root: Hash, proofHash: Hash, blockSeq: U32,
                         metadata: map<string, seq<Byte>>): Result<State, Error> {
    var _ :- EnterGuard(s);
    var _ :- Admissible(s.instance, ctx, caller, root, proofHash, metadata);
    var counted :- IncrementProofCount(s.instance);
    Ok(Stored(s, Attestation(root, proofHash, blockSeq, ctx.ledger, metadata)).(instance := counted))
  }

  datatype Call = Register(caller: Address, root: Hash, proofHash: Hash, blockSeq: U32, metadata: map<string, seq<Byte>>)

  function Apply(s: State, ctx: Context, call: Call): Result<State, Error> {
    RegisterProof(s, ctx, call.caller, call.root, call.proofHash, call.blockSeq, call.metadata)
  }

  const KEYS := {ZK_COUNT}

  ghost predicate OwnTypes(st: Storage) {
    ZK_COUNT in st ==> st[ZK_COUNT].U64Val?
  }

  lemma Frame(s: State, ctx: Context, call: Call, k: Symbol)
    requires Apply(s, ctx, call).Ok? && k !in KEYS
    ensures SameAt(s.instance, Apply(s, ctx, call).value.instance, k)
  {
  }

  lemma KeepsTypes(s: State, ctx: Context, call: Call)
    requires OwnTypes(s.instance) && ControlPlane.AllTypes(s.instance)
    ensures var r := Apply(s, ctx, call);
            if r.Ok? then OwnTypes(r.value.instance) else r.error != WrongType
  {
  }
}
