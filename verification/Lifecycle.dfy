/** The protocol's own phase, kept under a key that parameter updates may write (engine-core/src/core/state.rs). */
module Lifecycle {
  import opened Wrappers
  import opened ContractState

  datatype Phase = Pending | Active | Settled | Closed

  function FromU32(v: U32): Phase {
    if v == 1 then Active else if v == 2 then Settled else if v == 3 then Closed else Phase.Pending
  }

  function Number(p: Phase): U32 {
    match p
    case Pending => 0
    case Active => 1
    case Settled => 2
    case Closed => 3
  }

  predicate Allowed(from: Phase, to: Phase) {
    match (from, to)
    case (Pending, Active) => true
    case (Pending, Closed) => true
    case (Active, Settled) => true
    case (Active, Closed) => true
    case (Settled, Closed) => true
    case _ => false
  }

  function CurrentPhase(st: Storage): Result<Phase, Error> {
    var raw :- ReadU32(st, PROTO_ST, 0);
    Ok(FromU32(raw))
  }

  function TransitionTo(s: State, next: Phase): Result<State, Error> {
    var current :- CurrentPhase(s.instance);
    var _ :- Need(current != next, PhaseUnchanged);
    var _ :- Need(Allowed(current, next), InvalidTransition);
    Ok(s.(instance := s.instance[PROTO_ST := U32Val(Number(next))]))
  }

  datatype Call = Begin | MoveTo(next: Phase)

  function Apply(s: State, call: Call): Result<State, Error> {
    match call
    case Begin => Ok(s.(instance := s.instance[PROTO_ST := U32Val(Number(Phase.Pending))]))
    case MoveTo(next) => TransitionTo(s, next)
  }

  const KEYS := {PROTO_ST}

  /** A phase, or a number some parameter update put there. */
  ghost predicate OwnTypes(st: Storage) {
    PROTO_ST in st ==> st[PROTO_ST].U32Val? || st[PROTO_ST].U64Val?
  }

  lemma Frame(s: State, call: Call, k: Symbol)
    requires Apply(s, call).Ok? && k !in KEYS
    ensures SameAt(s.instance, Apply(s, call).value.instance, k)
  {
  }

  lemma TrapsExactly(s: State, call: Call)
    requires OwnTypes(s.instance)
    ensures Apply(s, call) == Err(WrongType) <==> call.MoveTo? && PROTO_ST in s.instance && s.instance[PROTO_ST].U64Val?
  {
  }

  /**
   * A move commits exactly when it goes forward, never skipping `Settled` but to close; nothing but the phase
   * changes.
   */
  lemma MovesForward(s: State, next: Phase)
    requires PROTO_ST in s.instance ==> s.instance[PROTO_ST].U32Val?
    ensures var r, p := Apply(s, MoveTo(next)), CurrentPhase(s.instance).value;
            && (r.Ok? <==> Number(p) < Number(next) && (next == Settled ==> p == Active))
            && (r.Ok? ==> CurrentPhase(r.value.instance) == Ok(next) && r.value.(instance := s.instance) == s)
            && (r.Err? ==> r.error == if p == next then PhaseUnchanged else InvalidTransition)
  {
  }
}
