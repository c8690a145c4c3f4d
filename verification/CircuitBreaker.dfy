/** The emergency switch (engine-core/src/circuit_breaker.rs). */
module CircuitBreaker {
  import opened Wrappers
  import opened ContractState

  function Init(s: State, guardians: seq<Address>): Result<State, Error> {
    var _ :- Need(CB_GUARD !in s.instance, BreakerInitialized);
    var _ :- Need(guardians != [] && NoRepeats(guardians), InvalidGuardianSet);
    Ok(s.(instance := s.instance[CB_STATE := BreakerVal(false)][CB_GUARD := AddressesVal(guardians)]))
  }

  function RequireGuardian(st: Storage, caller: Address): Result<(), Error> {
    var guardians :- ReadAddresses(st, CB_GUARD);
    Need(caller in guardians, NotGuardian)
  }

  function SetState(s: State, open: bool): Result<State, Error> {
    var current :- ReadBreaker(s.instance);
    var _ :- Need(current != open, AlreadyInState);
    Ok(s.(instance := s.instance[CB_STATE := BreakerVal(open)]))
  }

  /** `trip` and `reset`: a guardian opens or closes the breaker. */
  function Switch(s: State, ctx: Context, guardian: Address, open: bool): Result<State, Error> {
    var _ :- EnterGuard(s);
    var _ :- RequireAuth(ctx, guardian);
    var _ :- RequireGuardian(s.instance, guardian);
    SetState(s, open)
  }

  datatype Call = Trip(guardian: Address) | Reset(guardian: Address)

  function Apply(s: State, ctx: Context, call: Call): Result<State, Error> {
    Switch(s, ctx, call.guardian, call.Trip?)
  }

  const KEYS := {CB_STATE, CB_GUARD}

  ghost predicate OwnTypes(st: Storage) {
    (CB_STATE in st ==> st[CB_STATE].BreakerVal?) && (CB_GUARD in st ==> st[CB_GUARD].AddressesVal?)
  }

  lemma Frame(s: State, ctx: Context, call: Call, k: Symbol)
    requires Apply(s, ctx, call).Ok? && k != CB_STATE
    ensures SameAt(s.instance, Apply(s, ctx, call).value.instance, k)
  {
  }

  lemma KeepsTypes(s: State, ctx: Context, call: Call)
    requires OwnTypes(s.instance)
    ensures var r := Apply(s, ctx, call);
            if r.Ok? then OwnTypes(r.value.instance) else r.error != WrongType
  {
  }
}
