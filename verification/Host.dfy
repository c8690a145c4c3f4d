/** The environment a contract call runs in: storage that the call writes step by step (engine-core/src/guards.rs). */
module Host {
  import opened Wrappers
  import opened ContractState

  class Env {
    const sha: Digest
    var instance: Storage
    var locked: bool
    var proofs: map<Hash, Hash>
    var attestations: map<Hash, Attestation>
    var wasm: Hash
    var balances: map<Address, map<Address, int>>
    var transfers: seq<Transfer>

    constructor (sha: Digest, initial: State)
      ensures this.sha == sha && Now() == initial
    {
      this.sha := sha;
      instance, locked, proofs, attestations := initial.instance, initial.locked, initial.proofs, initial.attestations;
      wasm, balances, transfers := initial.wasm, initial.balances, initial.transfers;
    }

    function Now(): State
      reads this
    {
      State(instance, locked, proofs, attestations, wasm, balances, transfers)
    }

    /** What the host does when a call panics. */
    method RollBack(snapshot: State)
      modifies this
      ensures Now() == snapshot
    {
      instance, locked := snapshot.instance, snapshot.locked;
      proofs, attestations := snapshot.proofs, snapshot.attestations;
      wasm, balances, transfers := snapshot.wasm, snapshot.balances, snapshot.transfers;
    }

    method EnterReentrancyGuard() returns (r: Result<(), Error>)
      modifies this`locked
      ensures locked && r == EnterGuard(old(Now()))
    {
      if locked {
        return Err(ReentrancyDetected);
      }
      locked := true;
      r := Ok(());
    }

    method ExitReentrancyGuard()
      modifies this`locked
      ensures !locked
    {
      locked := false;
    }

    method Put(k: Symbol, v: Val)
      modifies this`instance
      ensures instance == old(instance)[k := v]
    {
      instance := instance[k := v];
    }

    /** A payment by the contract. */
    method Pay(token: Address, to: Address, amount: int) returns (r: Result<(), Error>)
      modifies this`balances, this`transfers
      ensures Matches(TokenTransfer(old(Now()), token, Contract, to, amount), r, Now())
    {
      r := Move(token, Contract, to, amount);
    }

    method Move(token: Address, from: Address, to: Address, amount: int) returns (r: Result<(), Error>)
      modifies this`balances, this`transfers
      ensures Matches(TokenTransfer(old(Now()), token, from, to, amount), r, Now())
    {
      if amount < 0 || BalanceOf(Now(), token, from) < amount {
        return Err(TransferTrapped);
      }
      balances := balances[token := Moved(Holdings(Now(), token), from, to, amount)];
      transfers := transfers + [Transfer(token, from, to, amount)];
      r := Ok(());
    }
  }

  /** A call ended as specified: it returned and left the specified state, or it panicked with the specified error. */
  predicate Matches<T>(spec: Result<State, Error>, r: Result<T, Error>, now: State) {
    match spec
    case Ok(s) => r.Ok? && now == s
    case Err(e) => r.Err? && r.error == e
  }
}
