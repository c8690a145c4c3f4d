/** Who opens and closes the emergency switch, over whole runs (engine-core/src/circuit_breaker.rs). */
module BreakerRuns {
  import opened Wrappers
  import opened ContractState
  import opened Protocol
  import CircuitBreaker
  import ControlPlane

  /** A breaker that is set up has guardians. */
  ghost predicate Guarded(st: Storage) {
    CB_STATE in st ==> CB_GUARD in st && st[CB_GUARD].AddressesVal? && st[CB_GUARD].addresses != []
  }

  predicate Switches(d: Deployment, t: Trace) {
    Accepted(d, t) && t.tx.call.Breaker?
  }

  predicate SetsUp(d: Deployment, t: Trace) {
    Accepted(d, t) && t.tx.call.Admin? && t.tx.call.admin.EstablishBreaker?
  }

  /** A breaker call is signed by a guardian, and turns a closed breaker open or an open one closed. */
  lemma SwitchIsGuarded(s: State, ctx: Context, call: CircuitBreaker.Call)
    requires CircuitBreaker.Apply(s, ctx, call).Ok?
    ensures var v := CircuitBreaker.Apply(s, ctx, call).value;
            && call.guardian in ctx.auths
            && CB_GUARD in s.instance && s.instance[CB_GUARD].AddressesVal?
            && call.guardian in s.instance[CB_GUARD].addresses
            && Open(v.instance) == call.Trip?
            && SameAt(s.instance, v.instance, CB_GUARD)
  {
  }

  /** It is set up closed, with guardians, where there were none. */
  lemma SetUpIsGuarded(sha: Digest, s: State, ctx: Context, call: ControlPlane.Call)
    requires call.EstablishBreaker? && ControlPlane.Apply(sha, s, ctx, call).Ok?
    ensures var st := ControlPlane.Apply(sha, s, ctx, call).value.instance;
            Guarded(st) && !Open(st) && CB_GUARD !in s.instance
  {
  }

  /** No other call touches the breaker. */
  lemma OthersLeaveBreaker(d: Deployment, t: Trace)
    requires t.Then? && !Switches(d, t) && !SetsUp(d, t)
    ensures SameAt(StorageAt(d, t.past), StorageAt(d, t), CB_STATE)
    ensures SameAt(StorageAt(d, t.past), StorageAt(d, t), CB_GUARD)
  {
    if Accepted(d, t) {
      ControlPlane.ReservedExactly(CB_STATE);
      ControlPlane.ReservedExactly(CB_GUARD);
      CommitFrame(d.sha, After(d, t.past), t.tx, CB_STATE);
      CommitFrame(d.sha, After(d, t.past), t.tx, CB_GUARD);
    }
  }

  lemma {:induction false} RunIsGuarded(d: Deployment, t: Trace)
    requires d.Blank()
    ensures Guarded(StorageAt(d, t))
  {
    if t.Then? {
      RunIsGuarded(d, t.past);
      if Switches(d, t) {
        SwitchIsGuarded(After(d, t.past), t.tx.ctx, t.tx.call.breaker);
      } else if SetsUp(d, t) {
        SetUpIsGuarded(d.sha, After(d, t.past), t.tx.ctx, t.tx.call.admin);
      } else {
        OthersLeaveBreaker(d, t);
      }
    }
  }

  /** In every run the breaker opens only when a guardian trips it, and closes only when a guardian resets it. */
  lemma BreakerMovesByGuardian(d: Deployment, t: Trace)
    requires d.Blank() && t.Then? && Open(StorageAt(d, t)) != Open(StorageAt(d, t.past))
    ensures Switches(d, t) && t.tx.call.breaker.Trip? == Open(StorageAt(d, t))
    ensures var st := StorageAt(d, t.past);
            && CB_GUARD in st && st[CB_GUARD].AddressesVal?
            && t.tx.call.breaker.guardian in st[CB_GUARD].addresses && t.tx.call.breaker.guardian in t.tx.ctx.auths
  {
    RunIsGuarded(d, t.past);
    if Switches(d, t) {
      SwitchIsGuarded(After(d, t.past), t.tx.ctx, t.tx.call.breaker);
    } else if SetsUp(d, t) {
      SetUpIsGuarded(d.sha, After(d, t.past), t.tx.ctx, t.tx.call.admin);
    } else {
      OthersLeaveBreaker(d, t);
    }
  }

  lemma ResetCommits(s: State, ctx: Context, guardian: Address)
    requires !s.locked && Open(s.instance) && guardian in ctx.auths
    requires CB_GUARD in s.instance && s.instance[CB_GUARD].AddressesVal? && guardian in s.instance[CB_GUARD].addresses
    ensures var r := CircuitBreaker.Apply(s, ctx, CircuitBreaker.Reset(guardian)); r.Ok? && !Open(r.value.instance)
  {
  }

  /** The same trace, with the breaker closed at its end, if need be by a guardian: there always is one. */
  lemma WithBreakerClosed(d: Deployment, t: Trace) returns (u: Trace)
    requires d.Blank() && Ordered(t)
    ensures Extends(t, u) && Ordered(u) && LastLedger(u) == LastLedger(t) && !Open(StorageAt(d, u))
    ensures u == t || (u.Then? && u.past == t && u.tx.call.Breaker?)
  {
    u := t;
    if Open(StorageAt(d, t)) {
      RunIsGuarded(d, t);
      GuardIsFreeBetween(d, t);
      var guardian := StorageAt(d, t)[CB_GUARD].addresses[0];
      var ctx := Context(LastLedger(t), {guardian});
      ResetCommits(After(d, t), ctx, guardian);
      u := Then(t, Tx(ctx, Breaker(CircuitBreaker.Reset(guardian))));
    }
  }
}
