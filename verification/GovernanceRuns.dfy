/** What governance guarantees over whole runs of the contract (engine-core/src/governance.rs, upgrade.rs). */
module GovernanceRuns {
  import opened ContractState
  import opened Protocol
  import opened Governance
  import opened BreakerRuns
  import UpgradeProxy

  function ViewAt(d: Deployment, t: Trace): View {
    ViewOf(After(d, t).instance)
  }

  predicate Endorses(d: Deployment, t: Trace, id: U64) {
    Accepted(d, t) && t.tx.call.Gov? && t.tx.call.gov.Endorse? && t.tx.call.gov.id == id
  }

  predicate Executes(d: Deployment, t: Trace, id: U64) {
    Accepted(d, t) && t.tx.call.Gov?
    && (t.tx.call.gov.Perform? || t.tx.call.gov.Install?) && t.tx.call.gov.id == id
  }

  predicate Submits(d: Deployment, t: Trace, id: U64) {
    Accepted(d, t) && t.tx.call.Gov? && t.tx.call.gov.Submit? && t.tx.call.gov.proposal.id == id
  }

  // ----- the history of one proposal, read off the trace alone -----

  /** Who approved it, in order. */
  function Approvals(d: Deployment, t: Trace, id: U64): seq<Address> {
    if t.Genesis? then [] else Approvals(d, t.past, id) + if Endorses(d, t, id) then [t.tx.call.gov.signer] else []
  }

  /** The ledger of its latest approval. */
  function LastApproval(d: Deployment, t: Trace, id: U64): U32 {
    if t.Genesis? then 0 else if Endorses(d, t, id) then t.tx.ctx.ledger else LastApproval(d, t.past, id)
  }

  function Executions(d: Deployment, t: Trace, id: U64): nat {
    if t.Genesis? then 0 else Executions(d, t.past, id) + if Executes(d, t, id) then 1 else 0
  }

  /** The action hash under which it was submitted. */
  function SubmittedHash(d: Deployment, t: Trace, id: U64): Hash {
    if t.Genesis? then ZERO_HASH
    else if Submits(d, t, id) then t.tx.call.gov.proposal.actionHash
    else SubmittedHash(d, t.past, id)
  }

  /**
   * Whenever it was submitted, approved or executed the breaker was closed, and whoever approved it had signed and
   * held the minimum stake in the stake token, where there is one.
   */
  predicate ProperlyHandled(d: Deployment, t: Trace, id: U64) {
    t.Then? ==>
      && ProperlyHandled(d, t.past, id)
      && (Submits(d, t, id) || Endorses(d, t, id) || Executes(d, t, id) ==> !ViewAt(d, t.past).open)
      && (Endorses(d, t, id)
          ==> t.tx.call.gov.signer in t.tx.ctx.auths && HoldsStake(After(d, t.past), t.tx.call.gov.signer))
  }

  /** Signers in strictly increasing order of their configured index. */
  ghost predicate Increasing(signers: seq<Address>, xs: seq<Address>) {
    && (forall i :: 0 <= i < |xs| ==> xs[i] in signers)
    && (forall i, j :: 0 <= i < j < |xs| ==> IndexIn(signers, xs[i]) < IndexIn(signers, xs[j]))
  }

  // ----- how the view moves -----

  lemma ViewMoves(d: Deployment, t: Trace)
    requires t.Then?
    ensures if Accepted(d, t) && t.tx.call.Gov?
            then Steps(ViewAt(d, t.past), t.tx.ctx, t.tx.call.gov, ViewAt(d, t))
            else ViewAt(d, t) == ViewAt(d, t.past).(open := ViewAt(d, t).open)
  {
    var s := After(d, t.past);
    if t.tx.call.Gov? {
      if Accepted(d, t) {
        CommittedSteps(s, t.tx.ctx, t.tx.call.gov);
      }
    } else {
      KeysAreApart(t.tx.call);
      OthersUnwritten(d.sha, s, t.tx, Governance.KEYS);
    }
  }

  // ----- the invariant -----

  ghost predicate Configured(v: View) {
    if v.established then NoRepeats(v.signers) && 0 < v.threshold <= |v.signers|
    else v.signers == [] && v.proposals == map[]
  }

  /** What the trace says about one proposal. */
  datatype History = History(approvals: seq<Address>, lastApproval: U32, executions: nat, hash: Hash)

  function HistoryOf(d: Deployment, t: Trace, id: U64): History {
    History(Approvals(d, t, id), LastApproval(d, t, id), Executions(d, t, id), SubmittedHash(d, t, id))
  }

  /** A stored proposal is what its history says. */
  ghost predicate Recorded(v: View, id: U64, h: History) {
    if id !in v.proposals then
      h.approvals == [] && h.executions == 0
    else
      var f := v.proposals[id];
      && f.proposal.actionHash == h.hash
      && f.proposal.approvedBy == h.approvals && Increasing(v.signers, h.approvals)
      && h.executions == (if f.proposal.state.Executed? then 1 else 0)
      && match f.proposal.state {
        case Pending => |h.approvals| < v.threshold
        case Approved => |h.approvals| == v.threshold && f.unlock == h.lastApproval + TIMELOCK_LEDGERS
        case Executed => |h.approvals| == v.threshold && f.unlock == h.lastApproval + TIMELOCK_LEDGERS
        case _ => false
      }
  }

  function HistoryNext(h: History, ctx: Context, call: Governance.Call, id: U64): History {
    match call
    case Submit(p) => if p.id == id then h.(hash := p.actionHash) else h
    case Endorse(signer, i) => if i == id then h.(approvals := h.approvals + [signer], lastApproval := ctx.ledger) else h
    case Perform(i) => if i == id then h.(executions := h.executions + 1) else h
    case Install(i, _) => if i == id then h.(executions := h.executions + 1) else h
    case _ => h
  }

  lemma OneMoreInOrder(signers: seq<Address>, xs: seq<Address>, who: Address)
    requires Increasing(signers, xs) && who in signers && InOrder(signers, xs, who)
    ensures Increasing(signers, xs + [who])
  {
  }

  lemma StepKeepsConfigured(v: View, ctx: Context, call: Governance.Call, w: View)
    requires Configured(v) && Steps(v, ctx, call, w)
    ensures Configured(w)
  {
  }

  lemma StepKeepsRecorded(v: View, ctx: Context, call: Governance.Call, w: View, id: U64, h: History)
    requires Configured(v) && Steps(v, ctx, call, w) && Recorded(v, id, h)
    ensures Recorded(w, id, HistoryNext(h, ctx, call, id))
  {
    if call.Endorse? && call.id == id {
      OneMoreInOrder(v.signers, h.approvals, call.signer);
    }
  }

  lemma HistoryMoves(d: Deployment, t: Trace, id: U64)
    requires t.Then?
    ensures HistoryOf(d, t, id) ==
            if Accepted(d, t) && t.tx.call.Gov? then HistoryNext(HistoryOf(d, t.past, id), t.tx.ctx, t.tx.call.gov, id)
            else HistoryOf(d, t.past, id)
  {
  }

  lemma {:induction false} RunIsProper(d: Deployment, t: Trace, id: U64)
    ensures ProperlyHandled(d, t, id)
  {
    if t.Then? {
      RunIsProper(d, t.past, id);
      ViewMoves(d, t);
      if Endorses(d, t, id) {
        EndorserHoldsStake(After(d, t.past), t.tx.ctx, t.tx.call.gov.signer, id);
      }
    }
  }

  lemma {:induction false} RunIsRecorded(d: Deployment, t: Trace, id: U64)
    requires d.Blank()
    ensures Configured(ViewAt(d, t)) && Recorded(ViewAt(d, t), id, HistoryOf(d, t, id)) && ProperlyHandled(d, t, id)
  {
    RunIsProper(d, t, id);
    if t.Then? {
      RunIsRecorded(d, t.past, id);
      ViewMoves(d, t);
      HistoryMoves(d, t, id);
      if Accepted(d, t) && t.tx.call.Gov? {
        StepKeepsConfigured(ViewAt(d, t.past), t.tx.ctx, t.tx.call.gov, ViewAt(d, t));
        StepKeepsRecorded(ViewAt(d, t.past), t.tx.ctx, t.tx.call.gov, ViewAt(d, t), id, HistoryOf(d, t.past, id));
      }
    }
  }

  // ----- the guarantees -----

  lemma IncreasingIsDistinct(signers: seq<Address>, xs: seq<Address>)
    requires Increasing(signers, xs)
    ensures NoRepeats(xs)
  {
  }

  /**
   * In every run, whatever is executed was approved by exactly threshold distinct configured
   * signers, each of whom had signed and held the stake then; had not been executed before; had its
   * last approval at least 720 ledgers earlier; and was submitted, approved and executed with the
   * breaker closed.
   */
  lemma ExecutionIsJustified(d: Deployment, t: Trace, id: U64)
    requires d.Blank() && Executes(d, t, id)
    ensures var v, approvers := ViewAt(d, t.past), Approvals(d, t.past, id);
            && |approvers| == v.threshold > 0 && NoRepeats(approvers) && (forall a :: a in approvers ==> a in v.signers)
            && Executions(d, t.past, id) == 0
            && LastApproval(d, t.past, id) + 720 <= t.tx.ctx.ledger
            && ProperlyHandled(d, t, id)
  {
    RunIsRecorded(d, t.past, id);
    RunIsRecorded(d, t, id);
    ViewMoves(d, t);
    IncreasingIsDistinct(ViewAt(d, t.past).signers, Approvals(d, t.past, id));
  }

  /** A proposal is executed at most once in any run. */
  lemma ExecutedAtMostOnce(d: Deployment, t: Trace, id: U64)
    requires d.Blank()
    ensures Executions(d, t, id) <= 1
  {
    RunIsRecorded(d, t, id);
  }

  /** The proxy installed this code, and the stored admin signed for it. */
  predicate SwappedByAdmin(d: Deployment, t: Trace, wasm: Hash) {
    Swaps(d, t) && t.tx.call.proxy.wasm == wasm
    && var st := After(d, t.past).instance;
       ADMIN in st && st[ADMIN].AddressVal? && st[ADMIN].address in t.tx.ctx.auths
  }

  /**
   * The installed code changes only to the hash that a proposal executed by this very transaction
   * was submitted with, or to one the stored admin signed for at the proxy, which asks nobody else.
   */
  lemma CodeWasApproved(d: Deployment, t: Trace)
    requires d.Blank() && t.Then? && After(d, t).wasm != After(d, t.past).wasm
    ensures var wasm := After(d, t).wasm;
            || SwappedByAdmin(d, t, wasm)
            || (t.tx.call.Gov? && t.tx.call.gov.Install? && Executes(d, t, t.tx.call.gov.id)
                && wasm == SubmittedHash(d, t.past, t.tx.call.gov.id))
  {
    CommitSurroundings(d.sha, After(d, t.past), t.tx);
    if t.tx.call.Proxy? {
      UpgradeProxy.CommittedDid(d.sha, After(d, t.past), t.tx.ctx, t.tx.call.proxy);
    } else {
      InstallWasApproved(d, t);
    }
  }

  lemma InstallWasApproved(d: Deployment, t: Trace)
    requires d.Blank() && Accepted(d, t) && t.tx.call.Gov? && t.tx.call.gov.Install?
    ensures Executes(d, t, t.tx.call.gov.id) && After(d, t).wasm == SubmittedHash(d, t.past, t.tx.call.gov.id)
  {
    GovSurroundings(After(d, t.past), t.tx.ctx, t.tx.call.gov);
    ViewMoves(d, t);
    RunIsRecorded(d, t.past, t.tx.call.gov.id);
  }

  predicate SameMembers(xs: seq<Address>, ys: seq<Address>) {
    (forall i :: 0 <= i < |xs| ==> xs[i] in ys) && (forall i :: 0 <= i < |ys| ==> ys[i] in xs)
  }

  lemma SameLast(signers: seq<Address>, xs: seq<Address>, ys: seq<Address>)
    requires Increasing(signers, xs) && Increasing(signers, ys) && SameMembers(xs, ys) && xs != []
    ensures ys != [] && xs[|xs| - 1] == ys[|ys| - 1]
  {
  }

  lemma ButLastSame(signers: seq<Address>, xs: seq<Address>, ys: seq<Address>)
    requires Increasing(signers, xs) && Increasing(signers, ys) && xs != [] && ys != []
    requires xs[|xs| - 1] == ys[|ys| - 1] && SameMembers(xs, ys)
    ensures Increasing(signers, xs[..|xs| - 1]) && Increasing(signers, ys[..|ys| - 1])
    ensures SameMembers(xs[..|xs| - 1], ys[..|ys| - 1])
  {
  }

  /** Two approval lists over the same signers with the same approvers are the same list. */
  lemma {:induction false} SameApproversSameOrder(signers: seq<Address>, xs: seq<Address>, ys: seq<Address>)
    requires Increasing(signers, xs) && Increasing(signers, ys) && SameMembers(xs, ys)
    ensures xs == ys
    decreases |xs|
  {
    if xs == [] {
      assert ys == [];
    } else {
      SameLast(signers, xs, ys);
      ButLastSame(signers, xs, ys);
      var xs', ys' := xs[..|xs| - 1], ys[..|ys| - 1];
      SameApproversSameOrder(signers, xs', ys');
      assert xs == xs' + [xs[|xs| - 1]];
      assert ys == ys' + [ys[|ys| - 1]];
    }
  }

  /** So two runs, of one deployment or two, in which the same signers approved recorded them identically. */
  lemma AuditTrailIsCanonical(d: Deployment, e: Deployment, t: Trace, u: Trace, id: U64)
    requires d.Blank() && e.Blank() && ViewAt(d, t).signers == ViewAt(e, u).signers
    requires id in ViewAt(d, t).proposals && id in ViewAt(e, u).proposals
    requires SameMembers(Approvals(d, t, id), Approvals(e, u, id))
    ensures ViewAt(d, t).proposals[id].proposal.approvedBy == ViewAt(e, u).proposals[id].proposal.approvedBy
  {
    RunIsRecorded(d, t, id);
    RunIsRecorded(e, u, id);
    SameApproversSameOrder(ViewAt(d, t).signers, Approvals(d, t, id), Approvals(e, u, id));
  }

  // ----- which pending proposals can still pass -----

  predicate PendingIn(v: View, id: U64) {
    id in v.proposals && v.proposals[id].proposal.state.Pending?
  }

  predicate ApprovedIn(v: View, id: U64) {
    id in v.proposals && v.proposals[id].proposal.state.Approved?
  }

  /** The index the next approval must reach at least. */
  function NextIndex(v: View, id: U64): nat
    requires PendingIn(v, id)
  {
    var approvedBy := v.proposals[id].proposal.approvedBy;
    if approvedBy == [] then 0 else IndexIn(v.signers, approvedBy[|approvedBy| - 1]) + 1
  }

  /** Enough signers come after the last approver. */
  predicate CanStillPass(v: View, id: U64)
    requires PendingIn(v, id)
  {
    |v.signers| - NextIndex(v, id) >= v.threshold - |v.proposals[id].proposal.approvedBy|
  }

  /** The timelock of a quorum reached now or later would still fit a ledger number. */
  predicate InTime(t: Trace) {
    LastLedger(t) + TIMELOCK_LEDGERS <= U32_MAX
  }

  lemma EndorsingKeepsBlocked(v: View, ctx: Context, call: Governance.Call, w: View, id: U64, h: History)
    requires Configured(v) && Steps(v, ctx, call, w) && Recorded(v, id, h) && PendingIn(v, id)
    requires call.Endorse? && call.id == id
    ensures !CanStillPass(v, id) ==> PendingIn(w, id) && !CanStillPass(w, id)
  {
  }

  lemma StepKeepsBlocked(v: View, ctx: Context, call: Governance.Call, w: View, id: U64, h: History)
    requires Configured(v) && Steps(v, ctx, call, w) && Recorded(v, id, h) && PendingIn(v, id)
    ensures !CanStillPass(v, id) ==> PendingIn(w, id) && !CanStillPass(w, id)
    ensures ctx.ledger + TIMELOCK_LEDGERS > U32_MAX ==> PendingIn(w, id)
  {
    if call.Endorse? && call.id == id {
      EndorsingKeepsBlocked(v, ctx, call, w, id, h);
    } else {
      assert w.proposals[id] == v.proposals[id] && w.signers == v.signers && w.threshold == v.threshold;
    }
  }

  lemma {:induction false} StaysBlocked(d: Deployment, t: Trace, u: Trace, id: U64)
    requires d.Blank() && Ordered(u) && Extends(t, u) && PendingIn(ViewAt(d, t), id)
    requires !CanStillPass(ViewAt(d, t), id) || !InTime(t)
    ensures PendingIn(ViewAt(d, u), id) && (!CanStillPass(ViewAt(d, u), id) || !InTime(u))
  {
    if u != t {
      StaysBlocked(d, t, u.past, id);
      ViewMoves(d, u);
      RunIsRecorded(d, u.past, id);
      if Accepted(d, u) && u.tx.call.Gov? {
        StepKeepsBlocked(ViewAt(d, u.past), u.tx.ctx, u.tx.call.gov, ViewAt(d, u), id, HistoryOf(d, u.past, id));
      }
    }
  }

  /** The same trace, with the breaker closed at its end. */
  lemma ClosedHere(d: Deployment, t: Trace) returns (u: Trace)
    requires d.Blank() && Ordered(t)
    ensures Extends(t, u) && Ordered(u) && LastLedger(u) == LastLedger(t)
    ensures ViewAt(d, u) == ViewAt(d, t).(open := false)
  {
    u := WithBreakerClosed(d, t);
    if u != t {
      ViewMoves(d, u);
    }
  }

  lemma NextSignerMayEndorse(v: View, ledger: U32, id: U64, h: History)
    requires Configured(v) && Recorded(v, id, h) && !v.open && PendingIn(v, id)
    requires CanStillPass(v, id) && ledger + TIMELOCK_LEDGERS <= U32_MAX
    ensures var next := NextIndex(v, id);
            && next < |v.signers| && IndexIn(v.signers, v.signers[next]) == next
            && MayEndorse(v, Context(ledger, {v.signers[next]}), v.signers[next], id)
  {
  }

  /** The next signer in order approves, right now. */
  lemma EndorsedNext(d: Deployment, t: Trace, id: U64) returns (u: Trace)
    requires d.Blank() && !ViewAt(d, t).open && ViewAt(d, t).minStake == 0
    requires PendingIn(ViewAt(d, t), id) && CanStillPass(ViewAt(d, t), id) && InTime(t)
    ensures u.Then? && u.past == t && LastLedger(u) == LastLedger(t)
    ensures var v, w := ViewAt(d, t), ViewAt(d, u);
            && !w.open && w.minStake == 0 && w.signers == v.signers
            && (ApprovedIn(w, id)
                || (PendingIn(w, id) && CanStillPass(w, id) && NextIndex(w, id) == NextIndex(v, id) + 1))
  {
    var v := ViewAt(d, t);
    RunIsRecorded(d, t, id);
    NextSignerMayEndorse(v, LastLedger(t), id, HistoryOf(d, t, id));
    var signer := v.signers[NextIndex(v, id)];
    u := Then(t, Tx(Context(LastLedger(t), {signer}), Gov(Governance.Endorse(signer, id))));
    RunIsWellTyped(d, t);
    GuardIsFreeBetween(d, t);
    AllowedEndorsementCommits(After(d, t), u.tx.ctx, signer, id);
    ViewMoves(d, u);
  }

  lemma {:induction false} ReachApproval(d: Deployment, t: Trace, id: U64) returns (u: Trace)
    requires d.Blank() && Ordered(t) && !ViewAt(d, t).open && ViewAt(d, t).minStake == 0
    requires PendingIn(ViewAt(d, t), id) && CanStillPass(ViewAt(d, t), id) && InTime(t)
    ensures Extends(t, u) && Ordered(u) && ApprovedIn(ViewAt(d, u), id)
    decreases |ViewAt(d, t).signers| - NextIndex(ViewAt(d, t), id)
  {
    u := EndorsedNext(d, t, id);
    if PendingIn(ViewAt(d, u), id) {
      var next := u;
      u := ReachApproval(d, next, id);
      ExtendsFurther(t, next, u);
    }
  }

  lemma PassesFromHere(d: Deployment, t: Trace, id: U64) returns (u: Trace)
    requires d.Blank() && Ordered(t) && ViewAt(d, t).minStake == 0
    requires PendingIn(ViewAt(d, t), id) && CanStillPass(ViewAt(d, t), id) && InTime(t)
    ensures Extends(t, u) && Ordered(u) && ApprovedIn(ViewAt(d, u), id)
  {
    var closed := ClosedHere(d, t);
    u := ReachApproval(d, closed, id);
    ExtendsFurther(t, closed, u);
  }

  lemma NeverPasses(d: Deployment, t: Trace, u: Trace, id: U64)
    requires d.Blank() && Ordered(u) && Extends(t, u) && PendingIn(ViewAt(d, t), id)
    requires !CanStillPass(ViewAt(d, t), id) || !InTime(t)
    ensures !ApprovedIn(ViewAt(d, u), id)
  {
    StaysBlocked(d, t, u, id);
  }

  /**
   * With the stake gate off, a pending proposal can reach Approved by some continuation of the
   * run exactly when the signers after its last approver are at least as many as the approvals it
   * still needs, and the timelock of a quorum still fits a ledger number.
   */
  lemma ApprovableExactly(d: Deployment, t: Trace, id: U64)
    requires d.Blank() && Ordered(t) && ViewAt(d, t).minStake == 0 && PendingIn(ViewAt(d, t), id)
    ensures (exists u :: Extends(t, u) && Ordered(u) && ApprovedIn(ViewAt(d, u), id))
            <==> CanStillPass(ViewAt(d, t), id) && InTime(t)
  {
    if CanStillPass(ViewAt(d, t), id) && InTime(t) {
      var u := PassesFromHere(d, t, id);
    } else if u :| Extends(t, u) && Ordered(u) && ApprovedIn(ViewAt(d, u), id) {
      NeverPasses(d, t, u, id);
    }
  }

  /** Once approved a proposal can be executed: its unlock ledger comes, and an open breaker can be reset. */
  lemma ApprovedCanExecute(d: Deployment, t: Trace, id: U64) returns (u: Trace)
    requires d.Blank() && Ordered(t) && ApprovedIn(ViewAt(d, t), id)
    ensures Extends(t, u) && Ordered(u) && Executes(d, u, id)
  {
    var closed := ClosedHere(d, t);
    var unlock := ViewAt(d, t).proposals[id].unlock;
    var ctx := Context(if unlock > LastLedger(t) then unlock else LastLedger(t), {});
    RunIsRecorded(d, closed, id);
    RunIsWellTyped(d, closed);
    GuardIsFreeBetween(d, closed);
    AllowedExecutionCommits(After(d, closed), ctx, id);
    u := Then(closed, Tx(ctx, Gov(Governance.Perform(id))));
  }

  lemma ExecutedWasApproved(d: Deployment, t: Trace, u: Trace, id: U64)
    requires d.Blank() && Ordered(u) && Extends(t, u) && PendingIn(ViewAt(d, t), id)
    requires !CanStillPass(ViewAt(d, t), id) || !InTime(t)
    ensures !Executes(d, u, id)
  {
    if Executes(d, u, id) {
      ViewMoves(d, u);
      RunIsRecorded(d, u.past, id);
      if u != t {
        StaysBlocked(d, t, u.past, id);
      }
    }
  }

  /**
   * With the stake gate off, a proposal that is pending or approved can be executed by some
   * continuation of the run exactly when it is approved, or can still be.
   */
  lemma ExecutableExactly(d: Deployment, t: Trace, id: U64)
    requires d.Blank() && Ordered(t) && ViewAt(d, t).minStake == 0
    requires PendingIn(ViewAt(d, t), id) || ApprovedIn(ViewAt(d, t), id)
    ensures (exists u :: Extends(t, u) && Ordered(u) && Executes(d, u, id))
            <==> ApprovedIn(ViewAt(d, t), id) || (CanStillPass(ViewAt(d, t), id) && InTime(t))
  {
    if ApprovedIn(ViewAt(d, t), id) {
      var u := ApprovedCanExecute(d, t, id);
    } else if CanStillPass(ViewAt(d, t), id) && InTime(t) {
      ApprovableExactly(d, t, id);
      var approved :| Extends(t, approved) && Ordered(approved) && ApprovedIn(ViewAt(d, approved), id);
      var u := ApprovedCanExecute(d, approved, id);
      ExtendsFurther(t, approved, u);
    } else if u :| Extends(t, u) && Ordered(u) && Executes(d, u, id) {
      ExecutedWasApproved(d, t, u, id);
    }
  }
}
