/** What the parameter getter answers over whole runs (engine-core/src/core/control_plane.rs). */
module ParameterRuns {
  import opened Wrappers
  import opened ContractState
  import opened Protocol
  import opened AuditRuns
  import Audit
  import ControlPlane
  import UpgradeProxy

  /** `get_param`: a value of another type traps. */
  function GetParam(st: Storage, k: Symbol): Result<Option<U64>, Error> {
    if k !in st then Ok(None) else if st[k].U64Val? then Ok(Some(st[k].u64)) else Err(WrongType)
  }

  // ----- the history of one parameter, read off the trace alone -----

  /** What an update writes under this key, if it names it. */
  function WrittenFor(call: ControlPlane.Call, k: Symbol): Option<U64> {
    match call
    case Set(_, key, v, _, _) => if key == k then Some(v) else None
    case SetMany(_, params, _, _) => ControlPlane.LastFor(params, k)
    case _ => None
  }

  predicate Writes(d: Deployment, t: Trace, k: Symbol) {
    Updates(d, t) && WrittenFor(t.tx.call.admin, k).Some?
  }

  /** The value of the last accepted update that named this key. */
  function LastWritten(d: Deployment, t: Trace, k: Symbol): Option<U64> {
    if t.Genesis? then None
    else if Writes(d, t, k) then WrittenFor(t.tx.call.admin, k)
    else LastWritten(d, t.past, k)
  }

  lemma UpdateWrites(sha: Digest, s: State, ctx: Context, call: ControlPlane.Call, k: Symbol)
    requires ControlPlane.Apply(sha, s, ctx, call).Ok? && WrittenFor(call, k).Some? && k != P_COUNT && k != LASTPAR
    ensures var st := ControlPlane.Apply(sha, s, ctx, call).value.instance;
            k in st && st[k] == U64Val(WrittenFor(call, k).value)
  {
    if call.SetMany? {
      ControlPlane.WriteAllIsLast(
        Audit.ValidateTransitionInner(sha, s, call.commitment, call.digest).value.instance, call.params, k);
    }
  }

  /** A key that only its own updates and initialisation write, and no update just did. */
  lemma NotWritten(d: Deployment, t: Trace, k: Symbol)
    requires t.Then? && !Writes(d, t, k) && !Starts(d, t) && (k.Named? || k.CP_INIT?)
    ensures SameAt(StorageAt(d, t.past), StorageAt(d, t), k)
  {
    if Accepted(d, t) {
      CommitFrame(d.sha, After(d, t.past), t.tx, k);
    }
  }

  /** In every run a parameter reads as the value of the last accepted update that named it. */
  lemma {:induction false} ParameterIsLastWritten(d: Deployment, t: Trace, name: string)
    requires d.Blank()
    ensures GetParam(StorageAt(d, t), Named(name)) == Ok(LastWritten(d, t, Named(name)))
  {
    if t.Then? {
      ParameterIsLastWritten(d, t.past, name);
      if Writes(d, t, Named(name)) {
        UpdateWrites(d.sha, After(d, t.past), t.tx.ctx, t.tx.call.admin, Named(name));
      } else if Starts(d, t) {
        CommitFrame(d.sha, After(d, t.past), t.tx, Named(name));
      } else {
        NotWritten(d, t, Named(name));
      }
    }
  }

  // ----- what the getter may be asked for -----

  /** The note of the last parameter was last written by a batch that named it as one. */
  predicate NotedByBatch(d: Deployment, t: Trace) {
    t.Then? &&
    if Updates(d, t) && t.tx.call.admin.Set? then false
    else Writes(d, t, LASTPAR) || NotedByBatch(d, t.past)
  }

  /** The key of a number: a parameter, a counter, or an engine key that an update was the last to write. */
  predicate Numeric(d: Deployment, t: Trace, k: Symbol) {
    match k
    case Named(_) => true
    case SEQ => true
    case P_COUNT => true
    case ZK_COUNT => true
    case PROTO_ST => Clobbered(d, t)
    case CP_INIT => LastWritten(d, t, CP_INIT).Some?
    case LASTPAR => NotedByBatch(d, t)
    case _ => false
  }

  lemma {:induction false} InitialisedMark(d: Deployment, t: Trace)
    requires d.Blank()
    ensures var st := StorageAt(d, t);
            if LastWritten(d, t, CP_INIT).Some? then CP_INIT in st && st[CP_INIT].U64Val?
            else CP_INIT in st ==> st[CP_INIT].BoolVal?
  {
    if t.Then? {
      InitialisedMark(d, t.past);
      if Writes(d, t, CP_INIT) {
        UpdateWrites(d.sha, After(d, t.past), t.tx.ctx, t.tx.call.admin, CP_INIT);
      } else if !Starts(d, t) {
        NotWritten(d, t, CP_INIT);
      }
    }
  }

  lemma NoteWrites(sha: Digest, s: State, ctx: Context, call: ControlPlane.Call)
    requires (call.Set? || call.SetMany?) && ControlPlane.Apply(sha, s, ctx, call).Ok?
    ensures var st := ControlPlane.Apply(sha, s, ctx, call).value.instance;
            if call.Set? then LASTPAR in st && st[LASTPAR].SymbolVal?
            else if WrittenFor(call, LASTPAR).Some? then LASTPAR in st && st[LASTPAR].U64Val?
            else SameAt(s.instance, st, LASTPAR)
  {
    if call.SetMany? {
      ControlPlane.WriteAllIsLast(
        Audit.ValidateTransitionInner(sha, s, call.commitment, call.digest).value.instance, call.params, LASTPAR);
    }
  }

  lemma {:induction false} NotedParameter(d: Deployment, t: Trace)
    requires d.Blank()
    ensures var st := StorageAt(d, t); NotedByBatch(d, t) <==> LASTPAR in st && st[LASTPAR].U64Val?
  {
    if t.Then? {
      NotedParameter(d, t.past);
      if Updates(d, t) {
        NoteWrites(d.sha, After(d, t.past), t.tx.ctx, t.tx.call.admin);
      } else if Accepted(d, t) {
        CommitFrame(d.sha, After(d, t.past), t.tx, LASTPAR);
      }
    }
  }

  /** The reserved keys of components that are not part of this model: nothing here writes them. */
  const FOREIGN_KEYS := {SNAPC, SNAPL, OUTFLOWS, TR_ADMIN, C_INIT, C_ADMIN, C_OPERS, C_AUDIT}

  lemma {:induction false} ForeignKeysStayUnset(d: Deployment, t: Trace, k: Symbol)
    requires d.Blank() && k in FOREIGN_KEYS
    ensures k !in StorageAt(d, t)
  {
    if t.Then? {
      ForeignKeysStayUnset(d, t.past, k);
      CommitFrame(d.sha, After(d, t.past), t.tx, k);
    }
  }

  lemma {:induction false} GapHoldsNumbers(d: Deployment, t: Trace)
    requires d.Blank()
    ensures var st := StorageAt(d, t); GAP in st ==> st[GAP].NumbersVal?
  {
    if t.Then? {
      GapHoldsNumbers(d, t.past);
      if Accepted(d, t) && t.tx.call.Proxy? {
        UpgradeProxy.CommittedDid(d.sha, After(d, t.past), t.tx.ctx, t.tx.call.proxy);
      } else if Accepted(d, t) {
        CommitFrame(d.sha, After(d, t.past), t.tx, GAP);
      }
    }
  }

  /**
   * In every run the getter traps exactly on a key that is set and is neither a parameter's, nor a
   * counter's, nor one of the three engine keys that an update may write, and was the last to write.
   */
  lemma GetParamTrapsExactly(d: Deployment, t: Trace, k: Symbol)
    requires d.Blank()
    ensures GetParam(StorageAt(d, t), k) == Err(WrongType) <==> k in StorageAt(d, t) && !Numeric(d, t, k)
  {
    match k
    case Named(name) => ParameterIsLastWritten(d, t, name);
    case PROTO_ST => ClobberedIsStored(d, t);
    case CP_INIT => InitialisedMark(d, t);
    case LASTPAR => NotedParameter(d, t);
    case GAP => GapHoldsNumbers(d, t);
    case _ =>
      if k in FOREIGN_KEYS {
        ForeignKeysStayUnset(d, t, k);
      } else {
        RunIsWellTyped(d, t);
      }
  }
}
