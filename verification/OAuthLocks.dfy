/**
  The locks of `LockOrder` are those the store needs: whatever row of an account a
  call changes is one that the call's path has locked by then.
 */
module OAuthLocks {
  import opened Prelude
  import opened RequestCodec
  import opened OAuthTables
  import opened OAuthOperation
  import opened OAuthEffects
  import opened OAuthRuns
  import opened OAuthCalls
  import Order = LockOrder

  /** The path a call takes through the rows of these tables. A rotation and a revocation update all rows they match. */
  predicate Path(s: Shard, call: Call, action: Order.Action) {
    match call
    case CreateCode(signature, r, _) => action == Order.CreateCode(r.id, signature)
    case CreatePkce(signature, r, _) => action == Order.CreatePkce(r.id, signature)
    case CreateAccess(signature, r, _) => action == Order.CreateAccess(r.id, signature)
    case CreateRefresh(signature, access, r, _) => action == Order.CreateRefresh(r.id, access, signature)
    case InvalidateCode(signature) => LocksRow(s, Key(Code, signature), action)
    case DeletePkce(signature) => LocksRow(s, Key(Pkce, signature), action)
    case DeleteAccess(signature) => LocksRow(s, Key(Access, signature), action)
    case DeleteRefresh(signature) => LocksRow(s, Key(Refresh, signature), action)
    case Rotate(requestId, signature) =>
      && action.Rotate? && action.requestId == requestId && action.signature == signature
      && forall k :: k in s.creds && k.kind.Access? && s.creds[k].requestId == requestId ==> k.signature in action.accessSignatures
    case Revoke(requestId) =>
      && action.RevokeFamily? && action.requestId == requestId
      && forall k :: k in s.creds && s.creds[k].requestId == requestId ==> k.signature in action.signatures
    case ConsumeConsent(handle, session, _, _) => action == Order.UseConsent(session, handle)
    case _ => true
  }

  predicate LocksRow(s: Shard, k: Key, action: Order.Action) {
    k in s.creds ==> action == Order.LockCredential(s.creds[k].requestId, k.signature)
  }

  /** Every row that differs is locked. */
  ghost predicate Covers(s: Shard, t: Shard, locks: seq<Order.Resource>) {
    && (forall r :: r in t.grants && (r in s.grants ==> t.grants[r] != s.grants[r]) ==> Order.GrantRow(s.accountId, r) in locks)
    && (forall k :: k in t.creds && (k in s.creds ==> t.creds[k] != s.creds[k]) ==>
          Order.CredentialRow(s.accountId, k.signature) in locks)
    && (forall h :: h in t.consents && (h in s.consents ==> t.consents[h] != s.consents[h]) ==> Order.Consent(h) in locks)
  }

  lemma ListedIsLocked(a: int, signatures: seq<string>, signature: string)
    requires signature in signatures
    ensures Order.CredentialRow(a, signature) in Order.CredentialRows(a, signatures)
  {
    var i :| 0 <= i < |signatures| && signatures[i] == signature;
    assert Order.CredentialRows(a, signatures)[i] == Order.CredentialRow(a, signature);
  }

  lemma CreationsAreLocked(env: Env, o: Op, call: Call, fault: bool, action: Order.Action)
    requires Step(env, o, call, fault).1.err == NoError && Creates(call) && Path(o.tx, call, action)
    requires call.CreateCode? ==> o.ctx.binding.accountId == o.tx.accountId
    ensures Covers(o.tx, Step(env, o, call, fault).0.tx, Order.Locks(o.tx.accountId, action))
  {
    hide Step, RowMatches, GrantOpen;
    match call
    case CreateCode(_, _, _) => CodeCreated(env, o, call, fault);
    case CreatePkce(signature, _, _) => CredentialCreated(env, o, call, fault, Key(Pkce, signature));
    case CreateAccess(signature, _, _) => CredentialCreated(env, o, call, fault, Key(Access, signature));
    case CreateRefresh(signature, _, _, _) => CredentialCreated(env, o, call, fault, Key(Refresh, signature));
    case _ =>
  }

  lemma RotationIsLocked(env: Env, o: Op, call: Call, fault: bool, action: Order.Action)
    requires Step(env, o, call, fault).1.err == NoError && call.Rotate? && Path(o.tx, call, action)
    ensures Covers(o.tx, Step(env, o, call, fault).0.tx, Order.Locks(o.tx.accountId, action))
  {
    hide Step;
    Rotated(env, o, call, fault);
    forall signature | signature in action.accessSignatures
      ensures Order.CredentialRow(o.tx.accountId, signature) in Order.Locks(o.tx.accountId, action)
    {
      ListedIsLocked(o.tx.accountId, action.accessSignatures, signature);
    }
  }

  lemma RevocationIsLocked(env: Env, o: Op, call: Call, fault: bool, action: Order.Action)
    requires Step(env, o, call, fault).1.err == NoError && call.Revoke? && Path(o.tx, call, action)
    ensures Covers(o.tx, Step(env, o, call, fault).0.tx, Order.Locks(o.tx.accountId, action))
  {
    hide Step;
    FamilyGoes(env, o, call, fault);
    forall signature | signature in action.signatures
      ensures Order.CredentialRow(o.tx.accountId, signature) in Order.Locks(o.tx.accountId, action)
    {
      ListedIsLocked(o.tx.accountId, action.signatures, signature);
    }
  }

  lemma MarksAreLocked(env: Env, o: Op, call: Call, fault: bool, action: Order.Action)
    requires Step(env, o, call, fault).1.err == NoError && Path(o.tx, call, action)
    requires call.InvalidateCode? || call.DeletePkce? || call.DeleteAccess? || call.DeleteRefresh? || call.ConsumeConsent?
    ensures Covers(o.tx, Step(env, o, call, fault).0.tx, Order.Locks(o.tx.accountId, action))
  {
    hide Step;
    match call
    case InvalidateCode(signature) => UsedOnce(env, o, call, fault, Key(Code, signature));
    case DeletePkce(signature) => UsedOnce(env, o, call, fault, Key(Pkce, signature));
    case DeleteAccess(signature) => TokenRevoked(env, o, call, fault, Key(Access, signature));
    case DeleteRefresh(signature) => TokenRevoked(env, o, call, fault, Key(Refresh, signature));
    case ConsumeConsent(_, _, _, _) => ConsentSpent(env, o, call, fault);
    case _ =>
  }

  /** Whatever rows a call changes, other than by rolling back, its path has locked. */
  lemma ChangesAreLocked(env: Env, o: Op, call: Call, fault: bool, action: Order.Action)
    requires Path(o.tx, call, action) && !call.RollbackSavepoint?
    requires call.CreateCode? ==> o.ctx.binding.accountId == o.tx.accountId
    ensures Covers(o.tx, Step(env, o, call, fault).0.tx, Order.Locks(o.tx.accountId, action))
  {
    hide Step, Path, Covers;
    if Step(env, o, call, fault).1.err != NoError {
      RefusedChangesNothing(env, o, call, fault);
      SameIsCovered(o.tx, Order.Locks(o.tx.accountId, action));
    } else if Creates(call) {
      CreationsAreLocked(env, o, call, fault, action);
    } else if call.Rotate? {
      RotationIsLocked(env, o, call, fault, action);
    } else if call.Revoke? {
      RevocationIsLocked(env, o, call, fault, action);
    } else if call.InvalidateCode? || call.DeletePkce? || call.DeleteAccess? || call.DeleteRefresh? || call.ConsumeConsent? {
      MarksAreLocked(env, o, call, fault, action);
    } else {
      ReadsChangeNothing(env, o, call, fault);
      SameIsCovered(o.tx, Order.Locks(o.tx.accountId, action));
    }
  }

  lemma SameIsCovered(s: Shard, locks: seq<Order.Resource>)
    ensures Covers(s, s, locks)
  {
  }

  lemma ReadsChangeNothing(env: Env, o: Op, call: Call, fault: bool)
    requires call.GetCode? || call.GetPkce? || call.GetAccess? || call.GetRefresh? || call.BeginSavepoint? || call.CommitSavepoint?
    ensures Step(env, o, call, fault).0.tx == o.tx
  {
    hide Step, Allowed;
    var e := Classify(env, o, call, fault);
  }
}
