/**
  What each store call means for a reader of the tables: which rows a success
  changes, in what state it found them, and that everything else stays.
 */
module OAuthCalls {
  import opened Prelude
  import opened RequestCodec
  import opened OAuthTables
  import opened OAuthOperation
  import opened OAuthEffects
  import opened OAuthRuns

  /** Only credentials and grants may differ. */
  predicate SameElsewhere(s: Shard, t: Shard) { t == s.(creds := t.creds, grants := t.grants) }

  ghost predicate SameRows(s: Shard, t: Shard, except: set<Key>) {
    forall k :: k !in except ==> (k in t.creds <==> k in s.creds) && (k in s.creds ==> t.creds[k] == s.creds[k])
  }

  ghost predicate SameGrants(s: Shard, t: Shard, except: set<string>) {
    forall r :: r !in except ==> (r in t.grants <==> r in s.grants) && (r in s.grants ==> t.grants[r] == s.grants[r])
  }

  /** A new live row of this kind, for this request, that the codec wrote for its grant. */
  predicate Fresh(env: Env, s: Shard, t: Shard, k: Key, requestId: string) {
    k !in s.creds && k in t.creds && Live(t.creds[k]) && t.creds[k].requestId == requestId && RowMatches(env, t, k, t.creds[k])
  }

  /** A call that does not succeed changes no row, unless it rolls a savepoint back. */
  lemma RefusedChangesNothing(env: Env, o: Op, call: Call, fault: bool)
    requires Step(env, o, call, fault).1.err != NoError && !call.RollbackSavepoint?
    ensures Step(env, o, call, fault).0.tx == o.tx
  {
    StepFlags(env, o, call, fault);
    hide Step;
  }

  /** A code comes with a new, open grant of its own. */
  lemma CodeCreated(env: Env, o: Op, call: Call, fault: bool)
    requires call.CreateCode? && Step(env, o, call, fault).1.err == NoError
    requires o.ctx.binding.accountId == o.tx.accountId
    ensures var t := Step(env, o, call, fault).0.tx;
      && call.request.id !in o.tx.grants && call.request.id in t.grants && t.grants[call.request.id].revoked.None?
      && Fresh(env, o.tx, t, Key(Code, call.signature), call.request.id)
      && SameElsewhere(o.tx, t) && SameRows(o.tx, t, {Key(Code, call.signature)}) && SameGrants(o.tx, t, {call.request.id})
  {
    var e := Classify(env, o, call, fault);
    assert o.tx.(accountId := o.ctx.binding.accountId) == o.tx;
    hide Step, Validate;
  }

  /** A PKCE row, access token or refresh token joins an open grant, whose retention only grows. */
  lemma CredentialCreated(env: Env, o: Op, call: Call, fault: bool, key: Key)
    requires Step(env, o, call, fault).1.err == NoError
    requires (call.CreatePkce? && key == Key(Pkce, call.signature)) || (call.CreateAccess? && key == Key(Access, call.signature))
          || (call.CreateRefresh? && key == Key(Refresh, call.signature))
    ensures var t := Step(env, o, call, fault).0.tx;
      && call.request.id in o.tx.grants && GrantOpen(env, o.ctx.binding, o.tx, o.tx.grants[call.request.id])
      && Fresh(env, o.tx, t, key, call.request.id)
      && SameElsewhere(o.tx, t) && SameRows(o.tx, t, {key}) && SameGrants(o.tx, t, {call.request.id})
      && call.request.id in t.grants
      && o.tx.grants[call.request.id].retainUntil <= t.grants[call.request.id].retainUntil
      && t.grants[call.request.id] == o.tx.grants[call.request.id].(retainUntil := t.grants[call.request.id].retainUntil)
      && (!call.CreatePkce? ==> t.creds[key].expiresAt <= t.grants[call.request.id].retainUntil)
  {
    var e := Classify(env, o, call, fault);
    hide Step, Validate;
  }

  /** A refresh token names the access token it was issued with, of the same grant. */
  lemma RefreshIsPaired(env: Env, o: Op, call: Call, fault: bool)
    requires call.CreateRefresh? && Step(env, o, call, fault).1.err == NoError
    ensures var t := Step(env, o, call, fault).0.tx;
      && Key(Refresh, call.signature) in t.creds
      && t.creds[Key(Refresh, call.signature)].access == Some(call.accessSignature)
      && Key(Access, call.accessSignature) in o.tx.creds
      && o.tx.creds[Key(Access, call.accessSignature)].requestId == call.request.id
      && !o.tx.creds[Key(Access, call.accessSignature)].revoked
  {
    hide Encode, Hydrate, LockGrant, WriteSnapshotMatches, StepCreateCode, StepCreatePkce, StepCreateAccess, StepGetCode,
      StepGetAccess, StepGetRefresh, StepGetPkce, StepConsume, StepDelete, StepRotate, StepRevoke, StepConsumeConsent;
  }

  /** A code or PKCE row is used once: it was live, it is consumed now, and nothing else changed. */
  lemma UsedOnce(env: Env, o: Op, call: Call, fault: bool, key: Key)
    requires Step(env, o, call, fault).1.err == NoError
    requires (call.InvalidateCode? && key == Key(Code, call.signature)) || (call.DeletePkce? && key == Key(Pkce, call.signature))
    ensures key in o.tx.creds && Live(o.tx.creds[key])
    ensures Step(env, o, call, fault).0.tx == o.tx.(creds := o.tx.creds[key := o.tx.creds[key].(consumed := true)])
  {
    var e := Classify(env, o, call, fault);
    hide Step, LockCredential;
  }

  /** Rotation uses a live refresh token of the request once and revokes the request's access tokens, and no other row. */
  lemma Rotated(env: Env, o: Op, call: Call, fault: bool)
    requires call.Rotate? && Step(env, o, call, fault).1.err == NoError
    ensures var t, key := Step(env, o, call, fault).0.tx, Key(Refresh, call.signature);
      && key in o.tx.creds && Live(o.tx.creds[key]) && o.tx.creds[key].requestId == call.requestId
      && t == o.tx.(creds := t.creds) && t.creds.Keys == o.tx.creds.Keys
      && t.creds[key] == o.tx.creds[key].(consumed := true)
      && forall k :: k in o.tx.creds && k != key ==>
           t.creds[k] == if k.kind.Access? && o.tx.creds[k].requestId == call.requestId
                         then Revoked(o.tx.creds[k]) else o.tx.creds[k]
  {
    var e := Classify(env, o, call, fault);
    hide Step, LockCredential;
  }

  /** Deleting a token revokes that one row. */
  lemma TokenRevoked(env: Env, o: Op, call: Call, fault: bool, key: Key)
    requires Step(env, o, call, fault).1.err == NoError
    requires (call.DeleteAccess? && key == Key(Access, call.signature)) || (call.DeleteRefresh? && key == Key(Refresh, call.signature))
    ensures key in o.tx.creds && Step(env, o, call, fault).0.tx == o.tx.(creds := o.tx.creds[key := Revoked(o.tx.creds[key])])
  {
    var e := Classify(env, o, call, fault);
    hide Step, GrantOpen;
  }

  /** Revocation marks the grant and its whole family, keeps the first reason, and touches no other family. */
  lemma FamilyGoes(env: Env, o: Op, call: Call, fault: bool)
    requires call.Revoke? && Step(env, o, call, fault).1.err == NoError
    ensures var t := Step(env, o, call, fault).0.tx;
      && FamilyRevoked(t, call.requestId) && call.requestId in o.tx.grants
      && (o.tx.grants[call.requestId].revoked.Some? ==> t.grants[call.requestId] == o.tx.grants[call.requestId])
      && t == o.tx.(creds := t.creds, grants := t.grants, events := t.events)
      && t.creds.Keys == o.tx.creds.Keys && SameGrants(o.tx, t, {call.requestId})
      && forall k :: k in o.tx.creds ==>
           t.creds[k] == if o.tx.creds[k].requestId == call.requestId then Revoked(o.tx.creds[k]) else o.tx.creds[k]
  {
    var e := Classify(env, o, call, fault);
    hide Step;
  }

  /** A consent is consumed for its own usable session, and no other row changes. */
  lemma ConsentSpent(env: Env, o: Op, call: Call, fault: bool)
    requires call.ConsumeConsent? && Step(env, o, call, fault).1.err == NoError
    ensures ConsentUsable(o.tx, call.handle, call.session, call.at)
    ensures Step(env, o, call, fault).0.tx
         == o.tx.(consents := o.tx.consents[call.handle := o.tx.consents[call.handle].(consumed := true)])
  {
    var e := Classify(env, o, call, fault);
    hide Step;
  }

  function MadeAs(call: Call): (Kind, Option<string>)
    requires Creates(call)
  {
    match call
    case CreateCode(_, _, _) => (Code, None)
    case CreatePkce(_, _, _) => (Pkce, None)
    case CreateAccess(_, _, _) => (Access, None)
    case CreateRefresh(_, access, _, _) => (Refresh, Some(access))
  }

  /** The row a creation leaves: what the codec wrote of the request, with the expiry of its kind, unused. */
  predicate Written(env: Env, t: Shard, key: Key, r: Request, access: Option<string>) {
    && Encode(env.registry, r).Some? && key in t.creds
    && t.creds[key] == Credential(r.id, Encode(env.registry, r).value, Micros(ExpiresAt(r.session.expiresAt, ExpiryType(key.kind))),
                                  access, false, false)
  }

  /** The grant of a code: the account's epoch, the client and the resource of the request, kept until the code expires. */
  predicate GrantWritten(t: Shard, r: Request) {
    && r.id in t.grants
    && t.grants[r.id] == Grant(r.session.accountEpoch, r.clientId, r.session.resource, None,
                               Micros(ExpiresAt(r.session.expiresAt, AuthorizeCode)))
  }

  lemma AuthorizationWrites(env: Env, o: Op, signature: string, r: Request, now: nat, fault: bool)
    ensures var (o', answer) := StepCreateCode(env, o, signature, r, now, fault);
      answer.err == NoError ==> Written(env, o'.tx, Key(Code, signature), r, None) && GrantWritten(o'.tx, r)
    ensures var (o', answer) := StepCreatePkce(env, o, signature, r, now, fault);
      answer.err == NoError ==> Written(env, o'.tx, Key(Pkce, signature), r, None)
  {
    hide Encode, LockGrant, WriteSnapshotMatches;
  }

  lemma ExchangeWrites(env: Env, o: Op, signature: string, access: string, r: Request, now: nat, fault: bool)
    ensures var (o', answer) := StepCreateAccess(env, o, signature, r, now, fault);
      answer.err == NoError ==> Written(env, o'.tx, Key(Access, signature), r, None)
    ensures var (o', answer) := StepCreateRefresh(env, o, signature, access, r, now, fault);
      answer.err == NoError ==> Written(env, o'.tx, Key(Refresh, signature), r, Some(access))
  {
    hide Encode, LockGrant, WriteSnapshotMatches, Hydrate;
  }

  /** Every creation writes the request it was given, so that a read gives it back. */
  lemma CreationWrites(env: Env, o: Op, call: Call, fault: bool)
    requires Creates(call) && Step(env, o, call, fault).1.err == NoError
    ensures Written(env, Step(env, o, call, fault).0.tx, Key(MadeAs(call).0, call.signature), call.request, MadeAs(call).1)
    ensures call.CreateCode? ==> GrantWritten(Step(env, o, call, fault).0.tx, call.request)
  {
    hide StepCreateCode, StepCreatePkce, StepCreateAccess, StepCreateRefresh, Written, GrantWritten;
    match call
    case CreateCode(signature, r, now) => AuthorizationWrites(env, o, signature, r, now, fault);
    case CreatePkce(signature, r, now) => AuthorizationWrites(env, o, signature, r, now, fault);
    case CreateAccess(signature, r, now) => ExchangeWrites(env, o, signature, "", r, now, fault);
    case CreateRefresh(signature, access, r, now) => ExchangeWrites(env, o, signature, access, r, now, fault);
    case _ =>
  }

  /** The request a row was written for comes back with its form cut down and its own expiries. */
  lemma WrittenIsRead(env: Env, t: Shard, key: Key, r: Request, access: Option<string>, target: Option<Expirations>)
    requires Written(env, t, key, r, access)
    ensures
      var read := Decode(env.registry, t.creds[key].payload, target);
      && read.Some?
      && read.value == r.(form := FilterStoredForm(r.form), session := read.value.session)
      && read.value.session == r.session.(expiresAt := read.value.session.expiresAt)
      && forall e :: e in r.session.expiresAt ==>
           e in read.value.session.expiresAt && read.value.session.expiresAt[e] == r.session.expiresAt[e]
  {
    hide Encode, Decode;
    DecodeAfterEncode(env.registry, r, target);
  }
}
