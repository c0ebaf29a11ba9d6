/**
  Every store call either leaves the account's tables alone, moves the
  savepoint, or makes one of seven row changes; this module names them, shows
  that the calls make no others, and says what any of them keeps.
 */
module OAuthEffects {
  import opened Prelude
  import opened RequestCodec
  import opened OAuthTables
  import opened OAuthOperation

  datatype Effect =
    | Nothing
    | NewFamily(requestId: string, grant: Grant, key: Key, cred: Credential, now: Time)
    | NewCredential(key: Key, cred: Credential, now: Time)
    | Consume(key: Key)
    | Swap(key: Key, requestId: string)
    | Drop(key: Key)
    | Kill(requestId: string, reason: Reason, audited: bool)
    | Spend(handle: string, session: string, at: Time)
    | Back

  function Apply(o: Op, e: Effect): Shard {
    var s := o.tx;
    match e
    case Nothing => s
    case NewFamily(requestId, grant, key, cred, _) =>
      s.(grants := s.grants[requestId := grant], creds := s.creds[key := cred])
    case NewCredential(key, cred, _) =>
      var inserted := s.(creds := s.creds[key := cred]);
      if key.kind.Pkce? then inserted else ExtendRetention(inserted, cred.requestId, cred.expiresAt)
    case Consume(key) => ConsumeSession(s, key).0
    case Swap(key, requestId) => RevokeAccessTokens(ConsumeSession(s, key).0, requestId)
    case Drop(key) => RevokeSession(s, key)
    case Kill(requestId, reason, audited) =>
      var killed := RevokeFamily(s, requestId, reason);
      if audited then killed.(events := killed.events + [Event(requestId, reason)]) else killed
    case Spend(handle, session, _) => ConsumeConsentRow(s, handle, session).0
    case Back => if o.savepoint.Some? then o.savepoint.value else s
  }

  /** A row is what the codec wrote for its grant: same identity, same expiry, accepted by the codec. */
  predicate RowMatches(env: Env, s: Shard, key: Key, c: Credential) {
    && c.requestId in s.grants
    && Validate(env.registry, c.payload)
    && c.payload.id == c.requestId
    && c.payload.session.accountId == s.accountId
    && c.payload.session.accountEpoch == s.grants[c.requestId].accountEpoch
    && c.payload.clientId == s.grants[c.requestId].clientId
    && c.payload.session.resource == s.grants[c.requestId].resource
    && ExpiryType(key.kind) in c.payload.session.expiresAt
    && Micros(c.payload.session.expiresAt[ExpiryType(key.kind)]) == c.expiresAt
    && c.expiresAt > 0
    && (key.kind.Refresh? <==> c.access.Some?)
  }

  /** When an effect can happen. */
  predicate Allowed(env: Env, o: Op, e: Effect) {
    var s := o.tx;
    match e
    case Nothing => true
    case NewFamily(requestId, grant, key, cred, now) =>
      && o.ctx.binding.purpose.Authorize? && o.ctx.binding.accountId == cred.payload.session.accountId
      && requestId !in s.grants && key !in s.creds && key.kind.Code?
      && grant.revoked.None? && grant.accountEpoch == o.ctx.authorizeEpoch && grant.clientId == o.ctx.binding.clientId
      && grant.retainUntil == cred.expiresAt && cred.requestId == requestId && Live(cred)
      && RowMatches(env, s.(accountId := o.ctx.binding.accountId, grants := s.grants[requestId := grant]), key, cred)
    case NewCredential(key, cred, now) =>
      && (if key.kind.Pkce? then o.ctx.binding.purpose.Authorize? else o.ctx.binding.purpose.TokenExchange?)
      && !key.kind.Code? && key !in s.creds && Live(cred)
      && RowMatches(env, s, key, cred)
      && GrantOpen(env, o.ctx.binding, s, s.grants[cred.requestId])
      && (key.kind.Refresh? ==>
            && Key(Access, cred.access.value) in s.creds
            && s.creds[Key(Access, cred.access.value)].requestId == cred.requestId)
    case Consume(key) =>
      && o.ctx.binding.purpose.TokenExchange? && (key.kind.Code? || key.kind.Pkce?)
      && key in s.creds && Live(s.creds[key]) && LockCredential(env, o, key).Some?
    case Swap(key, requestId) =>
      && o.ctx.binding.purpose.TokenExchange? && key.kind.Refresh?
      && key in s.creds && Live(s.creds[key]) && LockCredential(env, o, key).Some?
      && s.creds[key].requestId == requestId
    case Drop(key) =>
      !o.ctx.binding.purpose.Introspection? && (key.kind.Access? || key.kind.Refresh?) && LockCredential(env, o, key).Some?
    case Kill(requestId, reason, audited) =>
      && (o.ctx.binding.purpose.TokenExchange? || o.ctx.binding.purpose.Revocation?)
      && LockGrantForRevocation(env, o, requestId)
      && reason == RevocationReason(o)
      && (o.flags.replay.Some? ==> o.flags.replay.value.requestId == requestId)
      && (audited <==> o.flags.replay.Some? && !o.flags.replayComplete)
    case Spend(handle, session, at) =>
      o.ctx.binding.purpose.Authorize? && ConsentUsable(s, handle, session, at)
    case Back => o.savepoint.Some?
  }

  /** Which successful call has which effect; a refused or failed call has none. */
  predicate Causes(call: Call, ok: bool, e: Effect) {
    match call
    case CreateCode(signature, r, _) =>
      if ok then e.NewFamily? && e.key == Key(Code, signature) && e.requestId == e.cred.requestId == r.id else e.Nothing?
    case CreateAccess(signature, r, _) =>
      if ok then e.NewCredential? && e.key == Key(Access, signature) && e.cred.requestId == r.id else e.Nothing?
    case CreateRefresh(signature, _, r, _) =>
      if ok then e.NewCredential? && e.key == Key(Refresh, signature) && e.cred.requestId == r.id else e.Nothing?
    case CreatePkce(signature, r, _) =>
      if ok then e.NewCredential? && e.key == Key(Pkce, signature) && e.cred.requestId == r.id else e.Nothing?
    case InvalidateCode(signature) => e == if ok then Consume(Key(Code, signature)) else Nothing
    case DeletePkce(signature) => e == if ok then Consume(Key(Pkce, signature)) else Nothing
    case Rotate(requestId, signature) => e == if ok then Swap(Key(Refresh, signature), requestId) else Nothing
    case DeleteAccess(signature) => e == if ok then Drop(Key(Access, signature)) else Nothing
    case DeleteRefresh(signature) => e == if ok then Drop(Key(Refresh, signature)) else Nothing
    case Revoke(requestId) => if ok then e.Kill? && e.requestId == requestId else e.Nothing?
    case ConsumeConsent(handle, session, at, _) => e == if ok then Spend(handle, session, at) else Nothing
    case RollbackSavepoint => e == if ok then Back else Nothing
    case _ => e.Nothing?
  }

  // ---- the four calls that add rows ------------------------------------------

  lemma CreateCodeEffect(env: Env, o: Op, signature: string, r: Request, now: nat, fault: bool) returns (e: Effect)
    ensures Allowed(env, o, e) && StepCreateCode(env, o, signature, r, now, fault).0.tx == Apply(o, e)
    ensures Causes(CreateCode(signature, r, now), StepCreateCode(env, o, signature, r, now, fault).1.err == NoError, e)
  {
    var (_, answer) := StepCreateCode(env, o, signature, r, now, fault);
    e := Nothing;
    if answer.err == NoError {
      var expiresAt := Micros(ExpiresAt(r.session.expiresAt, AuthorizeCode));
      var grant := Grant(r.session.accountEpoch, r.clientId, r.session.resource, None, expiresAt);
      var cred := Credential(r.id, Snapshot(r), expiresAt, None, false, false);
      e := NewFamily(r.id, grant, Key(Code, signature), cred, now);
      assert RowMatches(env, o.tx.(accountId := o.ctx.binding.accountId, grants := o.tx.grants[r.id := grant]),
                        Key(Code, signature), cred);
    }
  }

  lemma CreatePkceEffect(env: Env, o: Op, signature: string, r: Request, now: nat, fault: bool) returns (e: Effect)
    ensures Allowed(env, o, e) && StepCreatePkce(env, o, signature, r, now, fault).0.tx == Apply(o, e)
    ensures Causes(CreatePkce(signature, r, now), StepCreatePkce(env, o, signature, r, now, fault).1.err == NoError, e)
  {
    var (_, answer) := StepCreatePkce(env, o, signature, r, now, fault);
    e := Nothing;
    if answer.err == NoError {
      var expiresAt := Micros(ExpiresAt(r.session.expiresAt, AuthorizeCode));
      var cred := Credential(r.id, Snapshot(r), expiresAt, None, false, false);
      e := NewCredential(Key(Pkce, signature), cred, now);
      assert RowMatches(env, o.tx, Key(Pkce, signature), cred);
    }
  }

  lemma CreateAccessEffect(env: Env, o: Op, signature: string, r: Request, now: nat, fault: bool) returns (e: Effect)
    ensures Allowed(env, o, e) && StepCreateAccess(env, o, signature, r, now, fault).0.tx == Apply(o, e)
    ensures Causes(CreateAccess(signature, r, now), StepCreateAccess(env, o, signature, r, now, fault).1.err == NoError, e)
  {
    var (after, answer) := StepCreateAccess(env, o, signature, r, now, fault);
    e := Nothing;
    if answer.err == NoError {
      var expiresAt := Micros(ExpiresAt(r.session.expiresAt, AccessToken));
      var cred := Credential(r.id, Snapshot(r), expiresAt, None, false, false);
      e := NewCredential(Key(Access, signature), cred, now);
      assert RowMatches(env, o.tx, Key(Access, signature), cred);
    }
  }

  lemma CreateRefreshEffect(env: Env, o: Op, signature: string, access: string, r: Request, now: nat, fault: bool)
    returns (e: Effect)
    ensures Allowed(env, o, e) && StepCreateRefresh(env, o, signature, access, r, now, fault).0.tx == Apply(o, e)
    ensures Causes(CreateRefresh(signature, access, r, now), StepCreateRefresh(env, o, signature, access, r, now, fault).1.err == NoError, e)
  {
    var (_, answer) := StepCreateRefresh(env, o, signature, access, r, now, fault);
    e := Nothing;
    if answer.err == NoError {
      var expiresAt := Micros(ExpiresAt(r.session.expiresAt, RefreshToken));
      var cred := Credential(r.id, Snapshot(r), expiresAt, Some(access), false, false);
      e := NewCredential(Key(Refresh, signature), cred, now);
      assert RowMatches(env, o.tx, Key(Refresh, signature), cred);
    }
  }

  lemma ReadEffect(env: Env, o: Op, call: Call, fault: bool) returns (e: Effect)
    requires call.GetCode? || call.GetAccess? || call.GetRefresh? || call.GetPkce?
    ensures Allowed(env, o, e) && Step(env, o, call, fault).0.tx == Apply(o, e) && e.Nothing?
  {
    hide LockCredential, Hydrate, ProveCode, ProveAccess, ProveRefresh;
    e := Nothing;
  }

  lemma ConsentEffect(env: Env, o: Op, call: Call, fault: bool) returns (e: Effect)
    requires call.ConsumeConsent?
    ensures Allowed(env, o, e)
    ensures Causes(call, StepConsumeConsent(o, call.handle, call.session, call.at, call.decision, fault).1.err == NoError, e)
    ensures StepConsumeConsent(o, call.handle, call.session, call.at, call.decision, fault).0.tx == Apply(o, e)
  {
    e := if StepConsumeConsent(o, call.handle, call.session, call.at, call.decision, fault).1.err == NoError
         then Spend(call.handle, call.session, call.at) else Nothing;
  }

  lemma SavepointEffect(env: Env, o: Op, call: Call, fault: bool) returns (e: Effect)
    requires call.BeginSavepoint? || call.CommitSavepoint? || call.RollbackSavepoint?
    ensures var (o', answer) := (match call
                                 case BeginSavepoint => StepBeginSavepoint(o, fault)
                                 case CommitSavepoint => StepCommitSavepoint(o, fault)
                                 case _ => StepRollbackSavepoint(o, fault));
      Allowed(env, o, e) && Apply(o, e) == o'.tx && Causes(call, answer.err == NoError, e)
  {
    e := if call.RollbackSavepoint? && o.savepoint.Some? && !fault then Back else Nothing;
  }

  /** Every call's change of the tables is one of the effects above. */
  lemma Classify(env: Env, o: Op, call: Call, fault: bool) returns (e: Effect)
    ensures Allowed(env, o, e) && Step(env, o, call, fault).0.tx == Apply(o, e)
    ensures Causes(call, Step(env, o, call, fault).1.err == NoError, e)
  {
    hide Allowed, Apply, StepCreateCode, StepCreateAccess, StepCreateRefresh, StepCreatePkce, StepConsume, StepRotate,
      StepDelete, StepRevoke, StepGetCode, StepGetAccess, StepGetRefresh, StepGetPkce, StepConsumeConsent,
      StepBeginSavepoint, StepCommitSavepoint, StepRollbackSavepoint;
    match call
    case CreateCode(signature, r, now) => e := CreateCodeEffect(env, o, signature, r, now, fault);
    case CreateAccess(signature, r, now) => e := CreateAccessEffect(env, o, signature, r, now, fault);
    case CreateRefresh(signature, access, r, now) => e := CreateRefreshEffect(env, o, signature, access, r, now, fault);
    case CreatePkce(signature, r, now) => e := CreatePkceEffect(env, o, signature, r, now, fault);
    case InvalidateCode(signature) => e := ConsumeEffect(env, o, Key(Code, signature), fault);
    case DeletePkce(signature) => e := ConsumeEffect(env, o, Key(Pkce, signature), fault);
    case Rotate(requestId, signature) => e := RotateEffect(env, o, requestId, signature, fault);
    case DeleteAccess(signature) => e := DeleteEffect(env, o, Key(Access, signature), fault);
    case DeleteRefresh(signature) => e := DeleteEffect(env, o, Key(Refresh, signature), fault);
    case Revoke(requestId) => e := RevokeEffect(env, o, requestId, fault);
    case ConsumeConsent(_, _, _, _) => e := ConsentEffect(env, o, call, fault);
    case BeginSavepoint => e := SavepointEffect(env, o, call, fault);
    case CommitSavepoint => e := SavepointEffect(env, o, call, fault);
    case RollbackSavepoint => e := SavepointEffect(env, o, call, fault);
    case _ => e := ReadEffect(env, o, call, fault);
  }

  lemma ConsumeEffect(env: Env, o: Op, key: Key, fault: bool) returns (e: Effect)
    requires key.kind.Code? || key.kind.Pkce?
    ensures Allowed(env, o, e) && StepConsume(env, o, key, fault).0.tx == Apply(o, e)
    ensures e == if StepConsume(env, o, key, fault).1.err == NoError then Consume(key) else Nothing
  {
    e := if StepConsume(env, o, key, fault).1.err == NoError then Consume(key) else Nothing;
  }

  lemma RotateEffect(env: Env, o: Op, requestId: string, signature: string, fault: bool) returns (e: Effect)
    ensures Allowed(env, o, e) && StepRotate(env, o, requestId, signature, fault).0.tx == Apply(o, e)
    ensures e == if StepRotate(env, o, requestId, signature, fault).1.err == NoError then Swap(Key(Refresh, signature), requestId) else Nothing
  {
    e := if StepRotate(env, o, requestId, signature, fault).1.err == NoError
         then Swap(Key(Refresh, signature), requestId) else Nothing;
  }

  lemma DeleteEffect(env: Env, o: Op, key: Key, fault: bool) returns (e: Effect)
    requires key.kind.Access? || key.kind.Refresh?
    ensures Allowed(env, o, e) && StepDelete(env, o, key, fault).0.tx == Apply(o, e)
    ensures e == if StepDelete(env, o, key, fault).1.err == NoError then Drop(key) else Nothing
  {
    e := if StepDelete(env, o, key, fault).1.err == NoError then Drop(key) else Nothing;
  }

  lemma RevokeEffect(env: Env, o: Op, requestId: string, fault: bool) returns (e: Effect)
    ensures Allowed(env, o, e) && StepRevoke(env, o, requestId, fault).0.tx == Apply(o, e)
    ensures Causes(Revoke(requestId), StepRevoke(env, o, requestId, fault).1.err == NoError, e)
  {
    e := if StepRevoke(env, o, requestId, fault).1.err == NoError
         then Kill(requestId, RevocationReason(o), o.flags.replay.Some? && !o.flags.replayComplete) else Nothing;
  }
}
