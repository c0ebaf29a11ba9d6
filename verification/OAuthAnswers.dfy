/**
  When each store call succeeds, and what it then answers, read off the tables alone.
  On good tables and without a fault these are equivalences: a call that should be
  served is, and no other.
 */
module OAuthAnswers {
  import opened Prelude
  import opened RequestCodec
  import opened OAuthTables
  import opened OAuthOperation
  import opened OAuthEffects
  import opened OAuthInvariants
  import opened OAuthHistory

  /** The grant serves this binding: live, current, of the one resource, of a registered client and that client's own. */
  predicate OpenTo(env: Env, b: Binding, s: Shard, requestId: string) {
    CurrentTo(env, b, s, requestId) && s.grants[requestId].revoked == None
  }

  /** The same, but for revocation: the grant of an active account at its epoch, whether revoked or not. */
  predicate CurrentTo(env: Env, b: Binding, s: Shard, requestId: string) {
    requestId in s.grants &&
    var g := s.grants[requestId];
    && s.active && g.accountEpoch == s.epoch
    && g.resource == env.registry.resource && b.resource == env.registry.resource
    && g.clientId in env.registry.clients
    && (g.clientId == b.clientId || b.purpose.Introspection?)
  }

  lemma LockIff(env: Env, o: Op, key: Key, requestId: string)
    ensures LockCredential(env, o, key).Some? <==>
      key in o.tx.creds && OpenTo(env, o.ctx.binding, o.tx, o.tx.creds[key].requestId)
    ensures LockCredential(env, o, key).Some? ==> LockCredential(env, o, key).value == o.tx.creds[key]
    ensures LockGrant(env, o, requestId) <==> OpenTo(env, o.ctx.binding, o.tx, requestId)
    ensures !o.ctx.binding.purpose.Introspection? ==>
      (LockGrantForRevocation(env, o, requestId) <==> CurrentTo(env, o.ctx.binding, o.tx, requestId))
  {
  }

  /** Each call is served by its own step. */
  lemma Served(env: Env, o: Op, call: Call, fault: bool)
    ensures Step(env, o, call, fault) ==
      match call
      case CreateCode(signature, r, now) => StepCreateCode(env, o, signature, r, now, fault)
      case GetCode(signature, target) => StepGetCode(env, o, signature, target, fault)
      case InvalidateCode(signature) => StepConsume(env, o, Key(Code, signature), fault)
      case CreateAccess(signature, r, now) => StepCreateAccess(env, o, signature, r, now, fault)
      case GetAccess(signature, target) => StepGetAccess(env, o, signature, target, fault)
      case DeleteAccess(signature) => StepDelete(env, o, Key(Access, signature), fault)
      case CreateRefresh(signature, access, r, now) => StepCreateRefresh(env, o, signature, access, r, now, fault)
      case GetRefresh(signature, target) => StepGetRefresh(env, o, signature, target, fault)
      case DeleteRefresh(signature) => StepDelete(env, o, Key(Refresh, signature), fault)
      case Rotate(requestId, signature) => StepRotate(env, o, requestId, signature, fault)
      case Revoke(requestId) => StepRevoke(env, o, requestId, fault)
      case CreatePkce(signature, r, now) => StepCreatePkce(env, o, signature, r, now, fault)
      case GetPkce(signature, target) => StepGetPkce(env, o, signature, target, fault)
      case DeletePkce(signature) => StepConsume(env, o, Key(Pkce, signature), fault)
      case ConsumeConsent(handle, session, at, decision) => StepConsumeConsent(o, handle, session, at, decision, fault)
      case BeginSavepoint => StepBeginSavepoint(o, fault)
      case CommitSavepoint => StepCommitSavepoint(o, fault)
      case RollbackSavepoint => StepRollbackSavepoint(o, fault)
  {
    hide StepCreateCode, StepCreateAccess, StepCreateRefresh, StepCreatePkce, StepConsume, StepRotate, StepDelete,
      StepRevoke, StepGetCode, StepGetAccess, StepGetRefresh, StepGetPkce, StepConsumeConsent, StepBeginSavepoint,
      StepCommitSavepoint, StepRollbackSavepoint;
  }

  /**
    An operation begins exactly for the one resource, for a registered client and with what
    its purpose presents: an authorization for an active account, an exchange or a
    revocation with a credential of the client's, an introspection with an access token of
    any client.
   */
  lemma BeginIff(env: Env, b: Binding, kind: CredentialKind, presented: string, s: Shard)
    ensures
      Begin(env, b, kind, presented, s, false).Ok? <==>
      && b.resource == env.registry.resource
      && (if b.purpose.Introspection? then b.clientId == "" else b.clientId != "" && b.clientId in env.registry.clients)
      && (if b.purpose.Authorize? then b.accountId > 0 && s.active else b.accountId == 0)
      && (if b.purpose.Authorize? then kind == NoCredential && presented == "" else presented != "")
      && (b.purpose.TokenExchange? ==> kind == CodeCredential || kind == RefreshCredential)
      && (b.purpose.Revocation? ==> kind == AccessOrRefresh)
      && (b.purpose.Introspection? ==> kind == AccessCredential)
    ensures Begin(env, b, kind, presented, s, true).Err?
  {
  }

  // ---- reads ---------------------------------------------------------------------

  /** The stored request of a row, as a read hands it out. */
  function Stored(env: Env, o: Op, key: Key, target: Option<Expirations>): Option<Request>
    requires key in o.tx.creds
  {
    Decode(env.registry, o.tx.creds[key].payload, target)
  }

  /** The row is there, and its grant serves the operation. */
  predicate Held(env: Env, o: Op, key: Key) {
    key in o.tx.creds && OpenTo(env, o.ctx.binding, o.tx, o.tx.creds[key].requestId)
  }

  /** The operation presents the very credential of this row, and the strategy accepts it for the stored request. */
  predicate Presents(env: Env, o: Op, key: Key, target: Option<Expirations>)
    requires key in o.tx.creds
  {
    var presented := o.ctx.presented;
    && presented != "" && Stored(env, o, key, target).Some?
    && var r := Stored(env, o, key, target).value;
       match key.kind
       case Code => env.strategy.codeSignature(presented) == key.signature && env.strategy.validCode(r, presented)
       case Refresh => env.strategy.refreshSignature(presented) == key.signature && env.strategy.validRefresh(r, presented)
       case Access => env.strategy.accessSignature(presented) == key.signature && env.strategy.validAccess(r, presented)
       case Pkce => false
  }

  /** Nothing is read and nothing changes. */
  predicate Refuses(o: Op, step: (Op, Answer)) {
    step.0 == o && step.1.request == None && step.1.err != NoError && step.1.err != StorageFailure
  }

  /** The stored request comes back, and nothing changes. */
  predicate Returns(env: Env, o: Op, key: Key, target: Option<Expirations>, step: (Op, Answer))
    requires key in o.tx.creds
  {
    step == (o, Answer(Stored(env, o, key, target), NoError)) && step.1.request.Some?
  }

  /** The request of a used credential comes back under an error, and the replay of its family is noted. */
  predicate NotesReplay(env: Env, o: Op, key: Key, target: Option<Expirations>, step: (Op, Answer))
    requires key in o.tx.creds
  {
    && step.0 == o.(flags := o.flags.(replay := Some(Replay(o.tx.creds[key].requestId,
                                                            if key.kind.Code? then CodeReplay else RefreshReplay))))
    && step.1 == Answer(Stored(env, o, key, target), if key.kind.Code? then InvalidatedCode else InactiveToken)
    && step.1.request.Some?
  }

  // A read is one of three things: served, refused, or, of a used credential, the replay of its family.

  lemma CodeIsRead(env: Env, o: Op, signature: string, target: Option<Expirations>)
    requires Good(env, o.tx)
    ensures
      var key, step := Key(Code, signature), StepGetCode(env, o, signature, target, false);
      var served := o.ctx.binding.purpose.TokenExchange? && o.ctx.kind.CodeCredential? && Held(env, o, key);
      if served && Live(o.tx.creds[key]) then Returns(env, o, key, target, step)
      else if served && o.tx.creds[key].consumed && Presents(env, o, key, target) then NotesReplay(env, o, key, target, step)
      else Refuses(o, step)
  {
    hide Good, Hydrate, Decode, LockCredential, OpenTo;
    var key := Key(Code, signature);
    LockIff(env, o, key, "");
    if key in o.tx.creds { HydrateGood(env, o.tx, key, target); }
  }

  /** A code is read while it is live; once used, its replay is noted exactly when it is presented and proved. */
  lemma GetCodeAnswer(env: Env, o: Op, signature: string, target: Option<Expirations>)
    requires Good(env, o.tx)
    ensures
      var key, step := Key(Code, signature), Step(env, o, GetCode(signature, target), false);
      var served := o.ctx.binding.purpose.TokenExchange? && o.ctx.kind.CodeCredential? && Held(env, o, key);
      if served && Live(o.tx.creds[key]) then Returns(env, o, key, target, step)
      else if served && o.tx.creds[key].consumed && Presents(env, o, key, target) then NotesReplay(env, o, key, target, step)
      else Refuses(o, step)
  {
    hide StepGetCode, Step, Good, Returns, NotesReplay, Refuses, Held;
    CodeIsRead(env, o, signature, target);
    Served(env, o, GetCode(signature, target), false);
  }

  lemma RefreshIsRead(env: Env, o: Op, signature: string, target: Option<Expirations>)
    requires Good(env, o.tx)
    ensures
      var key, step := Key(Refresh, signature), StepGetRefresh(env, o, signature, target, false);
      var served := (o.ctx.kind.RefreshCredential? || o.ctx.kind.AccessOrRefresh?) && Held(env, o, key);
      if served && Live(o.tx.creds[key]) && (o.ctx.binding.purpose.Revocation? ==> Presents(env, o, key, target))
      then Returns(env, o, key, target, step)
      else if served && o.tx.creds[key].consumed && o.ctx.binding.purpose.TokenExchange? && o.ctx.kind.RefreshCredential?
              && Presents(env, o, key, target)
      then NotesReplay(env, o, key, target, step)
      else Refuses(o, step)
  {
    hide Good, Hydrate, Decode, LockCredential, OpenTo;
    var key := Key(Refresh, signature);
    LockIff(env, o, key, "");
    if key in o.tx.creds { HydrateGood(env, o.tx, key, target); }
  }

  /** A refresh token likewise; a used one counts as a replay only in an exchange, and revocation asks for proof. */
  lemma GetRefreshAnswer(env: Env, o: Op, signature: string, target: Option<Expirations>)
    requires Good(env, o.tx)
    ensures
      var key, step := Key(Refresh, signature), Step(env, o, GetRefresh(signature, target), false);
      var served := (o.ctx.kind.RefreshCredential? || o.ctx.kind.AccessOrRefresh?) && Held(env, o, key);
      if served && Live(o.tx.creds[key]) && (o.ctx.binding.purpose.Revocation? ==> Presents(env, o, key, target))
      then Returns(env, o, key, target, step)
      else if served && o.tx.creds[key].consumed && o.ctx.binding.purpose.TokenExchange? && o.ctx.kind.RefreshCredential?
              && Presents(env, o, key, target)
      then NotesReplay(env, o, key, target, step)
      else Refuses(o, step)
  {
    hide StepGetRefresh, Step, Good, Returns, NotesReplay, Refuses, Held, Presents;
    RefreshIsRead(env, o, signature, target);
    Served(env, o, GetRefresh(signature, target), false);
  }

  lemma AccessIsRead(env: Env, o: Op, signature: string, target: Option<Expirations>)
    requires Good(env, o.tx)
    ensures
      var key, step := Key(Access, signature), StepGetAccess(env, o, signature, target, false);
      if (o.ctx.kind.AccessCredential? || o.ctx.kind.AccessOrRefresh?) && Held(env, o, key) && Live(o.tx.creds[key])
         && (o.ctx.binding.purpose.Revocation? ==> Presents(env, o, key, target))
      then Returns(env, o, key, target, step) else Refuses(o, step)
  {
    hide Good, Hydrate, Decode, LockCredential, OpenTo;
    var key := Key(Access, signature);
    LockIff(env, o, key, "");
    if key in o.tx.creds { HydrateGood(env, o.tx, key, target); }
  }

  /** An access token is read while it is live, by an introspection of any client or, with proof, for its revocation. */
  lemma GetAccessAnswer(env: Env, o: Op, signature: string, target: Option<Expirations>)
    requires Good(env, o.tx)
    ensures
      var key, step := Key(Access, signature), Step(env, o, GetAccess(signature, target), false);
      if (o.ctx.kind.AccessCredential? || o.ctx.kind.AccessOrRefresh?) && Held(env, o, key) && Live(o.tx.creds[key])
         && (o.ctx.binding.purpose.Revocation? ==> Presents(env, o, key, target))
      then Returns(env, o, key, target, step) else Refuses(o, step)
  {
    hide StepGetAccess, Step, Good, Returns, Refuses, Held, Presents;
    AccessIsRead(env, o, signature, target);
    Served(env, o, GetAccess(signature, target), false);
  }

  lemma PkceIsRead(env: Env, o: Op, signature: string, target: Option<Expirations>)
    requires Good(env, o.tx)
    ensures
      var key, step := Key(Pkce, signature), StepGetPkce(env, o, signature, target, false);
      if o.ctx.binding.purpose.TokenExchange? && Held(env, o, key) && Live(o.tx.creds[key])
      then Returns(env, o, key, target, step) else Refuses(o, step)
  {
    hide Good, Hydrate, Decode, LockCredential, OpenTo;
    var key := Key(Pkce, signature);
    LockIff(env, o, key, "");
    if key in o.tx.creds { HydrateGood(env, o.tx, key, target); }
  }

  lemma GetPkceAnswer(env: Env, o: Op, signature: string, target: Option<Expirations>)
    requires Good(env, o.tx)
    ensures
      var key, step := Key(Pkce, signature), Step(env, o, GetPkce(signature, target), false);
      if o.ctx.binding.purpose.TokenExchange? && Held(env, o, key) && Live(o.tx.creds[key])
      then Returns(env, o, key, target, step) else Refuses(o, step)
  {
    hide StepGetPkce, Step, Good, Returns, Refuses, Held;
    PkceIsRead(env, o, signature, target);
    Served(env, o, GetPkce(signature, target), false);
  }

  // ---- marks ---------------------------------------------------------------------

  lemma MutationIff(env: Env, o: Op, key: Key)
    requires Good(env, o.tx)
    ensures LockForMutation(env, o, key, false).Ok? <==> Held(env, o, key)
    ensures LockForMutation(env, o, key, false).Ok? ==> LockForMutation(env, o, key, false).value == o.tx.creds[key]
    ensures LockForMutation(env, o, key, false).Err? ==> LockForMutation(env, o, key, false).error == NotFound
  {
    LockIff(env, o, key, "");
    if key in o.tx.creds { HydrateGood(env, o.tx, key, None); }
    hide Good, Hydrate, LockCredential, OpenTo;
  }

  lemma ConsumeIff(env: Env, o: Op, key: Key)
    requires Good(env, o.tx)
    ensures StepConsume(env, o, key, false).1.err == NoError <==>
            o.ctx.binding.purpose.TokenExchange? && Held(env, o, key) && Live(o.tx.creds[key])
  {
    hide Good, LockForMutation, OpenTo;
    MutationIff(env, o, key);
  }

  /** A code or PKCE row is used up exactly when it is live and its grant serves the exchange. */
  lemma UseIff(env: Env, o: Op, call: Call, key: Key)
    requires Good(env, o.tx)
    requires (call.InvalidateCode? && key == Key(Code, call.signature)) || (call.DeletePkce? && key == Key(Pkce, call.signature))
    ensures Step(env, o, call, false).1.err == NoError <==>
            o.ctx.binding.purpose.TokenExchange? && Held(env, o, key) && Live(o.tx.creds[key])
  {
    hide Good, StepConsume, Step, Held;
    ConsumeIff(env, o, key);
    Served(env, o, call, false);
  }

  lemma RotationIff(env: Env, o: Op, requestId: string, signature: string)
    requires Good(env, o.tx)
    ensures
      var key := Key(Refresh, signature);
      StepRotate(env, o, requestId, signature, false).1.err == NoError <==>
      && o.ctx.binding.purpose.TokenExchange? && Held(env, o, key) && Live(o.tx.creds[key])
      && o.tx.creds[key].requestId == requestId
  {
    hide Good, LockForMutation, RevokeAccessTokens, OpenTo;
    MutationIff(env, o, Key(Refresh, signature));
  }

  /** A refresh token is rotated while it is live, for its own request. */
  lemma RotateIff(env: Env, o: Op, requestId: string, signature: string)
    requires Good(env, o.tx)
    ensures
      var key := Key(Refresh, signature);
      Step(env, o, Rotate(requestId, signature), false).1.err == NoError <==>
      && o.ctx.binding.purpose.TokenExchange? && Held(env, o, key) && Live(o.tx.creds[key])
      && o.tx.creds[key].requestId == requestId
  {
    hide Good, StepRotate, Step, Held;
    RotationIff(env, o, requestId, signature);
    Served(env, o, Rotate(requestId, signature), false);
  }

  lemma RevokeRowIff(env: Env, o: Op, key: Key)
    requires Good(env, o.tx)
    ensures StepDelete(env, o, key, false).1.err == NoError <==> !o.ctx.binding.purpose.Introspection? && Held(env, o, key)
  {
    hide Good, LockForMutation, RevokeSession, Held;
    MutationIff(env, o, key);
  }

  /** A token is deleted in any operation but an introspection. */
  lemma DeleteIff(env: Env, o: Op, call: Call, key: Key)
    requires Good(env, o.tx)
    requires (call.DeleteAccess? && key == Key(Access, call.signature)) || (call.DeleteRefresh? && key == Key(Refresh, call.signature))
    ensures Step(env, o, call, false).1.err == NoError <==> !o.ctx.binding.purpose.Introspection? && Held(env, o, key)
  {
    hide Good, StepDelete, Step, Held;
    RevokeRowIff(env, o, key);
    Served(env, o, call, false);
  }

  /** A family is revoked if its grant is current for the client, unless another family's replay was noted. */
  lemma RevokeIff(env: Env, o: Op, requestId: string)
    requires o.flags.replay.Some? ==> o.flags.replay.value.kind.CodeReplay? || o.flags.replay.value.kind.RefreshReplay?
    ensures
      Step(env, o, Revoke(requestId), false).1.err == NoError <==>
      && (o.ctx.binding.purpose.TokenExchange? || o.ctx.binding.purpose.Revocation?)
      && CurrentTo(env, o.ctx.binding, o.tx, requestId)
      && (o.flags.replay.Some? ==> o.flags.replay.value.requestId == requestId)
  {
    LockIff(env, o, Key(Code, ""), requestId);
    hide LockGrantForRevocation;
  }

  /** A consent is consumed exactly when it is unused, unexpired and bound to this live session of an active account. */
  lemma ConsumeConsentIff(env: Env, o: Op, handle: string, session: string, at: Time, decision: Decision)
    ensures
      Step(env, o, ConsumeConsent(handle, session, at, decision), false).1.err == NoError <==>
      && o.ctx.binding.purpose.Authorize? && handle != "" && session != "" && at != 0
      && o.tx.active && handle in o.tx.consents && session in o.tx.webSessions
      && o.tx.consents[handle].session == session && !o.tx.consents[handle].consumed && at < o.tx.consents[handle].expiresAt
      && o.tx.webSessions[session].accountEpoch == o.tx.epoch && !o.tx.webSessions[session].revoked
      && at < o.tx.webSessions[session].expiresAt
  {
  }

  // ---- rows that do not agree with themselves ----------------------------------------------

  /** A stored request that the codec accepts, for the grant, the account and the expiry of its row. */
  predicate Sound(env: Env, s: Shard, key: Key) {
    && key in s.creds && s.creds[key].requestId in s.grants
    && var c := s.creds[key];
       var g, p := s.grants[c.requestId], c.payload;
       && Validate(env.registry, p) && p.id == c.requestId
       && p.session.accountId == s.accountId && p.session.accountEpoch == g.accountEpoch
       && p.clientId == g.clientId && p.session.resource == g.resource
       && c.expiresAt != 0 && Micros(ExpiresAt(p.session.expiresAt, ExpiryType(key.kind))) == c.expiresAt
  }

  lemma HydrateIff(env: Env, s: Shard, key: Key, target: Option<Expirations>)
    requires key in s.creds && s.creds[key].requestId in s.grants
    requires key.kind.Code? || key.kind.Pkce? || target.None?
    ensures Hydrate(env, s, s.creds[key], key.kind, target).Some? <==> Sound(env, s, key)
  {
    hide Validate;
    if ExpiryType(key.kind) == AuthorizeCode {
      HydrationKeepsStored(s.creds[key].payload.session.expiresAt, target, AuthorizeCode);
    }
  }

  predicate Rejects(o: Op, step: (Op, Answer)) {
    step == (o.(flags := o.flags.(storageFailed := true)), Answer(None, StorageFailure))
  }

  lemma UnsoundMutation(env: Env, o: Op, key: Key)
    requires Held(env, o, key) && !Sound(env, o.tx, key)
    ensures LockForMutation(env, o, key, false) == Err(StorageFailure)
  {
    LockIff(env, o, key, "");
    HydrateIff(env, o.tx, key, None);
    hide Hydrate, LockCredential, Sound, OpenTo;
  }

  /** On whatever tables, a row that does not agree with its own snapshot is a storage failure to whoever may use it. */
  lemma UnsoundIsRejected(env: Env, o: Op, key: Key)
    requires Held(env, o, key) && !Sound(env, o.tx, key) && o.ctx.binding.purpose.TokenExchange?
    ensures key.kind.Code? && o.ctx.kind.CodeCredential? ==> Rejects(o, StepGetCode(env, o, key.signature, None, false))
    ensures key.kind.Refresh? && o.ctx.kind.RefreshCredential? ==> Rejects(o, StepGetRefresh(env, o, key.signature, None, false))
    ensures key.kind.Pkce? && Live(o.tx.creds[key]) ==> Rejects(o, StepGetPkce(env, o, key.signature, None, false))
    ensures Rejects(o, StepConsume(env, o, key, false)) && Rejects(o, StepDelete(env, o, key, false))
    ensures key.kind.Refresh? ==> Rejects(o, StepRotate(env, o, o.tx.creds[key].requestId, key.signature, false))
  {
    assert key == Key(key.kind, key.signature);
    LockIff(env, o, key, "");
    HydrateIff(env, o.tx, key, None);
    UnsoundMutation(env, o, key);
    hide Hydrate, LockCredential, Sound, OpenTo, LockForMutation;
  }

  lemma UnsoundTokenIsRejected(env: Env, o: Op, signature: string)
    requires Held(env, o, Key(Access, signature)) && !Sound(env, o.tx, Key(Access, signature))
    requires (o.ctx.kind.AccessCredential? || o.ctx.kind.AccessOrRefresh?) && Live(o.tx.creds[Key(Access, signature)])
    ensures Rejects(o, StepGetAccess(env, o, signature, None, false))
  {
    var key := Key(Access, signature);
    LockIff(env, o, key, "");
    HydrateIff(env, o.tx, key, None);
    hide Hydrate, LockCredential, Sound, OpenTo;
  }

  // ---- creations -------------------------------------------------------------------

  /** The key is unused, and the expiry, whole microseconds, is after the creation time. */
  predicate Insertable(o: Op, key: Key, expiry: Time, now: Time) {
    expiry != 0 && key !in o.tx.creds && Micros(expiry) > Micros(now)
  }

  /** The request belongs to this grant in every column. */
  predicate OfGrant(s: Shard, r: Request) {
    r.id in s.grants &&
    var g := s.grants[r.id];
    && r.session.accountId == s.accountId && r.session.accountEpoch == g.accountEpoch
    && r.clientId == g.clientId && r.session.resource == g.resource
  }

  /** A code needs an unused request id and a request of the binding's account, epoch, client and resource. */
  lemma CreateCodeIff(env: Env, o: Op, signature: string, r: Request, now: nat)
    ensures
      Step(env, o, CreateCode(signature, r, now), false).1.err == NoError <==>
      && o.ctx.binding.purpose.Authorize? && Encode(env.registry, r).Some? && r.id !in o.tx.grants
      && r.session.accountId == o.ctx.binding.accountId && r.session.accountEpoch == o.ctx.authorizeEpoch
      && r.session.resource == o.ctx.binding.resource && r.clientId == o.ctx.binding.clientId
      && Insertable(o, Key(Code, signature), ExpiresAt(r.session.expiresAt, AuthorizeCode), now)
  {
    hide Encode;
  }

  /** The others join a grant that serves the operation; a refresh token also needs its unrevoked access token. */
  lemma CreatePkceIff(env: Env, o: Op, signature: string, r: Request, now: nat)
    ensures
      Step(env, o, CreatePkce(signature, r, now), false).1.err == NoError <==>
      && o.ctx.binding.purpose.Authorize? && Encode(env.registry, r).Some?
      && OpenTo(env, o.ctx.binding, o.tx, r.id) && OfGrant(o.tx, r)
      && Insertable(o, Key(Pkce, signature), ExpiresAt(r.session.expiresAt, AuthorizeCode), now)
  {
    hide Encode;
    LockIff(env, o.(flags := o.flags.(issuanceAttempted := true)), Key(Code, ""), r.id);
    hide LockGrant, CurrentTo, GrantOpen;
  }

  lemma CreateAccessIff(env: Env, o: Op, signature: string, r: Request, now: nat)
    ensures
      Step(env, o, CreateAccess(signature, r, now), false).1.err == NoError <==>
      && o.ctx.binding.purpose.TokenExchange? && Encode(env.registry, r).Some?
      && OpenTo(env, o.ctx.binding, o.tx, r.id) && OfGrant(o.tx, r)
      && Insertable(o, Key(Access, signature), ExpiresAt(r.session.expiresAt, AccessToken), now)
  {
    hide Encode;
    LockIff(env, o.(flags := o.flags.(issuanceAttempted := true)), Key(Code, ""), r.id);
    hide LockGrant, CurrentTo, GrantOpen, ExtendRetention;
  }

  /** What a refresh token needs of the access token it is issued with. */
  predicate Pairable(o: Op, access: string, requestId: string) {
    var key := Key(Access, access);
    key in o.tx.creds && o.tx.creds[key].requestId == requestId && !o.tx.creds[key].revoked
  }

  lemma RefreshIsCreated(env: Env, o: Op, signature: string, access: string, r: Request, now: nat)
    requires Good(env, o.tx)
    ensures
      StepCreateRefresh(env, o, signature, access, r, now, false).1.err == NoError <==>
      && o.ctx.binding.purpose.TokenExchange? && Encode(env.registry, r).Some?
      && OpenTo(env, o.ctx.binding, o.tx, r.id) && OfGrant(o.tx, r) && Pairable(o, access, r.id)
      && Insertable(o, Key(Refresh, signature), ExpiresAt(r.session.expiresAt, RefreshToken), now)
  {
    hide Good, Encode, Hydrate, Decode, LockGrant, CurrentTo, GrantOpen, ExtendRetention;
    if Key(Access, access) in o.tx.creds { HydrateGood(env, o.tx, Key(Access, access), None); }
    LockIff(env, o.(flags := o.flags.(issuanceAttempted := true)), Key(Code, ""), r.id);
  }

  lemma CreateRefreshIff(env: Env, o: Op, signature: string, access: string, r: Request, now: nat)
    requires Good(env, o.tx)
    ensures
      Step(env, o, CreateRefresh(signature, access, r, now), false).1.err == NoError <==>
      && o.ctx.binding.purpose.TokenExchange? && Encode(env.registry, r).Some?
      && OpenTo(env, o.ctx.binding, o.tx, r.id) && OfGrant(o.tx, r) && Pairable(o, access, r.id)
      && Insertable(o, Key(Refresh, signature), ExpiresAt(r.session.expiresAt, RefreshToken), now)
  {
    hide StepCreateRefresh, Step, Good, Encode, OpenTo, OfGrant, Insertable, Pairable;
    RefreshIsCreated(env, o, signature, access, r, now);
    Served(env, o, CreateRefresh(signature, access, r, now), false);
  }

  lemma OnlyReadsReturnRequests(env: Env, o: Op, call: Call, fault: bool)
    requires !call.GetCode? && !call.GetPkce? && !call.GetAccess? && !call.GetRefresh?
    ensures Step(env, o, call, fault).1.request.None?
  {
    hide LockGrant, LockCredential, LockGrantForRevocation, Hydrate, Encode, InsertSession, InsertGrant, ExtendRetention,
      ConsumeSession, RevokeSession, RevokeAccessTokens, RevokeFamily, ConsumeConsentRow, ConsentUsable,
      WriteSnapshotMatches, StepGetCode, StepGetAccess, StepGetPkce, StepGetRefresh;
  }

  // ---- savepoints and faults ----------------------------------------------------------

  /** One savepoint at a time; it is closed or rolled back only while it is open. */
  lemma SavepointIff(env: Env, o: Op)
    ensures Step(env, o, BeginSavepoint, false).1.err == NoError <==> o.savepoint.None?
    ensures Step(env, o, CommitSavepoint, false).1.err == NoError <==> o.savepoint.Some?
    ensures Step(env, o, RollbackSavepoint, false).1.err == NoError <==> o.savepoint.Some?
  {
  }

  /** A call with a fault neither succeeds nor hands out a request. */
  lemma FaultNeverSucceeds(env: Env, o: Op, call: Call)
    ensures Step(env, o, call, true).1.err != NoError && Step(env, o, call, true).1.request == None
  {
    hide Encode, LockGrant, LockCredential, LockGrantForRevocation, Hydrate, InsertGrant, InsertSession,
      WriteSnapshotMatches, ConsentUsable;
  }

  /** Exactly a storage failure marks the operation as failed. */
  predicate Marks(o: Op, step: (Op, Answer)) {
    step.0.flags.storageFailed <==> o.flags.storageFailed || step.1.err == StorageFailure
  }

  lemma AuthorizationMarks(env: Env, o: Op, signature: string, r: Request, now: nat, fault: bool)
    ensures Marks(o, StepCreateCode(env, o, signature, r, now, fault)) && Marks(o, StepCreatePkce(env, o, signature, r, now, fault))
  {
    hide Encode, LockGrant, InsertGrant, InsertSession, WriteSnapshotMatches;
  }

  lemma ExchangeMarks(env: Env, o: Op, signature: string, access: string, r: Request, now: nat, fault: bool)
    ensures Marks(o, StepCreateAccess(env, o, signature, r, now, fault))
    ensures Marks(o, StepCreateRefresh(env, o, signature, access, r, now, fault))
  {
    hide Encode, LockGrant, Hydrate, InsertSession, WriteSnapshotMatches, ExtendRetention;
  }

  lemma ReadsMark(env: Env, o: Op, signature: string, target: Option<Expirations>, fault: bool)
    ensures Marks(o, StepGetCode(env, o, signature, target, fault)) && Marks(o, StepGetPkce(env, o, signature, target, fault))
    ensures Marks(o, StepGetAccess(env, o, signature, target, fault))
    ensures Marks(o, StepGetRefresh(env, o, signature, target, fault))
  {
    hide LockCredential, Hydrate, ProveCode, ProveAccess, ProveRefresh;
  }

  lemma ChangesMark(env: Env, o: Op, key: Key, requestId: string, fault: bool)
    ensures Marks(o, StepConsume(env, o, key, fault)) && Marks(o, StepDelete(env, o, key, fault))
    ensures Marks(o, StepRotate(env, o, requestId, key.signature, fault)) && Marks(o, StepRevoke(env, o, requestId, fault))
  {
    hide LockForMutation, ConsumeSession, RevokeSession, RevokeAccessTokens, RevokeFamily, RecordEvent, LockGrantForRevocation;
  }

  /** A storage failure is on record in the operation exactly if it was before, or the call answers with one. */
  lemma FailureIsNoted(env: Env, o: Op, call: Call, fault: bool)
    ensures Marks(o, Step(env, o, call, fault))
  {
    hide StepCreateCode, StepCreateAccess, StepCreateRefresh, StepCreatePkce, StepConsume, StepRotate, StepDelete,
      StepRevoke, StepGetCode, StepGetAccess, StepGetRefresh, StepGetPkce;
    match call
    case CreateCode(signature, r, now) => AuthorizationMarks(env, o, signature, r, now, fault);
    case CreatePkce(signature, r, now) => AuthorizationMarks(env, o, signature, r, now, fault);
    case CreateAccess(signature, r, now) => ExchangeMarks(env, o, signature, "", r, now, fault);
    case CreateRefresh(signature, access, r, now) => ExchangeMarks(env, o, signature, access, r, now, fault);
    case GetCode(signature, target) => ReadsMark(env, o, signature, target, fault);
    case GetPkce(signature, target) => ReadsMark(env, o, signature, target, fault);
    case GetAccess(signature, target) => ReadsMark(env, o, signature, target, fault);
    case GetRefresh(signature, target) => ReadsMark(env, o, signature, target, fault);
    case InvalidateCode(signature) => ChangesMark(env, o, Key(Code, signature), "", fault);
    case DeletePkce(signature) => ChangesMark(env, o, Key(Pkce, signature), "", fault);
    case DeleteAccess(signature) => ChangesMark(env, o, Key(Access, signature), "", fault);
    case DeleteRefresh(signature) => ChangesMark(env, o, Key(Refresh, signature), "", fault);
    case Rotate(requestId, signature) => ChangesMark(env, o, Key(Refresh, signature), requestId, fault);
    case Revoke(requestId) => ChangesMark(env, o, Key(Code, ""), requestId, fault);
    case _ =>
  }
}
