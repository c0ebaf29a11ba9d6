/**
  Exchanges and authorizations that succeed: started from rows that are fit for them,
  the calls of a well-behaved driver all succeed, the operation commits, and the rows
  it leaves are exactly the expected ones.
 */
module OAuthIssuance {
  import opened Prelude
  import opened RequestCodec
  import opened OAuthTables
  import opened OAuthOperation
  import opened OAuthEffects
  import opened OAuthInvariants
  import opened OAuthRuns
  import opened OAuthSafety
  import opened OAuthHistory
  import opened OAuthCalls
  import opened OAuthAnswers
  import opened OAuthCommits
  import opened OAuthFlows

  /** A row of this kind can be written for the request: the codec accepts it, and its expiry lies ahead. */
  predicate Writable(env: Env, s: Shard, key: Key, r: Request, now: Time) {
    var expiry := ExpiresAt(r.session.expiresAt, ExpiryType(key.kind));
    Encode(env.registry, r).Some? && key !in s.creds && expiry != 0 && Micros(expiry) > Micros(now)
  }

  /** Account and grant are as they were, but for a longer retention. */
  predicate SameService(s: Shard, t: Shard, requestId: string) {
    && t.active == s.active && t.epoch == s.epoch && t.accountId == s.accountId
    && requestId in s.grants && requestId in t.grants
    && t.grants[requestId] == s.grants[requestId].(retainUntil := t.grants[requestId].retainUntil)
  }

  lemma ServiceStays(env: Env, b: Binding, s: Shard, t: Shard, r: Request)
    requires SameService(s, t, r.id)
    ensures OpenTo(env, b, s, r.id) <==> OpenTo(env, b, t, r.id)
    ensures OfGrant(s, r) <==> OfGrant(t, r)
  {
  }

  lemma KeepsGood(env: Env, o: Op, call: Call, fault: bool)
    requires Good(env, o.tx) && OwnAccount(o) && !RollsBack(Entry(call, Step(env, o, call, fault).1))
    ensures Good(env, Step(env, o, call, fault).0.tx)
  {
    hide Step, Allowed, Apply, Good;
    var e := Classify(env, o, call, fault);
    if e.Back? {
      assert false;
    }
    EffectKeepsGood(env, o, e);
  }

  /** What a successful call that is none of the savepoint calls leaves besides its rows. */
  lemma SameFrame(env: Env, o: Op, call: Call)
    requires Step(env, o, call, false).1.err == NoError
    requires !call.BeginSavepoint? && !call.CommitSavepoint? && !call.RollbackSavepoint?
    ensures Step(env, o, call, false).0.ctx == o.ctx && Step(env, o, call, false).0.savepoint == o.savepoint
  {
    hide Step, Detects;
    StepFlags(env, o, call, false);
  }

  // ---- the exchange of a code or a refresh token ---------------------------------------------

  function UseOf(key: Key, requestId: string): Call {
    if key.kind.Code? then InvalidateCode(key.signature) else Rotate(requestId, key.signature)
  }

  /** The exchange may use this credential: live, and its grant serves the client. */
  predicate Exchangeable(env: Env, o: Op, key: Key) {
    && o.ctx.binding.purpose.TokenExchange? && Held(env, o, key) && Live(o.tx.creds[key])
    && ((key.kind.Code? && o.ctx.kind.CodeCredential?) || (key.kind.Refresh? && o.ctx.kind.RefreshCredential?))
  }

  lemma ExchangeableIsRead(env: Env, o: Op, key: Key)
    requires Good(env, o.tx) && Exchangeable(env, o, key)
    ensures Step(env, o, ReadOf(key), false).0 == o && Step(env, o, ReadOf(key), false).1.err == NoError
    ensures key in o.tx.creds
    ensures Step(env, o, ReadOf(key), false).1.request == Decode(env.registry, o.tx.creds[key].payload, None)
  {
    hide Good, Step, Decode;
    assert key == Key(key.kind, key.signature);
    if key.kind.Code? {
      GetCodeAnswer(env, o, key.signature, None);
    } else {
      GetRefreshAnswer(env, o, key.signature, None);
    }
  }

  /** The rows after the credential is used: it is consumed, and a rotation revokes the access tokens before it. */
  predicate Used(s: Shard, t: Shard, key: Key, requestId: string) {
    && key in s.creds && t == s.(creds := t.creds) && t.creds.Keys == s.creds.Keys
    && t.creds[key] == s.creds[key].(consumed := true)
    && forall k :: k in s.creds && k != key ==>
         t.creds[k] == if key.kind.Refresh? && k.kind.Access? && s.creds[k].requestId == requestId
                       then Revoked(s.creds[k]) else s.creds[k]
  }

  lemma ExchangeableIsUsed(env: Env, o: Op, key: Key, requestId: string)
    requires Good(env, o.tx) && Exchangeable(env, o, key) && key in o.tx.creds && o.tx.creds[key].requestId == requestId
    ensures Step(env, o, UseOf(key, requestId), false).1.err == NoError
    ensures Used(o.tx, Step(env, o, UseOf(key, requestId), false).0.tx, key, requestId)
  {
    hide Good, Step;
    assert key == Key(key.kind, key.signature);
    if key.kind.Code? {
      UseIff(env, o, UseOf(key, requestId), key);
      UsedOnce(env, o, UseOf(key, requestId), false, key);
    } else {
      RotateIff(env, o, requestId, key.signature);
      Rotated(env, o, UseOf(key, requestId), false);
    }
  }

  /** One row is added, for a grant that only its retention changes. */
  ghost predicate Adds(env: Env, s: Shard, t: Shard, key: Key, r: Request, access: Option<string>) {
    && key !in s.creds && Written(env, t, key, r, access) && t.creds == s.creds[key := t.creds[key]]
    && SameElsewhere(s, t) && SameGrants(s, t, {r.id}) && SameService(s, t, r.id)
  }

  lemma AccessIsAdded(env: Env, o: Op, signature: string, r: Request, now: nat)
    requires Good(env, o.tx) && o.ctx.binding.purpose.TokenExchange?
    requires OpenTo(env, o.ctx.binding, o.tx, r.id) && OfGrant(o.tx, r) && Writable(env, o.tx, Key(Access, signature), r, now)
    ensures
      var step := Step(env, o, CreateAccess(signature, r, now), false);
      step.1.err == NoError && Adds(env, o.tx, step.0.tx, Key(Access, signature), r, None)
  {
    hide Good, Step, Encode;
    var call, key := CreateAccess(signature, r, now), Key(Access, signature);
    CreateAccessIff(env, o, signature, r, now);
    hide OpenTo, OfGrant;
    CreationWrites(env, o, call, false);
    CredentialCreated(env, o, call, false, key);
    OneRowMore(o.tx, Step(env, o, call, false).0.tx, key);
  }

  lemma RefreshIsAdded(env: Env, o: Op, signature: string, access: string, r: Request, now: nat)
    requires Good(env, o.tx) && o.ctx.binding.purpose.TokenExchange? && Pairable(o, access, r.id)
    requires OpenTo(env, o.ctx.binding, o.tx, r.id) && OfGrant(o.tx, r) && Writable(env, o.tx, Key(Refresh, signature), r, now)
    ensures
      var step := Step(env, o, CreateRefresh(signature, access, r, now), false);
      step.1.err == NoError && Adds(env, o.tx, step.0.tx, Key(Refresh, signature), r, Some(access))
  {
    hide Good, Step, Encode, Pairable;
    var call, key := CreateRefresh(signature, access, r, now), Key(Refresh, signature);
    CreateRefreshIff(env, o, signature, access, r, now);
    hide OpenTo, OfGrant;
    CreationWrites(env, o, call, false);
    CredentialCreated(env, o, call, false, key);
    OneRowMore(o.tx, Step(env, o, call, false).0.tx, key);
  }

  lemma OneRowMore(s: Shard, t: Shard, key: Key)
    requires key in t.creds && SameRows(s, t, {key})
    ensures t.creds == s.creds[key := t.creds[key]]
  {
  }

  /** What an exchange leaves: the credential used, a new pair for its grant, and no other credential changed but by rotation. */
  ghost predicate Exchanged(
    env: Env, s: Shard, t: Shard, key: Key, access: string, ra: Request, refresh: string, rb: Request)
  {
    && key in s.creds && key in t.creds && t.creds[key] == s.creds[key].(consumed := true)
    && Written(env, t, Key(Access, access), ra, None) && Written(env, t, Key(Refresh, refresh), rb, Some(access))
    && SameElsewhere(s, t) && SameGrants(s, t, {ra.id})
    && t.creds.Keys == s.creds.Keys + {Key(Access, access), Key(Refresh, refresh)}
    && forall k :: k in s.creds && k != key ==>
         t.creds[k] == if key.kind.Refresh? && k.kind.Access? && s.creds[k].requestId == ra.id
                       then Revoked(s.creds[k]) else s.creds[k]
  }

  lemma StepsExchange(
    env: Env, s: Shard, t: Shard, u: Shard, v: Shard, key: Key, access: string, ra: Request, refresh: string, rb: Request)
    requires key.kind.Code? || key.kind.Refresh?
    requires Used(s, t, key, ra.id) && ra.id == rb.id
    requires Adds(env, t, u, Key(Access, access), ra, None) && Adds(env, u, v, Key(Refresh, refresh), rb, Some(access))
    ensures Exchanged(env, s, v, key, access, ra, refresh, rb)
  {
    hide Encode;
  }

  lemma WritableAfterUse(env: Env, s: Shard, t: Shard, key: Key, requestId: string, made: Key, r: Request, now: Time)
    requires Used(s, t, key, requestId) && Writable(env, s, made, r, now)
    ensures Writable(env, t, made, r, now)
  {
    hide Encode;
  }

  lemma WritableAfterAdd(
    env: Env, s: Shard, t: Shard, key: Key, q: Request, access: Option<string>, made: Key, r: Request, now: Time)
    requires Adds(env, s, t, key, q, access) && made != key && Writable(env, s, made, r, now)
    ensures Writable(env, t, made, r, now)
  {
    hide Encode, Written;
  }

  lemma NewAccessIsPairable(env: Env, s: Shard, o: Op, access: string, r: Request)
    requires Adds(env, s, o.tx, Key(Access, access), r, None)
    ensures Pairable(o, access, r.id)
  {
    hide Encode;
  }

  /** All four calls succeed, each on the rows the one before it left. */
  lemma ExchangeCalls(
    env: Env, o: Op, key: Key, access: string, ra: Request, refresh: string, rb: Request, now: nat)
    returns (used: Op, issued: Op, done: Op)
    requires Good(env, o.tx) && Exchangeable(env, o, key) && ra.id == rb.id == o.tx.creds[key].requestId
    requires OfGrant(o.tx, ra) && OfGrant(o.tx, rb)
    requires Writable(env, o.tx, Key(Access, access), ra, now) && Writable(env, o.tx, Key(Refresh, refresh), rb, now)
    ensures Step(env, o, UseOf(key, ra.id), false) == (used, Answer(None, NoError))
    ensures Step(env, used, CreateAccess(access, ra, now), false) == (issued, Answer(None, NoError))
    ensures Step(env, issued, CreateRefresh(refresh, access, rb, now), false) == (done, Answer(None, NoError))
    ensures Exchanged(env, o.tx, done.tx, key, access, ra, refresh, rb)
  {
    var use, create, pair := UseOf(key, ra.id), CreateAccess(access, ra, now), CreateRefresh(refresh, access, rb, now);
    hide Good, Step, Encode, Writable, OfGrant, Used, Adds, Written, Live;
    assert OpenTo(env, o.ctx.binding, o.tx, ra.id);
    hide OpenTo, Exchanged;
    ExchangeableIsUsed(env, o, key, ra.id);
    used := Step(env, o, use, false).0;
    PlainAnswer(env, o, use);
    SameFrame(env, o, use);
    KeepsGood(env, o, use, false);
    UseKeepsService(env, o.ctx.binding, o.tx, used.tx, key, ra, rb);
    WritableAfterUse(env, o.tx, used.tx, key, ra.id, Key(Access, access), ra, now);
    WritableAfterUse(env, o.tx, used.tx, key, ra.id, Key(Refresh, refresh), rb, now);
    AccessIsAdded(env, used, access, ra, now);
    issued := Step(env, used, create, false).0;
    PlainAnswer(env, used, create);
    SameFrame(env, used, create);
    KeepsGood(env, used, create, false);
    AddKeepsService(env, o.ctx.binding, used.tx, issued.tx, Key(Access, access), ra, None, rb);
    WritableAfterAdd(env, used.tx, issued.tx, Key(Access, access), ra, None, Key(Refresh, refresh), rb, now);
    NewAccessIsPairable(env, used.tx, issued, access, ra);
    RefreshIsAdded(env, issued, refresh, access, rb, now);
    done := Step(env, issued, pair, false).0;
    PlainAnswer(env, issued, pair);
    StepsExchange(env, o.tx, used.tx, issued.tx, done.tx, key, access, ra, refresh, rb);
  }

  /** Only reads answer with a request. */
  lemma PlainAnswer(env: Env, o: Op, call: Call)
    requires Step(env, o, call, false).1.err == NoError
    requires !call.GetCode? && !call.GetPkce? && !call.GetAccess? && !call.GetRefresh?
    ensures Step(env, o, call, false).1 == Answer(None, NoError)
  {
    OnlyReadsReturnRequests(env, o, call, false);
    hide Step;
  }

  lemma UseKeepsService(env: Env, b: Binding, s: Shard, t: Shard, key: Key, ra: Request, rb: Request)
    requires Used(s, t, key, ra.id) && ra.id == rb.id && OpenTo(env, b, s, ra.id) && OfGrant(s, ra) && OfGrant(s, rb)
    ensures OpenTo(env, b, t, ra.id) && OfGrant(t, ra) && OfGrant(t, rb)
  {
  }

  lemma AddKeepsService(
    env: Env, b: Binding, s: Shard, t: Shard, key: Key, ra: Request, access: Option<string>, rb: Request)
    requires Adds(env, s, t, key, ra, access) && ra.id == rb.id && OpenTo(env, b, s, ra.id) && OfGrant(s, rb)
    ensures OpenTo(env, b, t, ra.id) && OfGrant(t, rb)
  {
    hide Written;
  }

  lemma FourCalls(env: Env, o: Op, calls: seq<Call>, o1: Op, o2: Op, o3: Op)
    requires |calls| == 4 && Step(env, o, calls[0], false).0 == o1 && Step(env, o1, calls[1], false).0 == o2
    requires Step(env, o2, calls[2], false).0 == o3
    ensures
      var steps := InTurn(calls);
      var log := LogOf(env, Start(o), steps);
      && log[0] == Entry(calls[0], Step(env, o, calls[0], false).1) && log[1] == Entry(calls[1], Step(env, o1, calls[1], false).1)
      && log[2] == Entry(calls[2], Step(env, o2, calls[2], false).1) && log[3] == Entry(calls[3], Step(env, o3, calls[3], false).1)
      && Exec(env, Start(o), steps).op == Step(env, o3, calls[3], false).0
  {
    hide Step, Exec;
    PassesThrough(env, InTurn(calls), [o, o1, o2, o3, Step(env, o3, calls[3], false).0]);
    hide LogOf;
  }

  function ExchangeOf(key: Key, access: string, ra: Request, refresh: string, rb: Request, now: nat): seq<Call> {
    [ReadOf(key), UseOf(key, ra.id), CreateAccess(access, ra, now), CreateRefresh(refresh, access, rb, now)]
  }

  lemma ExchangeIsPlain(key: Key, access: string, ra: Request, refresh: string, rb: Request, now: nat)
    ensures
      var calls := ExchangeOf(key, access, ra, refresh, rb, now);
      && |calls| == 4 && calls[0] == ReadOf(key) && calls[1] == UseOf(key, ra.id)
      && calls[2] == CreateAccess(access, ra, now) && calls[3] == CreateRefresh(refresh, access, rb, now)
      && forall i :: 0 <= i < 4 ==> !calls[i].BeginSavepoint? && !calls[i].RollbackSavepoint?
  {
  }

  lemma FourAreSmooth(log: Log, calls: seq<Call>)
    requires |log| == |calls| == 4
    requires log[0].call == calls[0] && log[1].call == calls[1] && log[2].call == calls[2] && log[3].call == calls[3]
    requires log[0].Ok() && log[1].Ok() && log[2].Ok() && log[3].Ok()
    requires forall i :: 0 <= i < 4 ==> !calls[i].BeginSavepoint? && !calls[i].RollbackSavepoint?
    ensures Smooth(log)
  {
  }

  /** Four calls that succeed one after the other. */
  lemma FourSucceed(env: Env, o: Op, calls: seq<Call>, o1: Op, o2: Op, o3: Op, o4: Op)
    requires |calls| == 4 && forall i :: 0 <= i < 4 ==> !calls[i].BeginSavepoint? && !calls[i].RollbackSavepoint?
    requires Step(env, o, calls[0], false).0 == o1 && Step(env, o, calls[0], false).1.err == NoError
    requires Step(env, o1, calls[1], false) == (o2, Answer(None, NoError))
    requires Step(env, o2, calls[2], false) == (o3, Answer(None, NoError))
    requires Step(env, o3, calls[3], false) == (o4, Answer(None, NoError))
    ensures Smooth(LogOf(env, Start(o), InTurn(calls))) && Exec(env, Start(o), InTurn(calls)).op == o4
  {
    hide Step, Exec, LogOf, Smooth, InTurn;
    FourCalls(env, o, calls, o1, o2, o3);
    FourAreSmooth(LogOf(env, Start(o), InTurn(calls)), calls);
  }

  /**
    A live code or refresh token of a grant that serves the client is exchanged: the driver
    reads it, uses it and issues a pair, and the commit leaves it used and the pair in place.
   */
  lemma CredentialIsExchanged(
    env: Env, s0: Shard, o: Op, key: Key, access: string, ra: Request, refresh: string, rb: Request, now: nat)
    requires Begun(o, s0) && Good(env, s0) && Exchangeable(env, o, key) && ra.id == rb.id == s0.creds[key].requestId
    requires OfGrant(s0, ra) && OfGrant(s0, rb)
    requires Writable(env, s0, Key(Access, access), ra, now) && Writable(env, s0, Key(Refresh, refresh), rb, now)
    ensures
      var f := Operate(env, s0, o, InTurn(ExchangeOf(key, access, ra, refresh, rb, now)), NoError, false);
      f.outcome.Committed? && Exchanged(env, s0, f.rows, key, access, ra, refresh, rb)
  {
    BegunIsOpened(o, s0);
    assert !o.ctx.binding.purpose.Authorize?;
    hide *;
    var calls := ExchangeOf(key, access, ra, refresh, rb, now);
    ExchangeIsPlain(key, access, ra, refresh, rb, now);
    ExchangeableIsRead(env, o, key);
    var used, issued, done := ExchangeCalls(env, o, key, access, ra, refresh, rb, now);
    FourSucceed(env, o, calls, o, used, issued, done);
    SmoothCommits(env, s0, o, InTurn(calls));
  }

  // ---- an authorization ------------------------------------------------------------------------

  /** What the three calls of an approval need. */
  predicate Approvable(
    env: Env, o: Op, handle: string, session: string, at: Time, code: string, pkce: string, r: Request, now: Time)
  {
    && o.ctx.binding.purpose.Authorize? && ConsentUsable(o.tx, handle, session, at)
    && handle != "" && session != "" && at != 0
    && r.id !in o.tx.grants && r.clientId == o.ctx.binding.clientId && r.session.accountId == o.tx.accountId
    && r.session.accountEpoch == o.tx.epoch && r.session.resource == o.ctx.binding.resource
    && o.ctx.binding.resource == env.registry.resource
    && Writable(env, o.tx, Key(Code, code), r, now) && Writable(env, o.tx, Key(Pkce, pkce), r, now)
  }

  /** What an approval leaves: the consent used, a new grant with its code and PKCE row, and nothing else changed. */
  ghost predicate Granted(env: Env, s: Shard, t: Shard, handle: string, code: string, pkce: string, r: Request) {
    && handle in s.consents && t.consents == s.consents[handle := s.consents[handle].(consumed := true)]
    && GrantWritten(t, r) && t.grants.Keys == s.grants.Keys + {r.id} && SameGrants(s, t, {r.id})
    && Written(env, t, Key(Code, code), r, None) && Written(env, t, Key(Pkce, pkce), r, None)
    && SameRows(s, t, {Key(Code, code), Key(Pkce, pkce)})
    && t == s.(consents := t.consents, grants := t.grants, creds := t.creds)
  }

  lemma StepsGrant(
    env: Env, s: Shard, t: Shard, u: Shard, v: Shard, handle: string, code: string, pkce: string, r: Request)
    requires handle in s.consents && t == s.(consents := s.consents[handle := s.consents[handle].(consumed := true)])
    requires GrantWritten(u, r) && SameGrants(t, u, {r.id}) && r.id !in s.grants && SameElsewhere(t, u)
    requires Written(env, u, Key(Code, code), r, None) && SameRows(t, u, {Key(Code, code)})
    requires v.grants == u.grants && SameElsewhere(u, v)
    requires Written(env, v, Key(Pkce, pkce), r, None) && SameRows(u, v, {Key(Pkce, pkce)})
    ensures Granted(env, s, v, handle, code, pkce, r)
  {
    hide Encode;
    assert v.grants.Keys == s.grants.Keys + {r.id};
  }

  lemma ConsentIsTaken(env: Env, o: Op, handle: string, session: string, at: Time)
    requires o.ctx.binding.purpose.Authorize? && handle != "" && session != "" && at != 0
    requires ConsentUsable(o.tx, handle, session, at)
    ensures
      var step := Step(env, o, ConsumeConsent(handle, session, at, Approve), false);
      && step.1 == Answer(None, NoError) && handle in o.tx.consents
      && step.0.tx == o.tx.(consents := o.tx.consents[handle := o.tx.consents[handle].(consumed := true)])
  {
    hide Step;
    var call := ConsumeConsent(handle, session, at, Approve);
    ConsumeConsentIff(env, o, handle, session, at, Approve);
    PlainAnswer(env, o, call);
    ConsentSpent(env, o, call, false);
  }

  lemma CodeIsAdded(env: Env, o: Op, code: string, r: Request, now: nat)
    requires o.ctx.binding.purpose.Authorize? && OwnAccount(o) && r.id !in o.tx.grants
    requires r.clientId == o.ctx.binding.clientId && r.session.resource == o.ctx.binding.resource
    requires r.session.accountId == o.tx.accountId && r.session.accountEpoch == o.tx.epoch
    requires Writable(env, o.tx, Key(Code, code), r, now)
    ensures
      var step := Step(env, o, CreateCode(code, r, now), false);
      && step.1 == Answer(None, NoError) && GrantWritten(step.0.tx, r) && SameGrants(o.tx, step.0.tx, {r.id})
      && Written(env, step.0.tx, Key(Code, code), r, None) && SameRows(o.tx, step.0.tx, {Key(Code, code)})
      && SameElsewhere(o.tx, step.0.tx)
  {
    hide Step, Encode;
    var call := CreateCode(code, r, now);
    CreateCodeIff(env, o, code, r, now);
    PlainAnswer(env, o, call);
    CreationWrites(env, o, call, false);
    CodeCreated(env, o, call, false);
  }

  lemma PkceIsAdded(env: Env, o: Op, pkce: string, r: Request, now: nat)
    requires o.ctx.binding.purpose.Authorize? && OpenTo(env, o.ctx.binding, o.tx, r.id) && OfGrant(o.tx, r)
    requires Writable(env, o.tx, Key(Pkce, pkce), r, now)
    ensures
      var step := Step(env, o, CreatePkce(pkce, r, now), false);
      && step.1 == Answer(None, NoError) && step.0.tx.grants == o.tx.grants
      && Written(env, step.0.tx, Key(Pkce, pkce), r, None) && SameRows(o.tx, step.0.tx, {Key(Pkce, pkce)})
      && SameElsewhere(o.tx, step.0.tx)
  {
    hide Step, Encode, OpenTo, OfGrant;
    var call := CreatePkce(pkce, r, now);
    CreatePkceIff(env, o, pkce, r, now);
    PlainAnswer(env, o, call);
    CreationWrites(env, o, call, false);
    CredentialCreated(env, o, call, false, Key(Pkce, pkce));
    PkceKeepsGrants(env, o, pkce, r, now);
  }

  lemma PkceKeepsGrants(env: Env, o: Op, pkce: string, r: Request, now: nat)
    ensures Step(env, o, CreatePkce(pkce, r, now), false).0.tx.grants == o.tx.grants
  {
    hide Encode, LockGrant, WriteSnapshotMatches;
  }

  function ApprovalOf(handle: string, session: string, at: Time, code: string, pkce: string, r: Request, now: nat): seq<Call> {
    [ConsumeConsent(handle, session, at, Approve), CreateCode(code, r, now), CreatePkce(pkce, r, now)]
  }

  lemma NewGrantServes(env: Env, o: Op, next: Op, handle: string, session: string, at: Time, code: string, pkce: string,
                       r: Request, now: Time)
    requires Approvable(env, o, handle, session, at, code, pkce, r, now) && GrantWritten(next.tx, r) && next.ctx == o.ctx
    requires next.tx.active == o.tx.active && next.tx.epoch == o.tx.epoch && next.tx.accountId == o.tx.accountId
    ensures OpenTo(env, next.ctx.binding, next.tx, r.id) && OfGrant(next.tx, r)
  {
    hide Validate;
  }

  lemma ApprovalCalls(
    env: Env, o: Op, handle: string, session: string, at: Time, code: string, pkce: string, r: Request, now: nat)
    returns (decided: Op, coded: Op, done: Op)
    requires OwnAccount(o) && Approvable(env, o, handle, session, at, code, pkce, r, now)
    ensures Step(env, o, ConsumeConsent(handle, session, at, Approve), false) == (decided, Answer(None, NoError))
    ensures Step(env, decided, CreateCode(code, r, now), false) == (coded, Answer(None, NoError))
    ensures Step(env, coded, CreatePkce(pkce, r, now), false) == (done, Answer(None, NoError))
    ensures Granted(env, o.tx, done.tx, handle, code, pkce, r)
  {
    var consume, create := ConsumeConsent(handle, session, at, Approve), CreateCode(code, r, now);
    hide Step, Encode, GrantWritten, Written, SameRows, SameGrants, Granted, OpenTo, OfGrant, ConsentUsable;
    ConsentIsTaken(env, o, handle, session, at);
    decided := Step(env, o, consume, false).0;
    SameFrame(env, o, consume);
    CodeIsAdded(env, decided, code, r, now);
    coded := Step(env, decided, create, false).0;
    SameFrame(env, decided, create);
    NewGrantServes(env, o, coded, handle, session, at, code, pkce, r, now);
    StillWritable(env, decided.tx, coded.tx, Key(Code, code), Key(Pkce, pkce), r, now);
    PkceIsAdded(env, coded, pkce, r, now);
    done := Step(env, coded, CreatePkce(pkce, r, now), false).0;
    StepsGrant(env, o.tx, decided.tx, coded.tx, done.tx, handle, code, pkce, r);
  }

  lemma StillWritable(env: Env, s: Shard, t: Shard, added: Key, key: Key, r: Request, now: Time)
    requires SameRows(s, t, {added}) && key != added && Writable(env, s, key, r, now)
    ensures Writable(env, t, key, r, now)
  {
    hide Encode;
  }

  lemma ThreeCalls(env: Env, o: Op, calls: seq<Call>, o1: Op, o2: Op)
    requires |calls| == 3 && Step(env, o, calls[0], false).0 == o1 && Step(env, o1, calls[1], false).0 == o2
    ensures
      var steps := InTurn(calls);
      var log := LogOf(env, Start(o), steps);
      && log[0] == Entry(calls[0], Step(env, o, calls[0], false).1) && log[1] == Entry(calls[1], Step(env, o1, calls[1], false).1)
      && log[2] == Entry(calls[2], Step(env, o2, calls[2], false).1)
      && Exec(env, Start(o), steps).op == Step(env, o2, calls[2], false).0
  {
    hide Step, Exec;
    PassesThrough(env, InTurn(calls), [o, o1, o2, Step(env, o2, calls[2], false).0]);
    hide LogOf;
  }

  lemma ApprovalLog(log: Log, handle: string, session: string, at: Time, code: string, pkce: string, r: Request, now: nat)
    requires |log| == 3 && log[0].Ok() && log[1].Ok() && log[2].Ok()
    requires log[0].call == ConsumeConsent(handle, session, at, Approve)
    requires log[1].call == CreateCode(code, r, now) && log[2].call == CreatePkce(pkce, r, now)
    ensures Clear(log, false) && !Replays(log) && Decides(log, Approve) && MakesCode(log) && MakesPkce(log)
  {
    assert ConsumesAt(log, 0) && forall j :: 0 < j ==> !ConsumesAt(log, j);
    assert log[1].Ok() && log[2].Ok();
  }

  lemma ApprovalRuns(
    env: Env, o: Op, handle: string, session: string, at: Time, code: string, pkce: string, r: Request, now: nat)
    requires OwnAccount(o) && Approvable(env, o, handle, session, at, code, pkce, r, now)
    ensures
      var steps := InTurn(ApprovalOf(handle, session, at, code, pkce, r, now));
      var log := LogOf(env, Start(o), steps);
      && Clear(log, false) && !Replays(log) && Decides(log, Approve) && MakesCode(log) && MakesPkce(log)
      && Granted(env, o.tx, Exec(env, Start(o), steps).op.tx, handle, code, pkce, r)
  {
    var calls := ApprovalOf(handle, session, at, code, pkce, r, now);
    hide Step, Exec, LogOf, Granted, InTurn, OwnAccount, Approvable, Clear, Replays, Decides, MakesCode, MakesPkce;
    var decided, coded, done := ApprovalCalls(env, o, handle, session, at, code, pkce, r, now);
    ThreeCalls(env, o, calls, decided, coded);
    ApprovalLog(LogOf(env, Start(o), InTurn(calls)), handle, session, at, code, pkce, r, now);
  }

  /**
    A usable consent of an active account, and a request of the binding that is new: the
    approval commits, with the consent used and a grant, a code and a PKCE row in place.
   */
  lemma ConsentIsGranted(
    env: Env, s0: Shard, o: Op, handle: string, session: string, at: Time, code: string, pkce: string, r: Request, now: nat)
    requires Begun(o, s0) && Approvable(env, o, handle, session, at, code, pkce, r, now)
    ensures
      var f := Operate(env, s0, o, InTurn(ApprovalOf(handle, session, at, code, pkce, r, now)), NoError, false);
      f.outcome.Committed? && Granted(env, s0, f.rows, handle, code, pkce, r)
  {
    BegunIsOwn(env, o, s0);
    BegunIsOpened(o, s0);
    hide *;
    ApprovalRuns(env, o, handle, session, at, code, pkce, r, now);
    CommitsExactly(env, s0, o, InTurn(ApprovalOf(handle, session, at, code, pkce, r, now)), NoError, false);
  }

  lemma BegunIsOwn(env: Env, o: Op, s0: Shard)
    requires Begun(o, s0)
    ensures OwnAccount(o)
  {
  }
}
