/**
  Histories of one account: any list of operations by any drivers, mixed with
  blocking, unblocking, logins, logouts, consent bindings and every cleanup.
 */
module OAuthHistory {
  import opened Prelude
  import opened RequestCodec
  import opened OAuthTables
  import opened OAuthOperation
  import opened OAuthEffects
  import opened OAuthInvariants
  import opened OAuthRuns
  import opened OAuthSafety

  datatype Transition =
    | Operation(ctx: Context, flags: Flags, inSavepoint: bool, steps: Steps, protocolErr: Error, fault: bool)
    | BlockAccount
    | UnblockAccount
    | Login(session: string, webSession: WebSession)
    | Logout(session: string)
    | BindConsent(handle: string, session: string, ciphertext: string, expiresAt: Time, at: Time)
    | CleanFamily(requestId: string, now: int)
    | CleanConsents(handles: set<string>, now: Time)
    | CleanSessions(sessions: set<string>, now: Time)

  /** Transitions that do not wait for the account row. */
  predicate Loose(tr: Transition) { tr.Logout? || tr.CleanConsents? || tr.CleanSessions? }

  function OpenOp(tr: Transition, s: Shard): Op
    requires tr.Operation?
  {
    Op(tr.ctx, tr.flags, if tr.inSavepoint then Some(s) else None, s)
  }

  /** A web session can stand for the account: live, unexpired, at the current epoch of an active account. */
  predicate SessionUsable(s: Shard, session: string, at: Time) {
    && session in s.webSessions && s.active && s.epoch == s.webSessions[session].accountEpoch
    && !s.webSessions[session].revoked && at < s.webSessions[session].expiresAt
  }

  predicate CanTake(s: Shard, tr: Transition) {
    match tr
    case Operation(_, _, _, _, _, _) => Opened(OpenOp(tr, s), s)
    case Login(session, w) => session !in s.webSessions && w.accountEpoch == s.epoch && s.active && !w.revoked
    case BindConsent(handle, session, _, expiresAt, at) =>
      handle !in s.consents && SessionUsable(s, session, at) && at < expiresAt
    case _ => true
  }

  function Take(env: Env, s: Shard, tr: Transition): Shard {
    match tr
    case Operation(_, _, _, steps, protocolErr, fault) => Operate(env, s, OpenOp(tr, s), steps, protocolErr, fault).rows
    case BlockAccount => Block(s)
    case UnblockAccount => Unblock(s)
    case Login(session, w) => s.(webSessions := s.webSessions[session := w])
    case Logout(_) => Loosened(s, tr)
    case BindConsent(handle, session, ciphertext, expiresAt, _) =>
      s.(consents := s.consents[handle := Consent(ciphertext, expiresAt, session, false)])
    case CleanFamily(requestId, now) => DeleteFamily(s, requestId, now)
    case CleanConsents(_, _) => Loosened(s, tr)
    case CleanSessions(_, _) => Loosened(s, tr)
  }

  predicate Cleans(tr: Transition) { tr.CleanFamily? || tr.CleanConsents? || tr.CleanSessions? }

  /** What a loose transition makes of any copy of the account's tables. */
  function Loosened(s: Shard, tr: Transition): Shard {
    match tr
    case Logout(session) => LogOut(s, session)
    case CleanConsents(handles, now) => DeleteConsents(s, handles, now)
    case CleanSessions(sessions, now) => DeleteSessions(s, sessions, now)
    case _ => s
  }

  /** The committed tables after a history. */
  function After(env: Env, s: Shard, h: seq<Transition>): Shard
    decreases |h|
  {
    if h == [] then s else Take(env, After(env, s, h[..|h| - 1]), h[|h| - 1])
  }

  predicate Valid(env: Env, s: Shard, h: seq<Transition>)
    decreases |h|
  {
    h != [] ==> Valid(env, s, h[..|h| - 1]) && CanTake(After(env, s, h[..|h| - 1]), h[|h| - 1])
  }

  lemma OneMore(env: Env, s: Shard, h: seq<Transition>, tr: Transition, before: Shard)
    requires Valid(env, s, h) && After(env, s, h) == before && CanTake(before, tr)
    ensures Valid(env, s, h + [tr]) && After(env, s, h + [tr]) == Take(env, before, tr)
  {
    assert (h + [tr])[..|h + [tr]| - 1] == h;
    hide Take, CanTake;
  }

  // ---- one transition -----------------------------------------------------------

  lemma BlockGrows(s: Shard)
    ensures Grows(s, Block(s)) && Grows(s, Unblock(s))
  {
  }

  lemma TakeGrows(env: Env, s: Shard, tr: Transition)
    requires Good(env, s) && CanTake(s, tr) && !Cleans(tr)
    ensures Grows(s, Take(env, s, tr))
  {
    hide Operate, Good, Block, Unblock, Opened;
    match tr
    case Operation(_, _, _, steps, protocolErr, fault) =>
      OperationIsAtomic(env, s, OpenOp(tr, s), steps, protocolErr, fault);
    case BlockAccount => BlockGrows(s);
    case UnblockAccount => BlockGrows(s);
    case _ =>
  }

  /** The cleanup of consents and web sessions leaves grants and credentials alone. */
  lemma ShortCleanupKeepsTokens(env: Env, s: Shard, tr: Transition)
    requires tr.CleanConsents? || tr.CleanSessions?
    ensures var t := Take(env, s, tr);
      && t == s.(webSessions := t.webSessions, consents := t.consents)
      && (forall h :: h in t.consents ==> h in s.consents && t.consents[h] == s.consents[h])
      && (forall w :: w in t.webSessions ==> w in s.webSessions && t.webSessions[w] == s.webSessions[w])
  {
  }

  /** And it spares a consent that has not expired and whose web session has not either. */
  lemma CleanupSparesConsents(env: Env, s: Shard, tr: Transition, handle: string)
    requires tr.CleanConsents? || tr.CleanSessions?
    requires handle in s.consents && tr.now < s.consents[handle].expiresAt
    requires s.consents[handle].session in s.webSessions
    requires tr.now < s.webSessions[s.consents[handle].session].expiresAt
    ensures var t := Take(env, s, tr);
      && handle in t.consents && t.consents[handle] == s.consents[handle]
      && s.consents[handle].session in t.webSessions
      && t.webSessions[s.consents[handle].session] == s.webSessions[s.consents[handle].session]
  {
  }

  /** The rows that agreement speaks of, and what it compares them with. */
  predicate SameTokens(s: Shard, t: Shard) {
    t.accountId == s.accountId && t.grants == s.grants && t.creds == s.creds && s.epoch <= t.epoch
  }

  /** A row stays good while its grant only grows, or goes away with it. */
  lemma RowStaysGood(env: Env, s: Shard, t: Shard, k: Key)
    requires Good(env, s) && k in s.creds && k in t.creds && t.creds[k] == s.creds[k] && t.accountId == s.accountId
    requires s.creds[k].requestId in s.grants ==>
      s.creds[k].requestId in t.grants && GrantGrows(s.grants[s.creds[k].requestId], t.grants[s.creds[k].requestId])
    ensures RowMatches(env, t, k, t.creds[k]) && s.creds[k].requestId in s.grants
    ensures RefreshPaired(s, s.creds[k])
    ensures !k.kind.Pkce? ==> t.creds[k].expiresAt <= t.grants[t.creds[k].requestId].retainUntil
  {
    hide RowMatches;
    assert RowMatches(env, s, k, s.creds[k]);
    RowHasGrant(env, s, k);
    RowStillMatches(env, s, t, k, s.creds[k], t.creds[k]);
  }

  lemma SameTokensStayGood(env: Env, s: Shard, t: Shard)
    requires Good(env, s) && SameTokens(s, t)
    ensures Good(env, t)
  {
    hide RowMatches;
    forall k | k in t.creds
      ensures RowMatches(env, t, k, t.creds[k])
    {
      RowStaysGood(env, s, t, k);
    }
  }

  lemma BlockKeepsGood(env: Env, s: Shard)
    requires Good(env, s)
    ensures Good(env, Block(s))
  {
    hide RowMatches;
    var t := Block(s);
    forall k | k in t.creds
      ensures RowMatches(env, t, k, t.creds[k]) && t.creds[k].requestId in t.grants && RefreshPaired(t, t.creds[k])
      ensures !k.kind.Pkce? ==> t.creds[k].expiresAt <= t.grants[t.creds[k].requestId].retainUntil
    {
      RowStaysGood(env, s, t, k);
    }
  }

  /** Deleting a family takes whole rows away, tokens together with the access token they name. */
  lemma DeleteKeepsGood(env: Env, s: Shard, requestId: string, now: int)
    requires Good(env, s)
    ensures Good(env, DeleteFamily(s, requestId, now))
  {
    hide RowMatches;
    var t := DeleteFamily(s, requestId, now);
    if t != s {
      forall k | k in t.creds
        ensures RowMatches(env, t, k, t.creds[k]) && t.creds[k].requestId in t.grants && RefreshPaired(t, t.creds[k])
        ensures !k.kind.Pkce? ==> t.creds[k].expiresAt <= t.grants[t.creds[k].requestId].retainUntil
      {
        RowStaysGood(env, s, t, k);
      }
    }
  }

  lemma TakeKeepsGood(env: Env, s: Shard, tr: Transition)
    requires Good(env, s) && CanTake(s, tr)
    ensures Good(env, Take(env, s, tr))
  {
    hide Operate, Good, Block, DeleteFamily, Opened;
    match tr
    case Operation(_, _, _, steps, protocolErr, fault) =>
      OperationIsAtomic(env, s, OpenOp(tr, s), steps, protocolErr, fault);
    case BlockAccount => BlockKeepsGood(env, s);
    case CleanFamily(requestId, now) => DeleteKeepsGood(env, s, requestId, now);
    case _ => SameTokensStayGood(env, s, Take(env, s, tr));
  }

  /** Write/read agreement holds in every reachable state. */
  lemma {:induction false} AlwaysGood(env: Env, s: Shard, h: seq<Transition>)
    requires Good(env, s) && Valid(env, s, h)
    ensures Good(env, After(env, s, h))
    decreases |h|
  {
    hide Good, Take, CanTake;
    if h != [] {
      AlwaysGood(env, s, h[..|h| - 1]);
      TakeKeepsGood(env, After(env, s, h[..|h| - 1]), h[|h| - 1]);
    }
  }

  /** Cleanup never takes a credential, other than a PKCE row, before it expires. */
  lemma CleanupWaits(env: Env, s: Shard, requestId: string, now: int, k: Key)
    requires Good(env, s) && k in s.creds && !k.kind.Pkce? && now < s.creds[k].expiresAt
    ensures k in DeleteFamily(s, requestId, now).creds && DeleteFamily(s, requestId, now).creds[k] == s.creds[k]
  {
    hide Validate;
  }

  /** What has expired goes with its batch: a consent, a web session and the consents bound to it, a retained family. */
  lemma CleanupTakesExpired(env: Env, s: Shard, name: string, now: int)
    ensures name in s.consents && s.consents[name].expiresAt <= now ==> name !in Take(env, s, CleanConsents({name}, now)).consents
    ensures name in s.webSessions && s.webSessions[name].expiresAt <= now ==>
      var t := Take(env, s, CleanSessions({name}, now));
      name !in t.webSessions && forall h :: h in t.consents ==> t.consents[h].session != name
    ensures name in s.grants && s.grants[name].retainUntil <= now ==>
      var t := Take(env, s, CleanFamily(name, now));
      name !in t.grants && forall k :: k in t.creds ==> t.creds[k].requestId != name
  {
  }

  // ---- reads agree with what was written -------------------------------------------

  lemma HydrateGood(env: Env, s: Shard, k: Key, target: Option<Expirations>)
    requires Good(env, s) && k in s.creds
    ensures s.creds[k].requestId in s.grants
    ensures Hydrate(env, s, s.creds[k], k.kind, target) == Decode(env.registry, s.creds[k].payload, target)
    ensures Hydrate(env, s, s.creds[k], k.kind, target).Some?
    ensures Hydrate(env, s, s.creds[k], k.kind, target).value.id == s.creds[k].requestId
  {
    hide Validate;
    HydrationKeepsStored(s.creds[k].payload.session.expiresAt, target, ExpiryType(k.kind));
  }

  lemma LockNeverFails(env: Env, o: Op, key: Key)
    requires Good(env, o.tx)
    ensures LockForMutation(env, o, key, false) != Err(StorageFailure)
  {
    hide Good, Hydrate, GrantOpen;
    if key in o.tx.creds {
      HydrateGood(env, o.tx, key, None);
    }
  }

  lemma ConsumeNeverFails(env: Env, o: Op, key: Key)
    requires Good(env, o.tx)
    ensures StepConsume(env, o, key, false).1.err != StorageFailure
  {
    LockNeverFails(env, o, key);
    hide Good, LockForMutation, ConsumeSession;
  }

  lemma DeleteNeverFails(env: Env, o: Op, key: Key)
    requires Good(env, o.tx)
    ensures StepDelete(env, o, key, false).1.err != StorageFailure
  {
    LockNeverFails(env, o, key);
    hide Good, LockForMutation, RevokeSession;
  }

  lemma RotateNeverFails(env: Env, o: Op, requestId: string, signature: string)
    requires Good(env, o.tx)
    ensures StepRotate(env, o, requestId, signature, false).1.err != StorageFailure
  {
    LockNeverFails(env, o, Key(Refresh, signature));
    hide Good, LockForMutation, ConsumeSession, RevokeAccessTokens;
  }

  /** On good tables no marking call fails on the snapshot of its row. */
  lemma MarksNeverFail(env: Env, o: Op, call: Call)
    requires Good(env, o.tx)
    requires call.InvalidateCode? || call.DeletePkce? || call.DeleteAccess? || call.DeleteRefresh? || call.Rotate?
    ensures Step(env, o, call, false).1.err != StorageFailure
  {
    hide Good, StepConsume, StepDelete, StepRotate;
    match call
    case InvalidateCode(signature) => ConsumeNeverFails(env, o, Key(Code, signature));
    case DeletePkce(signature) => ConsumeNeverFails(env, o, Key(Pkce, signature));
    case DeleteAccess(signature) => DeleteNeverFails(env, o, Key(Access, signature));
    case DeleteRefresh(signature) => DeleteNeverFails(env, o, Key(Refresh, signature));
    case Rotate(requestId, signature) => RotateNeverFails(env, o, requestId, signature);
    case _ =>
  }

  /** The answer to a read is no storage failure, and a returned request is the stored snapshot of an open grant. */
  predicate Agrees(env: Env, o: Op, k: Key, target: Option<Expirations>, fault: bool, answer: Answer) {
    && (!fault ==> answer.err != StorageFailure)
    && (answer.request.Some? ==>
          && LockCredential(env, o, k).Some?
          && answer.request == Decode(env.registry, o.tx.creds[k].payload, target)
          && answer.request.value.id == o.tx.creds[k].requestId)
  }

  lemma GetCodeAgrees(env: Env, o: Op, signature: string, target: Option<Expirations>, fault: bool)
    requires Good(env, o.tx)
    ensures Agrees(env, o, Key(Code, signature), target, fault, StepGetCode(env, o, signature, target, fault).1)
  {
    hide Good, Hydrate, GrantOpen, Decode, ProveCode, ProveRefresh, ProveAccess;
    var k := Key(Code, signature);
    if k in o.tx.creds {
      HydrateGood(env, o.tx, k, target);
    }
  }

  lemma GetPkceAgrees(env: Env, o: Op, signature: string, target: Option<Expirations>, fault: bool)
    requires Good(env, o.tx)
    ensures Agrees(env, o, Key(Pkce, signature), target, fault, StepGetPkce(env, o, signature, target, fault).1)
  {
    hide Good, Hydrate, GrantOpen, Decode, ProveCode, ProveRefresh, ProveAccess;
    var k := Key(Pkce, signature);
    if k in o.tx.creds {
      HydrateGood(env, o.tx, k, target);
    }
  }

  lemma GetAccessAgrees(env: Env, o: Op, signature: string, target: Option<Expirations>, fault: bool)
    requires Good(env, o.tx)
    ensures Agrees(env, o, Key(Access, signature), target, fault, StepGetAccess(env, o, signature, target, fault).1)
  {
    hide Good, Hydrate, GrantOpen, Decode, ProveCode, ProveRefresh, ProveAccess;
    var k := Key(Access, signature);
    if k in o.tx.creds {
      HydrateGood(env, o.tx, k, target);
    }
  }

  lemma GetRefreshAgrees(env: Env, o: Op, signature: string, target: Option<Expirations>, fault: bool)
    requires Good(env, o.tx)
    ensures Agrees(env, o, Key(Refresh, signature), target, fault, StepGetRefresh(env, o, signature, target, fault).1)
  {
    hide Good, Hydrate, GrantOpen, Decode, ProveCode, ProveRefresh, ProveAccess;
    var k := Key(Refresh, signature);
    if k in o.tx.creds {
      HydrateGood(env, o.tx, k, target);
    }
  }

  function ReadKey(call: Call): Key
    requires call.GetCode? || call.GetPkce? || call.GetAccess? || call.GetRefresh?
  {
    Key(if call.GetCode? then Code else if call.GetPkce? then Pkce else if call.GetAccess? then Access else Refresh,
        call.signature)
  }

  /** Nor does a read, whatever expiries the target session carries; what it returns is the stored snapshot. */
  lemma ReadsAgree(env: Env, o: Op, call: Call, fault: bool)
    requires Good(env, o.tx) && (call.GetCode? || call.GetPkce? || call.GetAccess? || call.GetRefresh?)
    ensures Agrees(env, o, ReadKey(call), call.target, fault, Step(env, o, call, fault).1)
  {
    hide Good, Agrees, StepGetCode, StepGetAccess, StepGetPkce, StepGetRefresh, StepCreateCode, StepCreatePkce,
      StepCreateAccess, StepCreateRefresh, StepRevoke, StepConsumeConsent, StepConsume, StepDelete, StepRotate;
    match call
    case GetCode(signature, target) => GetCodeAgrees(env, o, signature, target, fault);
    case GetPkce(signature, target) => GetPkceAgrees(env, o, signature, target, fault);
    case GetAccess(signature, target) => GetAccessAgrees(env, o, signature, target, fault);
    case GetRefresh(signature, target) => GetRefreshAgrees(env, o, signature, target, fault);
  }
}
