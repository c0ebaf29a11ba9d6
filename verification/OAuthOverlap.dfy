/**
  Logouts and the cleanup of consents and web sessions take no account lock, so
  they can commit while an operation of the account is open. The operation sees
  them at its next statement, except on rows that it has locked itself, for which
  they wait. This module shows that it makes no difference whether such a
  transition came before the operation or during it.
 */
module OAuthOverlap {
  import opened Prelude
  import opened RequestCodec
  import opened OAuthTables
  import opened OAuthOperation
  import opened OAuthRuns
  import opened OAuthHistory

  /** The open operation afterwards: its private rows and its savepoint show the change. */
  function Refreshed(o: Op, tr: Transition): Op {
    o.(tx := Loosened(o.tx, tr), savepoint := if o.savepoint.Some? then Some(Loosened(o.savepoint.value, tr)) else None)
  }

  function RefreshedRun(t: Run, tr: Transition): Run { t.(op := Refreshed(t.op, tr)) }

  /** The call finds its consent and its web session, and locks both rows until the operation ends. */
  predicate FindsConsent(o: Op, call: Call, fault: bool) {
    && call.ConsumeConsent? && !fault && o.ctx.binding.purpose.Authorize?
    && call.handle != "" && call.session != "" && call.at != 0
    && call.handle in o.tx.consents && call.session in o.tx.webSessions
  }

  /** The transition changes or deletes this web session or this consent. */
  predicate Touches(s: Shard, tr: Transition, session: string, handle: string) {
    match tr
    case Logout(w) => w == session
    case CleanConsents(handles, now) => handle in ExpiredConsents(s, handles, now)
    case CleanSessions(sessions, now) =>
      var gone := ExpiredSessions(s, sessions, now);
      session in gone || handle in BoundTo(s, gone)
    case _ => false
  }

  predicate Waits(o: Op, tr: Transition, call: Call, fault: bool) {
    FindsConsent(o, call, fault) && Touches(o.tx, tr, call.session, call.handle)
  }

  /** No call so far has locked a row that the transition changes. */
  predicate Untouched(env: Env, t: Run, steps: Steps, tr: Transition)
    decreases |steps|
  {
    steps != [] ==>
      && !Waits(t.op, tr, steps[0].0, steps[0].1)
      && Untouched(env, Advance(env, t, steps[0].0, steps[0].1), steps[1..], tr)
  }

  // ---- calls do not see the change ----------------------------------------------------

  /** Only web sessions and consents differ. */
  predicate SameButConsents(s: Shard, t: Shard) {
    t == s.(webSessions := t.webSessions, consents := t.consents)
  }

  lemma LoosenedIsSame(s: Shard, tr: Transition)
    ensures SameButConsents(s, Loosened(s, tr))
  {
  }

  /** The rest of the tables, with the consents and web sessions of another copy. */
  function Grafted(s: Shard, from: Shard): Shard { s.(webSessions := from.webSessions, consents := from.consents) }

  function GraftedOp(o: Op, from: Shard, savepoint: Option<Shard>): Op {
    o.(tx := Grafted(o.tx, from), savepoint := savepoint)
  }

  lemma LocksAgree(env: Env, o: Op, from: Shard, sp: Option<Shard>, key: Key, requestId: string)
    ensures LockCredential(env, GraftedOp(o, from, sp), key) == LockCredential(env, o, key)
    ensures LockGrant(env, GraftedOp(o, from, sp), requestId) == LockGrant(env, o, requestId)
    ensures LockGrantForRevocation(env, GraftedOp(o, from, sp), requestId) == LockGrantForRevocation(env, o, requestId)
  {
  }

  lemma HydrateAgrees(env: Env, s: Shard, from: Shard, c: Credential, kind: Kind, target: Option<Expirations>)
    requires c.requestId in s.grants
    ensures Hydrate(env, Grafted(s, from), c, kind, target) == Hydrate(env, s, c, kind, target)
  {
    hide Decode;
  }

  lemma MutationAgrees(env: Env, o: Op, from: Shard, sp: Option<Shard>, key: Key, fault: bool)
    ensures LockForMutation(env, GraftedOp(o, from, sp), key, fault) == LockForMutation(env, o, key, fault)
  {
    LocksAgree(env, o, from, sp, key, "");
    if LockCredential(env, o, key).Some? {
      HydrateAgrees(env, o.tx, from, o.tx.creds[key], key.kind, None);
    }
    hide Hydrate, GrantOpen;
  }

  /** What a call makes of an operation whose consents and web sessions are another copy's. */
  predicate Blind(before: (Op, Answer), after: (Op, Answer), from: Shard, sp: Option<Shard>) {
    after == (GraftedOp(before.0, from, sp), before.1)
  }

  lemma RowAgrees(env: Env, o: Op, from: Shard, sp: Option<Shard>, key: Key, target: Option<Expirations>)
    ensures LockCredential(env, GraftedOp(o, from, sp), key) == LockCredential(env, o, key)
    ensures LockCredential(env, o, key).Some? ==>
      && key in o.tx.creds && o.tx.creds[key].requestId in o.tx.grants
      && Hydrate(env, Grafted(o.tx, from), o.tx.creds[key], key.kind, target)
         == Hydrate(env, o.tx, o.tx.creds[key], key.kind, target)
  {
    LocksAgree(env, o, from, sp, key, "");
    if LockCredential(env, o, key).Some? { HydrateAgrees(env, o.tx, from, o.tx.creds[key], key.kind, target); }
    hide Hydrate, GrantOpen;
  }

  lemma CodeAndPkceReadsAreBlind(env: Env, o: Op, from: Shard, sp: Option<Shard>, signature: string,
                                 target: Option<Expirations>, fault: bool)
    ensures Blind(StepGetCode(env, o, signature, target, fault),
                  StepGetCode(env, GraftedOp(o, from, sp), signature, target, fault), from, sp)
    ensures Blind(StepGetPkce(env, o, signature, target, fault),
                  StepGetPkce(env, GraftedOp(o, from, sp), signature, target, fault), from, sp)
  {
    RowAgrees(env, o, from, sp, Key(Code, signature), target);
    RowAgrees(env, o, from, sp, Key(Pkce, signature), target);
    hide Hydrate, GrantOpen;
  }

  lemma TokenReadsAreBlind(env: Env, o: Op, from: Shard, sp: Option<Shard>, signature: string,
                           target: Option<Expirations>, fault: bool)
    ensures Blind(StepGetAccess(env, o, signature, target, fault),
                  StepGetAccess(env, GraftedOp(o, from, sp), signature, target, fault), from, sp)
    ensures Blind(StepGetRefresh(env, o, signature, target, fault),
                  StepGetRefresh(env, GraftedOp(o, from, sp), signature, target, fault), from, sp)
  {
    RowAgrees(env, o, from, sp, Key(Access, signature), target);
    RowAgrees(env, o, from, sp, Key(Refresh, signature), target);
    hide Hydrate, GrantOpen;
  }

  lemma ReadsAreBlind(env: Env, o: Op, from: Shard, sp: Option<Shard>, call: Call, fault: bool)
    requires call.GetCode? || call.GetPkce? || call.GetAccess? || call.GetRefresh?
    ensures Blind(Step(env, o, call, fault), Step(env, GraftedOp(o, from, sp), call, fault), from, sp)
  {
    CodeAndPkceReadsAreBlind(env, o, from, sp, call.signature, call.target, fault);
    TokenReadsAreBlind(env, o, from, sp, call.signature, call.target, fault);
    hide Blind, StepCreateCode, StepCreatePkce, StepCreateAccess, StepCreateRefresh, StepGetCode, StepGetAccess,
      StepGetRefresh, StepGetPkce, StepConsume, StepDelete, StepRotate, StepRevoke, StepConsumeConsent;
  }

  lemma CreateCodeIsBlind(env: Env, o: Op, from: Shard, sp: Option<Shard>, signature: string, r: Request, now: nat, fault: bool)
    ensures Blind(StepCreateCode(env, o, signature, r, now, fault),
                  StepCreateCode(env, GraftedOp(o, from, sp), signature, r, now, fault), from, sp)
  {
    hide Encode, Micros, ExpiresAt, InsertGrant, InsertSession;
    var expiresAt := Micros(ExpiresAt(r.session.expiresAt, AuthorizeCode));
    var grant := Grant(r.session.accountEpoch, r.clientId, r.session.resource, None, expiresAt);
    GrantAgrees(o.tx, from, r.id, grant);
    if Encode(env.registry, r).Some? && InsertGrant(o.tx, r.id, grant).Some? {
      var c := Credential(r.id, Encode(env.registry, r).value, expiresAt, None, false, false);
      InsertAgrees(InsertGrant(o.tx, r.id, grant).value, from, Key(Code, signature), c, now, expiresAt);
    }
  }

  lemma GrantAgrees(s: Shard, from: Shard, requestId: string, g: Grant)
    ensures InsertGrant(Grafted(s, from), requestId, g) ==
            match InsertGrant(s, requestId, g) { case None => None case Some(t) => Some(Grafted(t, from)) }
  {
  }

  lemma CreatePkceIsBlind(env: Env, o: Op, from: Shard, sp: Option<Shard>, signature: string, r: Request, now: nat, fault: bool)
    ensures Blind(StepCreatePkce(env, o, signature, r, now, fault),
                  StepCreatePkce(env, GraftedOp(o, from, sp), signature, r, now, fault), from, sp)
  {
    hide Encode, GrantOpen, WriteSnapshotMatches, InsertSession, Micros, ExpiresAt;
    LocksAgree(env, o, from, sp, Key(Code, ""), r.id);
    if r.id in o.tx.grants { WriteAgrees(o.tx, from, r.id, r); }
    if Encode(env.registry, r).Some? {
      var expiresAt := Micros(ExpiresAt(r.session.expiresAt, AuthorizeCode));
      var c := Credential(r.id, Encode(env.registry, r).value, expiresAt, None, false, false);
      InsertAgrees(o.tx, from, Key(Pkce, signature), c, now, expiresAt);
    }
  }

  lemma InsertAgrees(s: Shard, from: Shard, key: Key, c: Credential, now: Time, until: int)
    ensures InsertSession(Grafted(s, from), key, c, now) ==
            match InsertSession(s, key, c, now) { case None => None case Some(t) => Some(Grafted(t, from)) }
    ensures ExtendRetention(Grafted(s, from), c.requestId, until) == Grafted(ExtendRetention(s, c.requestId, until), from)
  {
  }

  lemma WriteAgrees(s: Shard, from: Shard, requestId: string, r: Request)
    requires requestId in s.grants
    ensures WriteSnapshotMatches(Grafted(s, from), requestId, r) == WriteSnapshotMatches(s, requestId, r)
  {
  }

  lemma CreateAccessIsBlind(
    env: Env, o: Op, from: Shard, sp: Option<Shard>, signature: string, r: Request, now: nat, fault: bool)
    ensures Blind(StepCreateAccess(env, o, signature, r, now, fault),
                  StepCreateAccess(env, GraftedOp(o, from, sp), signature, r, now, fault), from, sp)
  {
    hide Encode, GrantOpen, WriteSnapshotMatches, InsertSession, ExtendRetention, Micros, ExpiresAt;
    LocksAgree(env, o, from, sp, Key(Code, ""), r.id);
    if r.id in o.tx.grants { WriteAgrees(o.tx, from, r.id, r); }
    if Encode(env.registry, r).Some? {
      var expiresAt := Micros(ExpiresAt(r.session.expiresAt, AccessToken));
      var c := Credential(r.id, Encode(env.registry, r).value, expiresAt, None, false, false);
      InsertAgrees(o.tx, from, Key(Access, signature), c, now, expiresAt);
      if InsertSession(o.tx, Key(Access, signature), c, now).Some? {
        InsertAgrees(InsertSession(o.tx, Key(Access, signature), c, now).value, from, Key(Access, signature), c, now, expiresAt);
      }
    }
  }

  lemma CreateRefreshIsBlind(
    env: Env, o: Op, from: Shard, sp: Option<Shard>, signature: string, access: string, r: Request, now: nat, fault: bool)
    ensures Blind(StepCreateRefresh(env, o, signature, access, r, now, fault),
                  StepCreateRefresh(env, GraftedOp(o, from, sp), signature, access, r, now, fault), from, sp)
  {
    hide Encode, Hydrate, LockCredential, GrantOpen, WriteSnapshotMatches, InsertSession, ExtendRetention,
      Micros, ExpiresAt, LockGrantForRevocation;
    LocksAgree(env, o, from, sp, Key(Code, ""), r.id);
    if r.id in o.tx.grants { WriteAgrees(o.tx, from, r.id, r); }
    var key := Key(Access, access);
    if key in o.tx.creds && o.tx.creds[key].requestId in o.tx.grants {
      HydrateAgrees(env, o.tx, from, o.tx.creds[key], Access, None);
    }
    var encoded := Encode(env.registry, r);
    if encoded.Some? {
      var expiresAt := Micros(ExpiresAt(r.session.expiresAt, RefreshToken));
      var c := Credential(r.id, encoded.value, expiresAt, Some(access), false, false);
      InsertAgrees(o.tx, from, Key(Refresh, signature), c, now, expiresAt);
      if InsertSession(o.tx, Key(Refresh, signature), c, now).Some? {
        InsertAgrees(InsertSession(o.tx, Key(Refresh, signature), c, now).value, from, key, c, now, expiresAt);
      }
    }
  }

  lemma CreatesAreBlind(env: Env, o: Op, from: Shard, sp: Option<Shard>, call: Call, fault: bool)
    requires call.CreateCode? || call.CreatePkce? || call.CreateAccess? || call.CreateRefresh?
    ensures Blind(Step(env, o, call, fault), Step(env, GraftedOp(o, from, sp), call, fault), from, sp)
  {
    hide Blind, StepCreateCode, StepCreatePkce, StepCreateAccess, StepCreateRefresh, StepGetCode, StepGetAccess,
      StepGetRefresh, StepGetPkce, StepConsume, StepDelete, StepRotate, StepRevoke, StepConsumeConsent;
    match call
    case CreateCode(signature, r, now) => CreateCodeIsBlind(env, o, from, sp, signature, r, now, fault);
    case CreatePkce(signature, r, now) => CreatePkceIsBlind(env, o, from, sp, signature, r, now, fault);
    case CreateAccess(signature, r, now) => CreateAccessIsBlind(env, o, from, sp, signature, r, now, fault);
    case CreateRefresh(signature, access, r, now) => CreateRefreshIsBlind(env, o, from, sp, signature, access, r, now, fault);
  }

  lemma ConsumeIsBlind(env: Env, o: Op, from: Shard, sp: Option<Shard>, key: Key, fault: bool)
    ensures Blind(StepConsume(env, o, key, fault), StepConsume(env, GraftedOp(o, from, sp), key, fault), from, sp)
  {
    MutationAgrees(env, o, from, sp, key, fault);
    hide LockForMutation;
  }

  lemma DeleteIsBlind(env: Env, o: Op, from: Shard, sp: Option<Shard>, key: Key, fault: bool)
    ensures Blind(StepDelete(env, o, key, fault), StepDelete(env, GraftedOp(o, from, sp), key, fault), from, sp)
  {
    MutationAgrees(env, o, from, sp, key, fault);
    hide LockForMutation;
  }

  lemma RotateIsBlind(
    env: Env, o: Op, from: Shard, sp: Option<Shard>, requestId: string, signature: string, fault: bool)
    ensures Blind(StepRotate(env, o, requestId, signature, fault),
                  StepRotate(env, GraftedOp(o, from, sp), requestId, signature, fault), from, sp)
  {
    MutationAgrees(env, o, from, sp, Key(Refresh, signature), fault);
    hide LockForMutation;
  }

  lemma MarksAreBlind(env: Env, o: Op, from: Shard, sp: Option<Shard>, call: Call, fault: bool)
    requires call.InvalidateCode? || call.DeletePkce? || call.DeleteAccess? || call.DeleteRefresh? || call.Rotate?
    ensures Blind(Step(env, o, call, fault), Step(env, GraftedOp(o, from, sp), call, fault), from, sp)
  {
    hide Blind, StepConsume, StepDelete, StepRotate;
    match call
    case InvalidateCode(signature) => ConsumeIsBlind(env, o, from, sp, Key(Code, signature), fault);
    case DeletePkce(signature) => ConsumeIsBlind(env, o, from, sp, Key(Pkce, signature), fault);
    case DeleteAccess(signature) => DeleteIsBlind(env, o, from, sp, Key(Access, signature), fault);
    case DeleteRefresh(signature) => DeleteIsBlind(env, o, from, sp, Key(Refresh, signature), fault);
    case Rotate(requestId, signature) => RotateIsBlind(env, o, from, sp, requestId, signature, fault);
    case _ =>
  }

  lemma FamilyAgrees(s: Shard, from: Shard, requestId: string, reason: Reason)
    ensures RevokeFamily(Grafted(s, from), requestId, reason) == Grafted(RevokeFamily(s, requestId, reason), from)
    ensures RecordEvent(Grafted(s, from), requestId, reason) ==
            match RecordEvent(s, requestId, reason) { case None => None case Some(t) => Some(Grafted(t, from)) }
  {
  }

  lemma RevokeStepIsBlind(env: Env, o: Op, from: Shard, sp: Option<Shard>, requestId: string, fault: bool)
    ensures Blind(StepRevoke(env, o, requestId, fault), StepRevoke(env, GraftedOp(o, from, sp), requestId, fault), from, sp)
  {
    LocksAgree(env, o, from, sp, Key(Code, ""), requestId);
    FamilyAgrees(o.tx, from, requestId, RevocationReason(o));
    FamilyAgrees(RevokeFamily(o.tx, requestId, RevocationReason(o)), from, requestId, RevocationReason(o));
    hide LockGrantForRevocation, LockCredential, LockGrant, RevokeFamily, RecordEvent;
  }

  lemma RevokeIsBlind(env: Env, o: Op, from: Shard, sp: Option<Shard>, call: Call, fault: bool)
    requires call.Revoke?
    ensures Blind(Step(env, o, call, fault), Step(env, GraftedOp(o, from, sp), call, fault), from, sp)
  {
    hide Blind, StepRevoke;
    RevokeStepIsBlind(env, o, from, sp, call.requestId, fault);
  }

  /** Calls other than the consent call and the savepoint calls read neither consents nor web sessions. */
  lemma OthersAreBlind(env: Env, o: Op, from: Shard, sp: Option<Shard>, call: Call, fault: bool)
    requires !call.ConsumeConsent? && !call.BeginSavepoint? && !call.CommitSavepoint? && !call.RollbackSavepoint?
    ensures Blind(Step(env, o, call, fault), Step(env, GraftedOp(o, from, sp), call, fault), from, sp)
  {
    hide Blind, Step;
    if call.GetCode? || call.GetPkce? || call.GetAccess? || call.GetRefresh? {
      ReadsAreBlind(env, o, from, sp, call, fault);
    } else if call.CreateCode? || call.CreatePkce? || call.CreateAccess? || call.CreateRefresh? {
      CreatesAreBlind(env, o, from, sp, call, fault);
    } else if call.Revoke? {
      RevokeIsBlind(env, o, from, sp, call, fault);
    } else {
      MarksAreBlind(env, o, from, sp, call, fault);
    }
  }

  // ---- the consent call and the savepoint ------------------------------------------------

  /** Cleanup takes rows away, and changes none that it leaves. */
  lemma LoosenedRows(s: Shard, tr: Transition, session: string, handle: string)
    ensures handle in Loosened(s, tr).consents ==> handle in s.consents
    ensures session in Loosened(s, tr).webSessions ==> session in s.webSessions
    ensures !Touches(s, tr, session, handle) && handle in s.consents ==>
      handle in Loosened(s, tr).consents && Loosened(s, tr).consents[handle] == s.consents[handle]
    ensures !Touches(s, tr, session, handle) && session in s.webSessions ==>
      session in Loosened(s, tr).webSessions && Loosened(s, tr).webSessions[session] == s.webSessions[session]
  {
  }

  lemma SpendingKeepsExpiry(s: Shard, tr: Transition, session: string, handle: string)
    ensures var spent := ConsumeConsentRow(s, handle, session).0;
      && (tr.CleanConsents? ==> ExpiredConsents(spent, tr.handles, tr.now) == ExpiredConsents(s, tr.handles, tr.now))
      && (tr.CleanSessions? ==>
            var gone := ExpiredSessions(s, tr.sessions, tr.now);
            ExpiredSessions(spent, tr.sessions, tr.now) == gone && BoundTo(spent, gone) == BoundTo(s, gone))
  {
  }

  lemma MarkBesideRemoval(consents: map<string, Consent>, gone: set<string>, handle: string, c: Consent)
    requires handle !in gone
    ensures (consents - gone)[handle := c] == consents[handle := c] - gone
  {
  }

  /** Marking an untouched consent and the transition commute. */
  lemma SpendingCommutes(s: Shard, tr: Transition, session: string, handle: string)
    requires !Touches(s, tr, session, handle)
    ensures ConsumeConsentRow(Loosened(s, tr), handle, session).0 == Loosened(ConsumeConsentRow(s, handle, session).0, tr)
  {
    LoosenedRows(s, tr, session, handle);
    SpendingKeepsExpiry(s, tr, session, handle);
    if handle in s.consents {
      var c := s.consents[handle].(consumed := true);
      match tr {
        case CleanConsents(handles, now) => MarkBesideRemoval(s.consents, ExpiredConsents(s, handles, now), handle, c);
        case CleanSessions(sessions, now) =>
          MarkBesideRemoval(s.consents, BoundTo(s, ExpiredSessions(s, sessions, now)), handle, c);
        case _ =>
      }
    }
    hide ExpiredConsents, ExpiredSessions, BoundTo;
  }

  lemma ConsentCommutes(env: Env, o: Op, call: Call, fault: bool, tr: Transition)
    requires call.ConsumeConsent? && !Waits(o, tr, call, fault)
    ensures Step(env, Refreshed(o, tr), call, fault) == (Refreshed(Step(env, o, call, fault).0, tr), Step(env, o, call, fault).1)
  {
    LoosenedIsSame(o.tx, tr);
    if FindsConsent(o, call, fault) {
      LoosenedRows(o.tx, tr, call.session, call.handle);
      SpendingCommutes(o.tx, tr, call.session, call.handle);
    } else {
      LoosenedRows(o.tx, tr, call.session, call.handle);
    }
    hide Loosened, StepCreateCode, StepCreatePkce, StepCreateAccess, StepCreateRefresh, StepGetCode, StepGetAccess,
      StepGetRefresh, StepGetPkce, StepConsume, StepDelete, StepRotate, StepRevoke, Touches;
  }

  lemma SavepointCommutes(env: Env, o: Op, call: Call, fault: bool, tr: Transition)
    requires call.BeginSavepoint? || call.CommitSavepoint? || call.RollbackSavepoint?
    ensures Step(env, Refreshed(o, tr), call, fault) == (Refreshed(Step(env, o, call, fault).0, tr), Step(env, o, call, fault).1)
  {
    hide Loosened, StepCreateCode, StepCreatePkce, StepCreateAccess, StepCreateRefresh, StepGetCode, StepGetAccess,
      StepGetRefresh, StepGetPkce, StepConsume, StepDelete, StepRotate, StepRevoke, StepConsumeConsent;
  }

  lemma LoosenedByConsents(s: Shard, u: Shard, tr: Transition)
    requires u.webSessions == s.webSessions && u.consents == s.consents
    ensures Loosened(u, tr) == Grafted(u, Loosened(s, tr))
  {
  }

  /** Consents and web sessions do not change under these calls, so the transition can as well come after. */
  lemma OtherCommutes(env: Env, o: Op, call: Call, fault: bool, tr: Transition)
    requires !call.ConsumeConsent? && !call.BeginSavepoint? && !call.CommitSavepoint? && !call.RollbackSavepoint?
    ensures Step(env, Refreshed(o, tr), call, fault) == (Refreshed(Step(env, o, call, fault).0, tr), Step(env, o, call, fault).1)
  {
    var from, sp := Loosened(o.tx, tr), Refreshed(o, tr).savepoint;
    LoosenedByConsents(o.tx, o.tx, tr);
    assert Refreshed(o, tr) == GraftedOp(o, from, sp) && o == GraftedOp(o, o.tx, o.savepoint);
    OthersAreBlind(env, o, from, sp, call, fault);
    OthersAreBlind(env, o, o.tx, o.savepoint, call, fault);
    hide Step, Loosened;
    LoosenedByConsents(o.tx, Step(env, o, call, fault).0.tx, tr);
  }

  lemma StepCommutes(env: Env, o: Op, call: Call, fault: bool, tr: Transition)
    requires !Waits(o, tr, call, fault)
    ensures Step(env, Refreshed(o, tr), call, fault) == (Refreshed(Step(env, o, call, fault).0, tr), Step(env, o, call, fault).1)
  {
    hide Step, Refreshed, Waits;
    if call.ConsumeConsent? {
      ConsentCommutes(env, o, call, fault, tr);
    } else if call.BeginSavepoint? || call.CommitSavepoint? || call.RollbackSavepoint? {
      SavepointCommutes(env, o, call, fault, tr);
    } else {
      OtherCommutes(env, o, call, fault, tr);
    }
  }

  lemma AdvanceCommutes(env: Env, t: Run, call: Call, fault: bool, tr: Transition)
    requires !Waits(t.op, tr, call, fault)
    ensures Advance(env, RefreshedRun(t, tr), call, fault) == RefreshedRun(Advance(env, t, call, fault), tr)
  {
    StepCommutes(env, t.op, call, fault, tr);
    hide Step, Waits, Loosened;
  }

  /** A whole run over the changed tables is the run over the old ones, with the change at its end. */
  lemma {:induction false} RunCommutes(env: Env, t: Run, steps: Steps, tr: Transition)
    requires Untouched(env, t, steps, tr)
    ensures Exec(env, RefreshedRun(t, tr), steps) == RefreshedRun(Exec(env, t, steps), tr)
    decreases |steps|
  {
    if steps != [] {
      AdvanceCommutes(env, t, steps[0].0, steps[0].1, tr);
      hide Advance, RefreshedRun, Waits;
      RunCommutes(env, Advance(env, t, steps[0].0, steps[0].1), steps[1..], tr);
    }
  }
}
