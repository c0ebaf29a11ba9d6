/**
  Whole operations: any sequence of store calls, by any driver. A run keeps
  account of the rows it made and has not rolled back with a savepoint.
 */
module OAuthRuns {
  import opened Prelude
  import opened RequestCodec
  import opened OAuthTables
  import opened OAuthOperation
  import opened OAuthEffects
  import opened OAuthInvariants

  // ---- flags -----------------------------------------------------------------

  predicate Creates(call: Call) {
    call.CreateCode? || call.CreatePkce? || call.CreateAccess? || call.CreateRefresh?
  }

  /** The credential whose signature belongs to the credential string presented to the operation. */
  function PresentedKey(env: Env, o: Op): Key {
    if o.ctx.kind.CodeCredential? then Key(Code, env.strategy.codeSignature(o.ctx.presented))
    else Key(Refresh, env.strategy.refreshSignature(o.ctx.presented))
  }

  function ReplayKind(o: Op): Reason { if o.ctx.kind.CodeCredential? then CodeReplay else RefreshReplay }

  /** This call found the presented credential consumed and noted the replay of its family. */
  predicate Detects(env: Env, o: Op, o': Op) {
    && o.ctx.binding.purpose.TokenExchange?
    && PresentedKey(env, o) in o.tx.creds
    && o'.flags.replay == Some(Replay(o.tx.creds[PresentedKey(env, o)].requestId, ReplayKind(o)))
    && LockCredential(env, o, PresentedKey(env, o)).Some?
    && o'.tx == o.tx && o'.flags.issuanceAttempted == o.flags.issuanceAttempted && o'.flags.replayComplete == o.flags.replayComplete
  }

  /** What a call does to the flags, in terms of its answer. */
  predicate Flagged(env: Env, o: Op, call: Call, o': Op, ok: bool) {
    && o'.ctx == o.ctx
    && (o.flags.issuanceAttempted ==> o'.flags.issuanceAttempted)
    && (ok && Creates(call) ==> o'.flags.issuanceAttempted)
    && (o'.flags.codeCreated <==> o.flags.codeCreated || (ok && call.CreateCode?))
    && (o'.flags.pkceCreated <==> o.flags.pkceCreated || (ok && call.CreatePkce?))
    && o'.flags.decision == (if ok && call.ConsumeConsent? then Some(call.decision) else o.flags.decision)
    && (ok && call.ConsumeConsent? ==> o.ctx.binding.purpose.Authorize?)
    && o'.savepoint == (if !ok then o.savepoint
                        else if call.BeginSavepoint? then Some(o.tx)
                        else if call.CommitSavepoint? || call.RollbackSavepoint? then None
                        else o.savepoint)
    && (o'.flags.replayComplete <==> o.flags.replayComplete || (ok && call.Revoke? && o.flags.replay.Some?))
    && (o'.flags.replay == o.flags.replay || ((call.GetCode? || call.GetRefresh?) && Detects(env, o, o')))
    && (!ok && !call.RollbackSavepoint? ==> o'.tx == o.tx)
  }

  // How a call can end: badly, with rows only, or with rows and a flag of its own.

  /** Nothing but the failure and attempt flags changed. */
  predicate Harmless(o: Op, o': Op) {
    && o' == o.(flags := o.flags.(storageFailed := o'.flags.storageFailed, issuanceAttempted := o'.flags.issuanceAttempted))
    && (o.flags.issuanceAttempted ==> o'.flags.issuanceAttempted)
  }

  lemma HarmlessIsFlagged(env: Env, o: Op, call: Call, o': Op)
    requires Harmless(o, o')
    ensures Flagged(env, o, call, o', false)
  {
    hide Detects;
  }

  predicate Ends(o: Op, step: (Op, Answer), success: Op) {
    if step.1.err == NoError then step.0 == success else Harmless(o, step.0)
  }

  /** A creation that ends well sets the attempt flag and, at an authorization, its own. */
  function Issued(o: Op, tx: Shard, code: bool, pkce: bool): Op {
    o.(tx := tx, flags := o.flags.(issuanceAttempted := true, codeCreated := o.flags.codeCreated || code,
                                   pkceCreated := o.flags.pkceCreated || pkce))
  }

  lemma IssuedIsFlagged(env: Env, o: Op, call: Call, tx: Shard)
    requires Creates(call)
    ensures Flagged(env, o, call, Issued(o, tx, call.CreateCode?, call.CreatePkce?), true)
  {
    hide Detects;
  }

  lemma CreateCodeEnds(env: Env, o: Op, signature: string, r: Request, now: nat, fault: bool)
    ensures var step := StepCreateCode(env, o, signature, r, now, fault); Ends(o, step, Issued(o, step.0.tx, true, false))
  {
    hide Encode, InsertSession, InsertGrant, Micros, ExpiresAt;
  }

  lemma CreatePkceEnds(env: Env, o: Op, signature: string, r: Request, now: nat, fault: bool)
    ensures var step := StepCreatePkce(env, o, signature, r, now, fault); Ends(o, step, Issued(o, step.0.tx, false, true))
  {
    hide Encode, GrantOpen, WriteSnapshotMatches, InsertSession, Micros, ExpiresAt;
  }

  lemma CreateAccessEnds(env: Env, o: Op, signature: string, r: Request, now: nat, fault: bool)
    ensures var step := StepCreateAccess(env, o, signature, r, now, fault); Ends(o, step, Issued(o, step.0.tx, false, false))
  {
    hide Encode, GrantOpen, WriteSnapshotMatches, InsertSession, ExtendRetention, Micros, ExpiresAt;
  }

  lemma CreateRefreshEnds(env: Env, o: Op, signature: string, access: string, r: Request, now: nat, fault: bool)
    ensures var step := StepCreateRefresh(env, o, signature, access, r, now, fault);
      Ends(o, step, Issued(o, step.0.tx, false, false))
  {
    hide Encode, Hydrate, GrantOpen, WriteSnapshotMatches, InsertSession, ExtendRetention, Micros, ExpiresAt;
  }

  lemma CreateFlags(env: Env, o: Op, call: Call, fault: bool)
    requires Creates(call)
    ensures var (o', answer) := Step(env, o, call, fault); Flagged(env, o, call, o', answer.err == NoError)
  {
    hide Flagged, Harmless, Issued, StepCreateCode, StepCreateAccess, StepCreateRefresh, StepCreatePkce;
    var step := Step(env, o, call, fault);
    match call {
      case CreateCode(signature, r, now) => CreateCodeEnds(env, o, signature, r, now, fault);
      case CreatePkce(signature, r, now) => CreatePkceEnds(env, o, signature, r, now, fault);
      case CreateAccess(signature, r, now) => CreateAccessEnds(env, o, signature, r, now, fault);
      case CreateRefresh(signature, access, r, now) => CreateRefreshEnds(env, o, signature, access, r, now, fault);
      case _ =>
    }
    if step.1.err == NoError { IssuedIsFlagged(env, o, call, step.0.tx); } else { HarmlessIsFlagged(env, o, call, step.0); }
  }

  /** A call that sets no flag when it ends well. */
  predicate Quiet(call: Call) {
    call.GetCode? || call.GetAccess? || call.GetRefresh? || call.GetPkce? || call.InvalidateCode? || call.DeletePkce?
    || call.DeleteAccess? || call.DeleteRefresh? || call.Rotate?
  }

  lemma QuietIsFlagged(env: Env, o: Op, call: Call, tx: Shard)
    requires Quiet(call)
    ensures Flagged(env, o, call, o.(tx := tx), true)
  {
    hide Detects;
  }

  /** The replay of the credential locked under this key is noted, and nothing else is changed. */
  predicate Notes(env: Env, o: Op, key: Key, kind: Reason, o': Op) {
    && o.ctx.binding.purpose.TokenExchange? && LockCredential(env, o, key).Some?
    && o' == o.(flags := o.flags.(replay := Some(Replay(LockCredential(env, o, key).value.requestId, kind))))
  }

  lemma NotedIsDetected(env: Env, o: Op, key: Key, kind: Reason, o': Op)
    requires Notes(env, o, key, kind, o') && key == PresentedKey(env, o) && kind == ReplayKind(o)
    ensures Detects(env, o, o') && o' == o.(flags := o.flags.(replay := o'.flags.replay))
  {
    hide GrantOpen;
  }

  /** A read that fails either does no harm or notes the replay of the presented credential. */
  predicate ReadEnds(env: Env, o: Op, key: Key, kind: Reason, step: (Op, Answer)) {
    if step.1.err == NoError then step.0 == o
    else Harmless(o, step.0) || (key == PresentedKey(env, o) && kind == ReplayKind(o) && Notes(env, o, key, kind, step.0))
  }

  lemma GetCodeEnds(env: Env, o: Op, signature: string, target: Option<Expirations>, fault: bool)
    ensures ReadEnds(env, o, Key(Code, signature), CodeReplay, StepGetCode(env, o, signature, target, fault))
  {
    LockedHasGrant(env, o, Key(Code, signature));
    hide LockCredential, Hydrate;
  }

  lemma GetRefreshEnds(env: Env, o: Op, signature: string, target: Option<Expirations>, fault: bool)
    ensures ReadEnds(env, o, Key(Refresh, signature), RefreshReplay, StepGetRefresh(env, o, signature, target, fault))
  {
    LockedHasGrant(env, o, Key(Refresh, signature));
    hide LockCredential, Hydrate;
  }

  lemma LockedHasGrant(env: Env, o: Op, key: Key)
    ensures LockCredential(env, o, key).Some? ==> LockCredential(env, o, key).value.requestId in o.tx.grants
  {
    hide GrantOpen;
  }

  lemma GetAccessEnds(env: Env, o: Op, signature: string, target: Option<Expirations>, fault: bool)
    ensures Ends(o, StepGetAccess(env, o, signature, target, fault), o)
  {
    hide LockCredential, Hydrate;
  }

  lemma GetPkceEnds(env: Env, o: Op, signature: string, target: Option<Expirations>, fault: bool)
    ensures Ends(o, StepGetPkce(env, o, signature, target, fault), o)
  {
    hide LockCredential, Hydrate;
  }

  lemma DetectedIsFlagged(env: Env, o: Op, call: Call, o': Op)
    requires call.GetCode? || call.GetRefresh?
    requires Detects(env, o, o') && o' == o.(flags := o.flags.(replay := o'.flags.replay))
    ensures Flagged(env, o, call, o', false)
  {
    hide Detects;
  }

  lemma ReadFlags(env: Env, o: Op, call: Call, fault: bool)
    requires call.GetCode? || call.GetAccess? || call.GetRefresh? || call.GetPkce?
    ensures var (o', answer) := Step(env, o, call, fault); Flagged(env, o, call, o', answer.err == NoError)
  {
    hide Flagged, Harmless, Notes, Detects, PresentedKey, ReplayKind, StepGetCode, StepGetAccess, StepGetRefresh,
      StepGetPkce;
    var step := Step(env, o, call, fault);
    match call {
      case GetCode(signature, target) => GetCodeEnds(env, o, signature, target, fault);
      case GetRefresh(signature, target) => GetRefreshEnds(env, o, signature, target, fault);
      case GetAccess(signature, target) => GetAccessEnds(env, o, signature, target, fault);
      case GetPkce(signature, target) => GetPkceEnds(env, o, signature, target, fault);
      case _ =>
    }
    if step.1.err == NoError {
      assert o.(tx := o.tx) == o;
      QuietIsFlagged(env, o, call, o.tx);
    } else if Harmless(o, step.0) {
      HarmlessIsFlagged(env, o, call, step.0);
    } else {
      var key, kind := PresentedKey(env, o), if call.GetCode? then CodeReplay else RefreshReplay;
      NotedIsDetected(env, o, key, kind, step.0);
      DetectedIsFlagged(env, o, call, step.0);
    }
  }

  lemma ConsumeEnds(env: Env, o: Op, key: Key, fault: bool)
    ensures var step := StepConsume(env, o, key, fault); Ends(o, step, o.(tx := step.0.tx))
  {
    hide LockForMutation, ConsumeSession;
  }

  lemma DeleteEnds(env: Env, o: Op, key: Key, fault: bool)
    ensures var step := StepDelete(env, o, key, fault); Ends(o, step, o.(tx := step.0.tx))
  {
    hide LockForMutation, RevokeSession;
  }

  lemma RotateEnds(env: Env, o: Op, requestId: string, signature: string, fault: bool)
    ensures var step := StepRotate(env, o, requestId, signature, fault); Ends(o, step, o.(tx := step.0.tx))
  {
    hide LockForMutation, ConsumeSession, RevokeAccessTokens;
  }

  lemma MarkFlags(env: Env, o: Op, call: Call, fault: bool)
    requires call.InvalidateCode? || call.DeletePkce? || call.DeleteAccess? || call.DeleteRefresh? || call.Rotate?
    ensures var (o', answer) := Step(env, o, call, fault); Flagged(env, o, call, o', answer.err == NoError)
  {
    hide Flagged, Harmless, StepConsume, StepDelete, StepRotate;
    var step := Step(env, o, call, fault);
    match call {
      case InvalidateCode(signature) => ConsumeEnds(env, o, Key(Code, signature), fault);
      case DeletePkce(signature) => ConsumeEnds(env, o, Key(Pkce, signature), fault);
      case DeleteAccess(signature) => DeleteEnds(env, o, Key(Access, signature), fault);
      case DeleteRefresh(signature) => DeleteEnds(env, o, Key(Refresh, signature), fault);
      case Rotate(requestId, signature) => RotateEnds(env, o, requestId, signature, fault);
      case _ =>
    }
    if step.1.err == NoError { QuietIsFlagged(env, o, call, step.0.tx); } else { HarmlessIsFlagged(env, o, call, step.0); }
  }

  lemma RevokeFlags(env: Env, o: Op, requestId: string, fault: bool)
    ensures var (o', answer) := StepRevoke(env, o, requestId, fault);
      Flagged(env, o, Revoke(requestId), o', answer.err == NoError)
  {
    hide LockGrantForRevocation, RevokeFamily, RecordEvent, Detects;
  }

  lemma ConsentFlags(env: Env, o: Op, handle: string, session: string, at: Time, decision: Decision, fault: bool)
    ensures var (o', answer) := StepConsumeConsent(o, handle, session, at, decision, fault);
      Flagged(env, o, ConsumeConsent(handle, session, at, decision), o', answer.err == NoError)
  {
    hide ConsumeConsentRow, ConsentUsable, Detects;
  }

  lemma SavepointFlags(env: Env, o: Op, fault: bool)
    ensures var (o', answer) := StepBeginSavepoint(o, fault); Flagged(env, o, BeginSavepoint, o', answer.err == NoError)
    ensures var (o', answer) := StepCommitSavepoint(o, fault); Flagged(env, o, CommitSavepoint, o', answer.err == NoError)
    ensures var (o', answer) := StepRollbackSavepoint(o, fault);
      Flagged(env, o, RollbackSavepoint, o', answer.err == NoError)
  {
    hide Detects;
  }

  lemma StepFlags(env: Env, o: Op, call: Call, fault: bool)
    ensures var (o', answer) := Step(env, o, call, fault); Flagged(env, o, call, o', answer.err == NoError)
  {
    hide Flagged, StepCreateCode, StepCreateAccess, StepCreateRefresh, StepCreatePkce, StepConsume, StepRotate,
      StepDelete, StepRevoke, StepGetCode, StepGetAccess, StepGetRefresh, StepGetPkce, StepConsumeConsent,
      StepBeginSavepoint, StepCommitSavepoint, StepRollbackSavepoint;
    match call
    case Revoke(requestId) => RevokeFlags(env, o, requestId, fault);
    case ConsumeConsent(handle, session, at, decision) => ConsentFlags(env, o, handle, session, at, decision, fault);
    case BeginSavepoint => SavepointFlags(env, o, fault);
    case CommitSavepoint => SavepointFlags(env, o, fault);
    case RollbackSavepoint => SavepointFlags(env, o, fault);
    case _ =>
      if Creates(call) {
        CreateFlags(env, o, call, fault);
      } else if call.GetCode? || call.GetAccess? || call.GetRefresh? || call.GetPkce? {
        ReadFlags(env, o, call, fault);
      } else {
        MarkFlags(env, o, call, fault);
      }
  }

  // ---- runs ------------------------------------------------------------------

  // What a run has made and not rolled back: codes and PKCE rows with their request ids, consents, the replay audit.
  datatype Kept = Kept(codes: map<string, string>, pkces: map<string, string>, spent: set<string>, audited: bool)

  const NOTHING_KEPT := Kept(map[], map[], {}, false)

  datatype Run = Run(op: Op, kept: Kept, saved: Kept, rolledBack: bool)

  type Steps = seq<(Call, bool)>

  function Keep(o: Op, k: Kept, call: Call, ok: bool): Kept {
    if !ok then k
    else
      match call
      case CreateCode(signature, r, _) => k.(codes := k.codes[signature := r.id])
      case CreatePkce(signature, r, _) => k.(pkces := k.pkces[signature := r.id])
      case ConsumeConsent(handle, _, _, _) => k.(spent := k.spent + {handle})
      case Revoke(_) => k.(audited := k.audited || (o.flags.replay.Some? && !o.flags.replayComplete))
      case _ => k
  }

  function Start(o: Op): Run { Run(o, NOTHING_KEPT, NOTHING_KEPT, false) }

  function Advance(env: Env, t: Run, call: Call, fault: bool): Run {
    var (o, answer) := Step(env, t.op, call, fault);
    var ok := answer.err == NoError;
    Run(o,
        if call.RollbackSavepoint? && ok then t.saved else Keep(t.op, t.kept, call, ok),
        if call.BeginSavepoint? && ok then t.kept else t.saved,
        t.rolledBack || (call.RollbackSavepoint? && ok))
  }

  function Exec(env: Env, t: Run, steps: Steps): Run
    decreases |steps|
  {
    if steps == [] then t else Exec(env, Advance(env, t, steps[0].0, steps[0].1), steps[1..])
  }

  lemma {:induction false} ExecTwice(env: Env, t: Run, first: Steps, rest: Steps)
    ensures Exec(env, t, first + rest) == Exec(env, Exec(env, t, first), rest)
    decreases |first|
  {
    hide Advance;
    if first == [] {
      assert first + rest == rest;
    } else {
      assert (first + rest)[0] == first[0] && (first + rest)[1..] == first[1..] + rest;
      ExecTwice(env, Advance(env, t, first[0].0, first[0].1), first[1..], rest);
    }
  }

  lemma {:induction false} ExecOneMore(env: Env, t: Run, steps: Steps, n: nat)
    requires n < |steps|
    ensures Exec(env, t, steps[..n + 1]) == Advance(env, Exec(env, t, steps[..n]), steps[n].0, steps[n].1)
    decreases |steps|
  {
    hide Advance;
    if n == 0 {
      assert steps[..1] == [steps[0]] && steps[..1][1..] == [];
    } else {
      assert steps[..n + 1][1..] == steps[1..][..n] && steps[..n][1..] == steps[1..][..n - 1];
      ExecOneMore(env, Advance(env, t, steps[0].0, steps[0].1), steps[1..], n - 1);
    }
  }

  lemma SameContext(env: Env, t: Run, call: Call, fault: bool)
    ensures Advance(env, t, call, fault).op.ctx == t.op.ctx
  {
    hide Step;
    StepFlags(env, t.op, call, fault);
  }

  lemma {:induction false} SameContextAfter(env: Env, t: Run, steps: Steps)
    ensures Exec(env, t, steps).op.ctx == t.op.ctx
    decreases |steps|
  {
    hide Advance;
    if steps != [] {
      SameContext(env, t, steps[0].0, steps[0].1);
      SameContextAfter(env, Advance(env, t, steps[0].0, steps[0].1), steps[1..]);
    }
  }

  predicate RollbackFree(steps: Steps) {
    forall i :: 0 <= i < |steps| ==> !steps[i].0.RollbackSavepoint?
  }

  lemma {:induction false} NoRollback(env: Env, t: Run, steps: Steps)
    requires RollbackFree(steps)
    ensures Exec(env, t, steps).rolledBack == t.rolledBack
    decreases |steps|
  {
    hide Step;
    if steps != [] {
      assert forall i :: 0 <= i < |steps[1..]| ==> steps[1..][i] == steps[i + 1];
      NoRollback(env, Advance(env, t, steps[0].0, steps[0].1), steps[1..]);
    }
  }

  // ---- what holds along a run that started on the tables s0 -------------------

  /** The new rows of a kind, each with its request id. */
  ghost predicate NewRowsExact(s0: Shard, t: Shard, kind: Kind, rows: map<string, string>) {
    && (forall c :: c in rows <==> Key(kind, c) in t.creds && Key(kind, c) !in s0.creds)
    && (forall c :: c in rows ==> Key(kind, c) in t.creds && t.creds[Key(kind, c)].requestId == rows[c])
  }

  ghost predicate KeptExact(s0: Shard, t: Shard, k: Kept) {
    && NewRowsExact(s0, t, Code, k.codes) && NewRowsExact(s0, t, Pkce, k.pkces) && SpentExact(s0, t, k.spent)
  }

  /** An authorization adds codes with grants of its own, for its client and epoch, and PKCE rows. */
  predicate AuthorizeRows(ctx: Context, s0: Shard, t: Shard) {
    && t.events == s0.events
    && (forall k :: k in t.creds && k !in s0.creds ==>
          (k.kind.Code? && t.creds[k].requestId !in s0.grants) || k.kind.Pkce?)
    && (forall r :: r in t.grants && r !in s0.grants ==>
          t.grants[r].accountEpoch == ctx.authorizeEpoch && t.grants[r].clientId == ctx.binding.clientId)
  }

  /** Each purpose has its own rows: only these may differ from s0. */
  predicate ByPurpose(ctx: Context, s0: Shard, t: Shard) {
    && (ctx.binding.purpose.Introspection? ==> t == s0)
    && (ctx.binding.purpose.Authorize? ==> AuthorizeRows(ctx, s0, t))
    && (!ctx.binding.purpose.Authorize? ==> t.consents == s0.consents && t.grants.Keys == s0.grants.Keys)
    && (ctx.binding.purpose.TokenExchange? ==>
          forall k :: k in t.creds && k !in s0.creds ==> k.kind.Access? || k.kind.Refresh?)
    && (ctx.binding.purpose.Revocation? ==> t.creds.Keys == s0.creds.Keys)
    && (!ctx.binding.purpose.TokenExchange? ==>
          forall k :: k in s0.creds ==> k in t.creds && t.creds[k].consumed == s0.creds[k].consumed)
  }

  predicate NothingIssued(s0: Shard, t: Shard) {
    t.creds.Keys == s0.creds.Keys && t.grants.Keys == s0.grants.Keys
  }

  /** The whole credential family of a grant is revoked, and the grant with it. */
  predicate FamilyRevoked(t: Shard, requestId: string) {
    && requestId in t.grants && t.grants[requestId].revoked.Some?
    && forall k :: k in t.creds && t.creds[k].requestId == requestId ==> t.creds[k].revoked
  }

  predicate Audit(f: Flags, s0: Shard, t: Shard, audited: bool) {
    && (audited ==> f.replay.Some? && f.replayComplete)
    && (f.replay.None? ==> t.events == s0.events)
    && (!f.issuanceAttempted ==>
          && NothingIssued(s0, t)
          && t.events == s0.events + (if audited then [Event(f.replay.value.requestId, f.replay.value.kind)] else [])
          && (audited ==> FamilyRevoked(t, f.replay.value.requestId)))
  }

  ghost predicate Tables(env: Env, s0: Shard, o: Op, t: Shard, k: Kept) {
    && Within(s0, t) && Good(env, t) && KeptExact(s0, t, k) && ByPurpose(o.ctx, s0, t)
    && Audit(o.flags, s0, t, k.audited)
  }

  /** Nothing issued yet: a noted replay is the family of the presented credential in s0. */
  predicate ReplayFixed(env: Env, s0: Shard, o: Op) {
    o.flags.replay.Some? && !o.flags.issuanceAttempted ==>
      && PresentedKey(env, o) in s0.creds
      && o.flags.replay == Some(Replay(s0.creds[PresentedKey(env, o)].requestId, ReplayKind(o)))
  }

  ghost predicate RunInv(env: Env, s0: Shard, t: Run) {
    && Tables(env, s0, t.op, t.op.tx, t.kept)
    && (t.op.savepoint.Some? ==> Tables(env, s0, t.op, t.op.savepoint.value, t.saved))
    && ReplayFixed(env, s0, t.op)
    && (t.op.ctx.binding.purpose.Authorize? ==>
          t.op.ctx.binding.accountId == s0.accountId && t.op.ctx.authorizeEpoch == s0.epoch)
    && (t.op.flags.replay.Some? ==> t.op.ctx.binding.purpose.TokenExchange?)
    && (t.op.flags.decision.Some? ==> t.op.ctx.binding.purpose.Authorize?)
    && (!t.rolledBack ==> FlagsMatch(t.op.flags, t.kept))
  }

  predicate FlagsMatch(f: Flags, k: Kept) {
    && (f.codeCreated <==> k.codes != map[])
    && (f.pkceCreated <==> k.pkces != map[])
    && (f.decision.Some? <==> k.spent != {})
    && (f.replayComplete <==> k.audited)
  }

  /** An operation that has just locked the account and has changed no row of s0 yet. */
  predicate Opened(o: Op, s0: Shard) {
    && o.tx == s0 && (o.savepoint.Some? ==> o.savepoint.value == s0)
    && !o.flags.codeCreated && !o.flags.pkceCreated && o.flags.decision.None?
    && o.flags.replay.None? && !o.flags.replayComplete
    && (o.ctx.binding.purpose.Authorize? ==> o.ctx.binding.accountId == s0.accountId && o.ctx.authorizeEpoch == s0.epoch)
  }

  lemma StartInv(env: Env, o: Op, s0: Shard)
    requires Opened(o, s0) && Good(env, s0)
    ensures RunInv(env, s0, Start(o))
  {
    hide Good;
  }

  // ---- one effect ------------------------------------------------------------

  /** The rows an effect adds, and the consents it marks. */
  predicate RowsAfter(s: Shard, e: Effect, t: Shard) {
    && t.creds.Keys == s.creds.Keys + (if e.NewFamily? || e.NewCredential? then {e.key} else {})
    && t.grants.Keys == s.grants.Keys + (if e.NewFamily? then {e.requestId} else {})
    && t.consents.Keys == s.consents.Keys
    && forall h :: h in s.consents ==>
         t.consents[h].consumed == (s.consents[h].consumed || (e.Spend? && h == e.handle))
  }

  lemma AllowedRows(env: Env, o: Op, e: Effect)
    requires Allowed(env, o, e)
    ensures e.Spend? ==> e.handle in o.tx.consents && !o.tx.consents[e.handle].consumed
    ensures e.Spend? ==> o.tx.consents[e.handle].session == e.session
    ensures e.NewFamily? || e.NewCredential? ==> e.key !in o.tx.creds
    ensures e.Consume? || e.Swap? || e.Drop? ==> e.key in o.tx.creds
    ensures e.Kill? ==> e.requestId in o.tx.grants
    ensures e.NewCredential? ==> e.cred.requestId in o.tx.grants
  {
    hide Validate, GrantOpen;
  }

  /** Marking effects add no row and leave consents alone. */
  lemma MarkRows(o: Op, e: Effect)
    requires e.Nothing? || e.Consume? || e.Swap? || e.Drop? || e.Kill?
    ensures RowsAfter(o.tx, e, Apply(o, e))
  {
  }

  lemma EffectRows(env: Env, o: Op, e: Effect)
    requires Allowed(env, o, e) && !e.Back?
    ensures RowsAfter(o.tx, e, Apply(o, e))
    ensures e.Spend? ==> e.handle in o.tx.consents && !o.tx.consents[e.handle].consumed
    ensures e.NewFamily? || e.NewCredential? ==> e.key !in o.tx.creds
  {
    hide Allowed;
    AllowedRows(env, o, e);
    if !e.NewFamily? && !e.NewCredential? && !e.Spend? {
      MarkRows(o, e);
      hide Apply, RowsAfter;
    } else {
      hide ConsumeSession, RevokeSession, RevokeFamily, RevokeAccessTokens;
    }
  }

  /** Old rows keep their request ids; a new one has its own. */
  lemma EffectIds(env: Env, o: Op, e: Effect)
    requires Allowed(env, o, e) && !e.Back?
    ensures forall k :: k in o.tx.creds ==>
      k in Apply(o, e).creds && Apply(o, e).creds[k].requestId == o.tx.creds[k].requestId
    ensures e.NewFamily? || e.NewCredential? ==>
      e.key in Apply(o, e).creds && Apply(o, e).creds[e.key].requestId == e.cred.requestId
  {
    EffectWithin(env, o, e);
    hide Allowed, ConsumeSession, RevokeSession, RevokeFamily, RevokeAccessTokens;
  }

  lemma NewRowsKept(s0: Shard, s: Shard, t: Shard, kind: Kind, rows: map<string, string>, added: Option<Key>)
    requires NewRowsExact(s0, s, kind, rows) && s0.creds.Keys <= s.creds.Keys
    requires t.creds.Keys == s.creds.Keys + (if added.Some? then {added.value} else {})
    requires forall k :: k in s.creds ==> t.creds[k].requestId == s.creds[k].requestId
    requires added.Some? ==> added.value !in s.creds
    ensures NewRowsExact(s0, t, kind,
      if added.Some? && added.value.kind == kind
      then rows[added.value.signature := t.creds[added.value].requestId] else rows)
  {
    forall c
      ensures Key(kind, c) in t.creds <==> Key(kind, c) in s.creds || added == Some(Key(kind, c))
    {
    }
  }

  ghost predicate SpentExact(s0: Shard, t: Shard, spent: set<string>) {
    forall h :: h in spent <==> h in s0.consents && h in t.consents && !s0.consents[h].consumed && t.consents[h].consumed
  }

  lemma SpentKept(s0: Shard, s: Shard, t: Shard, e: Effect, spent: set<string>)
    requires SpentExact(s0, s, spent) && s.consents.Keys == s0.consents.Keys && RowsAfter(s, e, t)
    requires forall h :: h in s0.consents && s0.consents[h].consumed ==> s.consents[h].consumed
    requires e.Spend? ==> e.handle in s.consents && !s.consents[e.handle].consumed
    ensures SpentExact(s0, t, if e.Spend? then spent + {e.handle} else spent)
  {
  }

  /** The account of a call, in terms of its effect. */
  lemma KeepFollows(o: Op, k: Kept, call: Call, ok: bool, e: Effect)
    requires Causes(call, ok, e) && !e.Back?
    ensures e.NewFamily? ==> e.key.kind.Code?
    ensures e.NewCredential? ==> !e.key.kind.Code?
    ensures var next := Keep(o, k, call, ok);
      && next.codes == (if e.NewFamily? then k.codes[e.key.signature := e.cred.requestId] else k.codes)
      && next.pkces == (if e.NewCredential? && e.key.kind.Pkce? then k.pkces[e.key.signature := e.cred.requestId] else k.pkces)
      && next.spent == (if e.Spend? then k.spent + {e.handle} else k.spent)
  {
  }

  lemma NewRowsFollow(env: Env, s0: Shard, o: Op, e: Effect, k: Kept)
    requires Allowed(env, o, e) && !e.Back? && Within(s0, o.tx)
    requires NewRowsExact(s0, o.tx, Code, k.codes) && NewRowsExact(s0, o.tx, Pkce, k.pkces)
    requires (e.NewFamily? ==> e.key.kind.Code?) && (e.NewCredential? ==> !e.key.kind.Code?)
    ensures NewRowsExact(s0, Apply(o, e), Code,
      if e.NewFamily? then k.codes[e.key.signature := e.cred.requestId] else k.codes)
    ensures NewRowsExact(s0, Apply(o, e), Pkce,
      if e.NewCredential? && e.key.kind.Pkce? then k.pkces[e.key.signature := e.cred.requestId] else k.pkces)
  {
    var t := Apply(o, e);
    var added := if e.NewFamily? || e.NewCredential? then Some(e.key) else None;
    EffectRows(env, o, e);
    EffectIds(env, o, e);
    KeysWithin(s0, o.tx);
    hide Allowed, Apply, NewRowsExact, Grows, Within;
    NewRowsKept(s0, o.tx, t, Code, k.codes, added);
    NewRowsKept(s0, o.tx, t, Pkce, k.pkces, added);
  }

  lemma EffectKept(env: Env, s0: Shard, o: Op, e: Effect, call: Call, ok: bool, k: Kept)
    requires Allowed(env, o, e) && !e.Back? && Causes(call, ok, e)
    requires Within(s0, o.tx) && KeptExact(s0, o.tx, k)
    ensures KeptExact(s0, Apply(o, e), Keep(o, k, call, ok))
  {
    hide Allowed, Apply, NewRowsExact, SpentExact, Within, RowsAfter, Causes, Keep;
    KeepFollows(o, k, call, ok, e);
    NewRowsFollow(env, s0, o, e, k);
    EffectRows(env, o, e);
    KeysWithin(s0, o.tx);
    SpentKept(s0, o.tx, Apply(o, e), e, k.spent);
  }

  lemma KeysWithin(s: Shard, t: Shard)
    requires Within(s, t)
    ensures s.creds.Keys <= t.creds.Keys
    ensures t.consents.Keys == s.consents.Keys
    ensures forall h :: h in s.consents && s.consents[h].consumed ==> t.consents[h].consumed
  {
  }

  lemma EffectAuthorizeRows(env: Env, s0: Shard, o: Op, e: Effect)
    requires Allowed(env, o, e) && !e.Back? && o.ctx.binding.purpose.Authorize?
    requires Within(s0, o.tx) && AuthorizeRows(o.ctx, s0, o.tx)
    ensures AuthorizeRows(o.ctx, s0, Apply(o, e))
  {
    hide RowMatches, LockCredential, LockGrantForRevocation, GrantOpen, ConsentUsable;
    if e.NewFamily? || e.NewCredential? || e.Spend? || e.Nothing? {
    } else {
      EffectWithin(env, o, e);
      EffectRows(env, o, e);
    }
  }

  lemma EffectByPurpose(env: Env, s0: Shard, o: Op, e: Effect)
    requires Allowed(env, o, e) && !e.Back? && Within(s0, o.tx) && ByPurpose(o.ctx, s0, o.tx)
    ensures ByPurpose(o.ctx, s0, Apply(o, e))
  {
    hide RowMatches, LockCredential, LockGrantForRevocation, GrantOpen, ConsentUsable, AuthorizeRows, Within;
    if o.ctx.binding.purpose.Authorize? {
      EffectAuthorizeRows(env, s0, o, e);
    }
  }

  lemma ReplayStaysFixed(env: Env, s0: Shard, o: Op, call: Call, o': Op, ok: bool)
    requires Flagged(env, o, call, o', ok) && ReplayFixed(env, s0, o)
    requires Within(s0, o.tx) && (!o.flags.issuanceAttempted ==> NothingIssued(s0, o.tx))
    ensures ReplayFixed(env, s0, o')
    ensures o.flags.replay.Some? && !o'.flags.issuanceAttempted ==> o'.flags.replay == o.flags.replay
  {
    hide LockCredential;
  }

  /** Tables that the call did not touch stay accounted for under the new flags. */
  lemma FlagsKeepAudit(env: Env, s0: Shard, o: Op, call: Call, o': Op, ok: bool, t: Shard, audited: bool)
    requires Flagged(env, o, call, o', ok) && ReplayFixed(env, s0, o)
    requires Within(s0, o.tx) && (!o.flags.issuanceAttempted ==> NothingIssued(s0, o.tx))
    requires Audit(o.flags, s0, t, audited)
    ensures Audit(o'.flags, s0, t, audited)
  {
    hide Within, FamilyRevoked, NothingIssued;
    ReplayStaysFixed(env, s0, o, call, o', ok);
  }

  lemma FamilyStaysRevoked(s: Shard, t: Shard, requestId: string)
    requires FamilyRevoked(s, requestId) && Within(s, t)
    ensures FamilyRevoked(t, requestId)
  {
    assert Dead(s, requestId);
  }

  lemma KillRevokesFamily(env: Env, o: Op, e: Effect)
    requires e.Kill? && Allowed(env, o, e)
    ensures FamilyRevoked(Apply(o, e), e.requestId)
    ensures e.audited <==> o.flags.replay.Some? && !o.flags.replayComplete
    ensures o.flags.replay.Some? ==> e.requestId == o.flags.replay.value.requestId && e.reason == o.flags.replay.value.kind
  {
    hide RowMatches, LockCredential, GrantOpen, ConsentUsable;
  }

  lemma EffectEvents(o: Op, e: Effect)
    requires !e.Back?
    ensures Apply(o, e).events ==
            o.tx.events + (if e.Kill? && e.audited then [Event(e.requestId, e.reason)] else [])
  {
  }

  lemma KillAudit(env: Env, s0: Shard, o: Op, e: Effect, o': Op, audited: bool)
    requires e.Kill? && Allowed(env, o, e) && o'.tx == Apply(o, e)
    requires Audit(o.flags, s0, o.tx, audited)
    requires o'.flags.replay == o.flags.replay && (o.flags.issuanceAttempted ==> o'.flags.issuanceAttempted)
    requires o'.flags.replayComplete <==> o.flags.replayComplete || o.flags.replay.Some?
    ensures Audit(o'.flags, s0, o'.tx, audited || (o.flags.replay.Some? && !o.flags.replayComplete))
  {
    hide Apply, FamilyRevoked, LockGrantForRevocation, Allowed;
    EffectEvents(o, e);
    EffectRows(env, o, e);
    EffectWithin(env, o, e);
    hide Within, RowsAfter;
    KillRevokesFamily(env, o, e);
    if audited && !o.flags.issuanceAttempted {
      FamilyStaysRevoked(o.tx, o'.tx, o.flags.replay.value.requestId);
    }
    assert o.tx.events + [] == o.tx.events && s0.events + [] == s0.events;
  }

  lemma OtherAudit(env: Env, s0: Shard, o: Op, e: Effect, o': Op, audited: bool)
    requires !e.Kill? && Allowed(env, o, e) && !e.Back? && o'.tx == Apply(o, e)
    requires Audit(o.flags, s0, o.tx, audited)
    requires !o'.flags.issuanceAttempted && o.flags.replay.Some? ==> o'.flags.replay == o.flags.replay
    requires o.flags.replay.Some? ==> o'.flags.replay.Some?
    requires o'.flags.replay.Some? && o.flags.replay.None? ==> o'.tx == o.tx
    requires o.flags.issuanceAttempted ==> o'.flags.issuanceAttempted
    requires e.NewFamily? || e.NewCredential? ==> o'.flags.issuanceAttempted
    requires o.flags.replayComplete ==> o'.flags.replayComplete
    ensures Audit(o'.flags, s0, o'.tx, audited)
  {
    hide Apply, FamilyRevoked, Allowed;
    EffectEvents(o, e);
    EffectRows(env, o, e);
    EffectWithin(env, o, e);
    hide Within;
    if audited && !o.flags.issuanceAttempted {
      FamilyStaysRevoked(o.tx, o'.tx, o.flags.replay.value.requestId);
    }
    assert o.tx.events + [] == o.tx.events && s0.events + [] == s0.events;
  }

  lemma EffectAudit(env: Env, s0: Shard, o: Op, e: Effect, call: Call, o': Op, ok: bool, k: Kept)
    requires Allowed(env, o, e) && !e.Back? && Causes(call, ok, e)
    requires Flagged(env, o, call, o', ok) && o'.tx == Apply(o, e) && ReplayFixed(env, s0, o)
    requires Within(s0, o.tx) && Audit(o.flags, s0, o.tx, k.audited)
    ensures Audit(o'.flags, s0, o'.tx, Keep(o, k, call, ok).audited)
  {
    hide Allowed, Apply, Within, FamilyRevoked, NothingIssued;
    assert !o.flags.issuanceAttempted ==> NothingIssued(s0, o.tx);
    ReplayStaysFixed(env, s0, o, call, o', ok);
    hide Audit, ReplayFixed, LockCredential, PresentedKey;
    if e.Kill? {
      KillAudit(env, s0, o, e, o', k.audited);
    } else {
      OtherAudit(env, s0, o, e, o', k.audited);
    }
  }

  // ---- one call, and any sequence of calls -------------------------------------

  lemma TablesUnderNewFlags(env: Env, s0: Shard, o: Op, call: Call, o': Op, ok: bool, t: Shard, k: Kept)
    requires Flagged(env, o, call, o', ok) && ReplayFixed(env, s0, o)
    requires Within(s0, o.tx) && (!o.flags.issuanceAttempted ==> NothingIssued(s0, o.tx))
    requires Tables(env, s0, o, t, k)
    ensures Tables(env, s0, o', t, k)
  {
    FlagsKeepAudit(env, s0, o, call, o', ok, t, k.audited);
    hide Within, Good, KeptExact, ByPurpose, Audit, ReplayFixed, NothingIssued;
  }

  lemma TablesAfterEffect(env: Env, s0: Shard, t: Run, call: Call, o': Op, ok: bool, e: Effect)
    requires RunInv(env, s0, t) && Allowed(env, t.op, e) && !e.Back? && Causes(call, ok, e)
    requires Flagged(env, t.op, call, o', ok) && o'.tx == Apply(t.op, e)
    ensures Tables(env, s0, o', o'.tx, Keep(t.op, t.kept, call, ok))
  {
    hide Allowed, Apply, Good, Grows, KeptExact, ByPurpose, Audit, ReplayFixed, Causes, Keep;
    EffectWithin(env, t.op, e);
    WithinTransitive(s0, t.op.tx, o'.tx);
    EffectKeepsGood(env, t.op, e);
    EffectKept(env, s0, t.op, e, call, ok, t.kept);
    EffectByPurpose(env, s0, t.op, e);
    EffectAudit(env, s0, t.op, e, call, o', ok, t.kept);
  }

  lemma InvTables(env: Env, s0: Shard, t: Run)
    requires RunInv(env, s0, t)
    ensures Tables(env, s0, t.op, t.op.tx, t.kept) && ReplayFixed(env, s0, t.op)
    ensures t.op.savepoint.Some? ==> Tables(env, s0, t.op, t.op.savepoint.value, t.saved)
    ensures Within(s0, t.op.tx) && (!t.op.flags.issuanceAttempted ==> NothingIssued(s0, t.op.tx))
  {
    hide Within, Good, KeptExact, ByPurpose, ReplayFixed, NothingIssued;
  }

  lemma BackNeedsSavepoint(env: Env, o: Op, e: Effect)
    requires e.Back? && Allowed(env, o, e)
    ensures o.savepoint.Some?
  {
  }

  lemma AdvanceKeepsTables(env: Env, s0: Shard, t: Run, call: Call, fault: bool)
    requires RunInv(env, s0, t)
    ensures var u := Advance(env, t, call, fault);
      && Tables(env, s0, u.op, u.op.tx, u.kept)
      && (u.op.savepoint.Some? ==> Tables(env, s0, u.op, u.op.savepoint.value, u.saved))
      && ReplayFixed(env, s0, u.op)
  {
    hide RunInv, Allowed, Within, ReplayFixed, Step, Keep, NothingIssued, Tables, Detects;
    var (o', answer) := Step(env, t.op, call, fault);
    var ok := answer.err == NoError;
    var e := Classify(env, t.op, call, fault);
    StepFlags(env, t.op, call, fault);
    InvTables(env, s0, t);
    ReplayStaysFixed(env, s0, t.op, call, o', ok);
    if t.op.savepoint.Some? {
      TablesUnderNewFlags(env, s0, t.op, call, o', ok, t.op.savepoint.value, t.saved);
    }
    TablesUnderNewFlags(env, s0, t.op, call, o', ok, t.op.tx, t.kept);
    if e.Back? {
      BackNeedsSavepoint(env, t.op, e);
    } else {
      TablesAfterEffect(env, s0, t, call, o', ok, e);
    }
  }

  lemma NotEmpty(m: map<string, string>, k: string, v: string)
    ensures m[k := v] != map[]
  {
    assert k in m[k := v];
  }

  lemma FlaggedStillMatch(env: Env, o: Op, call: Call, o': Op, ok: bool, k: Kept)
    requires FlagsMatch(o.flags, k) && Flagged(env, o, call, o', ok)
    ensures FlagsMatch(o'.flags, Keep(o, k, call, ok))
  {
    hide Detects;
    match call
    case CreateCode(signature, r, _) => NotEmpty(k.codes, signature, r.id);
    case CreatePkce(signature, r, _) => NotEmpty(k.pkces, signature, r.id);
    case ConsumeConsent(handle, _, _, _) => assert handle in k.spent + {handle};
    case _ =>
  }

  lemma FlagsStillMatch(env: Env, t: Run, call: Call, fault: bool)
    requires FlagsMatch(t.op.flags, t.kept)
    ensures var u := Advance(env, t, call, fault);
      !(call.RollbackSavepoint? && Step(env, t.op, call, fault).1.err == NoError) ==> FlagsMatch(u.op.flags, u.kept)
  {
    StepFlags(env, t.op, call, fault);
    var (o', answer) := Step(env, t.op, call, fault);
    FlaggedStillMatch(env, t.op, call, o', answer.err == NoError, t.kept);
    hide Step, Flagged, FlagsMatch, Keep;
  }

  lemma AdvanceInv(env: Env, s0: Shard, t: Run, call: Call, fault: bool)
    requires RunInv(env, s0, t)
    ensures RunInv(env, s0, Advance(env, t, call, fault))
  {
    AdvanceKeepsTables(env, s0, t, call, fault);
    StepFlags(env, t.op, call, fault);
    hide Allowed, Within, Good, KeptExact, ByPurpose, Audit, ReplayFixed, Step, NothingIssued, Tables, FlagsMatch, Keep;
    if !t.rolledBack { FlagsStillMatch(env, t, call, fault); }
  }

  /** Any driver, any sequence of calls, any database faults. */
  lemma {:induction false} ExecInv(env: Env, s0: Shard, t: Run, steps: Steps)
    requires RunInv(env, s0, t)
    ensures RunInv(env, s0, Exec(env, t, steps)) && Exec(env, t, steps).op.ctx == t.op.ctx
    decreases |steps|
  {
    hide RunInv, Step;
    if steps != [] {
      AdvanceInv(env, s0, t, steps[0].0, steps[0].1);
      StepFlags(env, t.op, steps[0].0, steps[0].1);
      ExecInv(env, s0, Advance(env, t, steps[0].0, steps[0].1), steps[1..]);
    }
  }
}
