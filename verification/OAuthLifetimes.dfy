/**
  What can happen only once, or never again, over whole histories of an
  account. Request ids and signatures are random, so a history is assumed not
  to issue the same one twice; only cleanup ever forgets them.
 */
module OAuthLifetimes {
  import opened Prelude
  import opened RequestCodec
  import opened OAuthTables
  import opened OAuthOperation
  import opened OAuthEffects
  import opened OAuthInvariants
  import opened OAuthRuns
  import opened OAuthSafety
  import opened OAuthHistory
  import opened OAuthAnswers

  // ---- dead families --------------------------------------------------------------

  /** The grant was revoked, is from before an account block, or is gone. */
  predicate Silent(s: Shard, requestId: string) { Dead(s, requestId) || requestId !in s.grants }

  predicate Reissues(steps: Steps, requestId: string) {
    exists i :: 0 <= i < |steps| && steps[i].0.CreateCode? && steps[i].0.request.id == requestId
  }

  predicate Gone(o: Op, requestId: string) {
    requestId !in o.tx.grants && (o.savepoint.Some? ==> requestId !in o.savepoint.value.grants)
  }

  lemma StepKeepsGone(env: Env, o: Op, call: Call, fault: bool, requestId: string)
    requires Gone(o, requestId) && !(call.CreateCode? && call.request.id == requestId)
    ensures Gone(Step(env, o, call, fault).0, requestId)
  {
    hide Allowed, Step;
    var e := Classify(env, o, call, fault);
    StepFlags(env, o, call, fault);
    if e.Back? {
      BackNeedsSavepoint(env, o, e);
    } else {
      EffectRows(env, o, e);
    }
    hide Detects;
  }

  lemma {:induction false} ExecKeepsGone(env: Env, t: Run, steps: Steps, requestId: string)
    requires Gone(t.op, requestId) && !Reissues(steps, requestId)
    ensures Gone(Exec(env, t, steps).op, requestId)
    decreases |steps|
  {
    hide Gone, Step;
    if steps != [] {
      StepKeepsGone(env, t.op, steps[0].0, steps[0].1, requestId);
      assert forall i :: 0 <= i < |steps[1..]| ==> steps[1..][i] == steps[i + 1];
      ExecKeepsGone(env, Advance(env, t, steps[0].0, steps[0].1), steps[1..], requestId);
    }
  }

  /** In every state of every operation, a silent family stays silent and gains no credential. */
  lemma RunKeepsSilent(env: Env, s0: Shard, o: Op, steps: Steps, requestId: string)
    requires Opened(o, s0) && Good(env, s0) && Silent(s0, requestId) && !Reissues(steps, requestId)
    ensures var tx := Exec(env, Start(o), steps).op.tx;
      && Good(env, tx) && Silent(tx, requestId)
      && forall k :: k in tx.creds && tx.creds[k].requestId == requestId ==> k in s0.creds
  {
    hide RunInv, Exec, Validate;
    var t := Exec(env, Start(o), steps);
    OperationInv(env, s0, o, steps);
    InvGood(env, s0, t);
    InvFlags(env, s0, t);
    if requestId !in s0.grants {
      ExecKeepsGone(env, Start(o), steps, requestId);
    } else {
      DeadForever(s0, t.op.tx, requestId);
    }
  }

  /** No call of any operation reads a credential of a silent family. */
  lemma SilentIsUnreadable(env: Env, s0: Shard, o: Op, steps: Steps, call: Call, fault: bool, requestId: string)
    requires Opened(o, s0) && Good(env, s0) && Silent(s0, requestId) && !Reissues(steps, requestId)
    ensures var answer := Step(env, Exec(env, Start(o), steps).op, call, fault).1;
      answer.request.Some? ==> answer.request.value.id != requestId
  {
    hide Exec, Good, StepGetCode, StepGetAccess, StepGetPkce, StepGetRefresh, Decode;
    var op := Exec(env, Start(o), steps).op;
    RunKeepsSilent(env, s0, o, steps, requestId);
    if call.GetCode? || call.GetPkce? || call.GetAccess? || call.GetRefresh? {
      ReadsAgree(env, op, call, fault);
      hide Step;
    } else {
      OnlyReadsReturnRequests(env, op, call, fault);
    }
  }

  predicate HistoryReissues(h: seq<Transition>, requestId: string) {
    exists i :: 0 <= i < |h| && h[i].Operation? && Reissues(h[i].steps, requestId)
  }

  lemma TakeKeepsSilent(env: Env, s: Shard, tr: Transition, requestId: string)
    requires Good(env, s) && CanTake(s, tr) && Silent(s, requestId)
    requires tr.Operation? ==> !Reissues(tr.steps, requestId)
    ensures Silent(Take(env, s, tr), requestId)
  {
    hide Good, Operate, Exec, Reissues;
    if tr.Operation? {
      RunKeepsSilent(env, s, OpenOp(tr, s), tr.steps, requestId);
      OperationIsAtomic(env, s, OpenOp(tr, s), tr.steps, tr.protocolErr, tr.fault);
    } else if tr.CleanConsents? || tr.CleanSessions? {
      ShortCleanupKeepsTokens(env, s, tr);
    } else if requestId in s.grants && !tr.CleanFamily? {
      TakeGrows(env, s, tr);
      DeadForever(s, Take(env, s, tr), requestId);
    }
  }

  /** A family killed by a replay, a revocation or an account block stays silent over every later history. */
  lemma {:induction false} SilentForever(env: Env, s: Shard, h: seq<Transition>, requestId: string)
    requires Good(env, s) && Valid(env, s, h) && Silent(s, requestId) && !HistoryReissues(h, requestId)
    ensures Good(env, After(env, s, h)) && Silent(After(env, s, h), requestId)
    decreases |h|
  {
    hide Good, Take, Silent, CanTake, Reissues;
    if h != [] {
      var before := After(env, s, h[..|h| - 1]);
      SilentForever(env, s, h[..|h| - 1], requestId);
      TakeKeepsSilent(env, before, h[|h| - 1], requestId);
      TakeKeepsGood(env, before, h[|h| - 1]);
    }
  }

  /** A committed replay whose revocation survived the savepoints silences the family of the presented credential. */
  lemma ReplayKills(env: Env, s0: Shard, o: Op, steps: Steps, protocolErr: Error, fault: bool)
    requires Opened(o, s0) && Good(env, s0)
    requires Operate(env, s0, o, steps, protocolErr, fault).outcome.ReplayCommitted?
    requires Exec(env, Start(o), steps).kept.audited
    ensures PresentedKey(env, o) in s0.creds
    ensures Silent(Operate(env, s0, o, steps, protocolErr, fault).rows, s0.creds[PresentedKey(env, o)].requestId)
  {
    ReplayEndings(env, s0, o, steps, protocolErr, fault);
    hide Operate, Exec, Good;
  }

  /** So does a block: every grant of the account, whether or not it is unblocked later. */
  lemma BlockKills(env: Env, s: Shard, requestId: string)
    requires Good(env, s)
    ensures Silent(Block(s), requestId)
  {
    hide RowMatches;
  }

  /** It ends every session and revokes every grant that was not revoked before; unblocking gives none of that back. */
  lemma BlockEnds(s: Shard, session: string, requestId: string)
    ensures
      var blocked, t := Block(s), Unblock(Block(s));
      && !blocked.active && t.active && blocked.epoch == s.epoch + 1 && t.epoch > s.epoch
      && (session in s.webSessions ==> session in t.webSessions && t.webSessions[session].revoked)
      && (requestId in s.grants ==>
            && requestId in t.grants
            && t.grants[requestId] == s.grants[requestId].(revoked :=
                 if s.grants[requestId].revoked.Some? then s.grants[requestId].revoked else Some(AccountBlocked)))
      && t.creds == s.creds && t.consents == s.consents && t.events == s.events
    ensures session in s.webSessions ==> !SessionUsable(Unblock(Block(s)), session, 0)
  {
  }

  /** Unblocking alone ends everything too: no grant and no session of an earlier epoch is good afterwards. */
  lemma UnblockKills(env: Env, s: Shard, requestId: string, session: string, at: Time)
    requires Good(env, s)
    ensures Unblock(s).active && Silent(Unblock(s), requestId)
    ensures session in s.webSessions && s.webSessions[session].accountEpoch <= s.epoch ==> !SessionUsable(Unblock(s), session, at)
  {
    hide RowMatches;
  }

  // ---- one-use credentials ---------------------------------------------------------

  predicate UsedUp(s: Shard, k: Key) { k !in s.creds || s.creds[k].consumed }

  function MadeKey(call: Call): Option<Key> {
    match call
    case CreateCode(signature, _, _) => Some(Key(Code, signature))
    case CreatePkce(signature, _, _) => Some(Key(Pkce, signature))
    case CreateAccess(signature, _, _) => Some(Key(Access, signature))
    case CreateRefresh(signature, _, _, _) => Some(Key(Refresh, signature))
    case _ => None
  }

  predicate Remakes(steps: Steps, k: Key) {
    exists i :: 0 <= i < |steps| && MadeKey(steps[i].0) == Some(k)
  }

  predicate Absent(o: Op, k: Key) {
    k !in o.tx.creds && (o.savepoint.Some? ==> k !in o.savepoint.value.creds)
  }

  lemma StepKeepsAbsent(env: Env, o: Op, call: Call, fault: bool, k: Key)
    requires Absent(o, k) && MadeKey(call) != Some(k)
    ensures Absent(Step(env, o, call, fault).0, k)
  {
    hide Allowed, Step;
    var e := Classify(env, o, call, fault);
    StepFlags(env, o, call, fault);
    if e.Back? {
      BackNeedsSavepoint(env, o, e);
    } else {
      EffectRows(env, o, e);
    }
    hide Detects;
  }

  lemma {:induction false} ExecKeepsAbsent(env: Env, t: Run, steps: Steps, k: Key)
    requires Absent(t.op, k) && !Remakes(steps, k)
    ensures Absent(Exec(env, t, steps).op, k)
    decreases |steps|
  {
    hide Absent, Step, MadeKey;
    if steps != [] {
      StepKeepsAbsent(env, t.op, steps[0].0, steps[0].1, k);
      assert forall i :: 0 <= i < |steps[1..]| ==> steps[1..][i] == steps[i + 1];
      ExecKeepsAbsent(env, Advance(env, t, steps[0].0, steps[0].1), steps[1..], k);
    }
  }

  lemma TakeKeepsUsedUp(env: Env, s: Shard, tr: Transition, k: Key)
    requires Good(env, s) && CanTake(s, tr) && UsedUp(s, k)
    requires tr.Operation? ==> !Remakes(tr.steps, k)
    ensures UsedUp(Take(env, s, tr), k)
  {
    hide Good, Operate, Exec, Remakes;
    if tr.Operation? {
      OperationIsAtomic(env, s, OpenOp(tr, s), tr.steps, tr.protocolErr, tr.fault);
      if k !in s.creds {
        ExecKeepsAbsent(env, Start(OpenOp(tr, s)), tr.steps, k);
      }
    } else if tr.CleanConsents? || tr.CleanSessions? {
      ShortCleanupKeepsTokens(env, s, tr);
    } else if k in s.creds && !tr.CleanFamily? {
      TakeGrows(env, s, tr);
    }
  }

  lemma {:induction false} UsedUpForever(env: Env, s: Shard, h: seq<Transition>, n: nat, k: Key)
    requires Good(env, s) && Valid(env, s, h) && n <= |h| && UsedUp(After(env, s, h[..n]), k)
    requires forall i :: n <= i < |h| && h[i].Operation? ==> !Remakes(h[i].steps, k)
    ensures UsedUp(After(env, s, h), k)
    decreases |h|
  {
    hide Good, Take, UsedUp, CanTake, Remakes;
    if n < |h| {
      var p := h[..|h| - 1];
      assert p[..n] == h[..n];
      UsedUpForever(env, s, p, n, k);
      AlwaysGood(env, s, p);
      TakeKeepsUsedUp(env, After(env, s, p), h[|h| - 1], k);
    } else {
      assert h[..n] == h;
    }
  }

  /** The last transition of h consumes k. */
  predicate ConsumesLast(env: Env, s: Shard, h: seq<Transition>, k: Key) {
    && h != []
    && !UsedUp(After(env, s, h[..|h| - 1]), k)
    && k in After(env, s, h).creds && After(env, s, h).creds[k].consumed
  }

  /** No code, PKCE row or refresh token is consumed twice in any history that does not issue it again. */
  lemma ConsumedAtMostOnce(env: Env, s: Shard, h: seq<Transition>, n: nat, k: Key)
    requires Good(env, s) && Valid(env, s, h) && n < |h|
    requires forall i :: n <= i < |h| && h[i].Operation? ==> !Remakes(h[i].steps, k)
    requires ConsumesLast(env, s, h[..n], k)
    ensures !ConsumesLast(env, s, h, k)
  {
    hide Good, Take, CanTake, Remakes, After;
    var p := h[..|h| - 1];
    assert p[..n] == h[..n];
    ValidPrefix(env, s, h);
    UsedUpForever(env, s, p, n, k);
  }

  lemma ValidPrefix(env: Env, s: Shard, h: seq<Transition>)
    requires Valid(env, s, h) && h != []
    ensures Valid(env, s, h[..|h| - 1]) && CanTake(After(env, s, h[..|h| - 1]), h[|h| - 1])
  {
  }

  /** And what consumes it is a token exchange that commits. */
  lemma ConsumptionIsExchange(env: Env, s: Shard, tr: Transition, k: Key)
    requires Good(env, s) && CanTake(s, tr) && !UsedUp(s, k)
    requires k in Take(env, s, tr).creds && Take(env, s, tr).creds[k].consumed
    ensures tr.Operation? && tr.ctx.binding.purpose.TokenExchange?
    ensures !Operate(env, s, OpenOp(tr, s), tr.steps, tr.protocolErr, tr.fault).outcome.RolledBack?
  {
    hide Good, Exec, Finish, Operate, Within, Audit, KeptExact;
    if tr.Operation? {
      var o := OpenOp(tr, s);
      OperationIsAtomic(env, s, o, tr.steps, tr.protocolErr, tr.fault);
      OperationInv(env, s, o, tr.steps);
      InvGood(env, s, Exec(env, Start(o), tr.steps));
      hide RunInv;
    }
  }
}
