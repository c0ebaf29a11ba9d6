/** Pending consents over whole histories: bound once, consumed once, and only by a usable session. */
module OAuthConsents {
  import opened Prelude
  import opened RequestCodec
  import opened OAuthTables
  import opened OAuthOperation
  import opened OAuthEffects
  import opened OAuthInvariants
  import opened OAuthRuns
  import opened OAuthSafety
  import opened OAuthHistory

  /** The call consumes the consent for its bound, live session at the current epoch of the active account. */
  predicate ConsumesConsent(s0: Shard, call: Call, handle: string) {
    call.ConsumeConsent? && call.handle == handle && ConsentUsable(s0, handle, call.session, call.at)
  }

  predicate SpentAnywhere(s0: Shard, o: Op, handle: string) {
    Spent(s0, o.tx, handle) || (o.savepoint.Some? && Spent(s0, o.savepoint.value, handle))
  }

  lemma EffectSpends(env: Env, s0: Shard, o: Op, e: Effect, handle: string)
    requires Within(s0, o.tx) && Allowed(env, o, e) && !e.Back?
    requires !Spent(s0, o.tx, handle) && Spent(s0, Apply(o, e), handle)
    ensures e.Spend? && e.handle == handle && ConsentUsable(s0, handle, e.session, e.at)
  {
    EffectRows(env, o, e);
    KeysWithin(s0, o.tx);
    assert e.Spend? && e.handle == handle by { hide Allowed, Apply, Within, Good; }
    SpendIsUsable(env, s0, o, e);
  }

  lemma StepSpends(env: Env, s0: Shard, t: Run, call: Call, fault: bool, handle: string)
    requires RunInv(env, s0, t) && !SpentAnywhere(s0, t.op, handle)
    requires SpentAnywhere(s0, Advance(env, t, call, fault).op, handle)
    ensures ConsumesConsent(s0, call, handle)
  {
    hide RunInv, Step, Within, Allowed, Apply, Spent, Detects, Keep, ConsentUsable;
    var e := Classify(env, t.op, call, fault);
    StepFlags(env, t.op, call, fault);
    InvFlags(env, s0, t);
    if e.Back? {
      BackNeedsSavepoint(env, t.op, e);
      BackRestores(t.op, e);
    } else {
      if Spent(s0, Apply(t.op, e), handle) { EffectSpends(env, s0, t.op, e, handle); }
    }
  }

  lemma BackRestores(o: Op, e: Effect)
    requires e.Back? && o.savepoint.Some?
    ensures Apply(o, e) == o.savepoint.value
  {
  }

  lemma SpendIsUsable(env: Env, s0: Shard, o: Op, e: Effect)
    requires Within(s0, o.tx) && e.Spend? && Allowed(env, o, e) && e.handle in s0.consents
    ensures ConsentUsable(s0, e.handle, e.session, e.at)
  {
    hide RowMatches, LockCredential, LockGrantForRevocation, GrantOpen;
  }

  lemma {:induction false} SpentByCall(env: Env, s0: Shard, t: Run, steps: Steps, handle: string) returns (i: nat)
    requires RunInv(env, s0, t) && !SpentAnywhere(s0, t.op, handle)
    requires SpentAnywhere(s0, Exec(env, t, steps).op, handle)
    ensures i < |steps| && ConsumesConsent(s0, steps[i].0, handle)
    decreases |steps|
  {
    hide RunInv, SpentAnywhere, Advance, ConsumesConsent;
    i := 0;
    if steps == [] {
      assert false;
    } else {
      var next := Advance(env, t, steps[0].0, steps[0].1);
      if SpentAnywhere(s0, next.op, handle) {
        StepSpends(env, s0, t, steps[0].0, steps[0].1, handle);
      } else {
        AdvanceInv(env, s0, t, steps[0].0, steps[0].1);
        i := SpentByCall(env, s0, next, steps[1..], handle);
        i := i + 1;
      }
    }
  }

  /**
    A transition that consumes a consent is a committed authorization, one of
    whose calls named that consent and its bound, unexpired, unrevoked session.
   */
  lemma ConsumptionIsAuthorized(env: Env, s: Shard, tr: Transition, handle: string) returns (i: nat)
    requires Good(env, s) && CanTake(s, tr) && Spent(s, Take(env, s, tr), handle)
    ensures tr.Operation? && tr.ctx.binding.purpose.Authorize?
    ensures !Operate(env, s, OpenOp(tr, s), tr.steps, tr.protocolErr, tr.fault).outcome.RolledBack?
    ensures i < |tr.steps| && ConsumesConsent(s, tr.steps[i].0, handle)
  {
    assert tr.Operation?;
    hide Good, Exec, Operate, Within, Audit, KeptExact;
    var o := OpenOp(tr, s);
    OperationIsAtomic(env, s, o, tr.steps, tr.protocolErr, tr.fault);
    OperationInv(env, s, o, tr.steps);
    InvGood(env, s, Exec(env, Start(o), tr.steps));
    StartInv(env, o, s);
    hide RunInv;
    i := SpentByCall(env, s, Start(o), tr.steps, handle);
  }

  lemma TakeKeepsConsents(env: Env, s: Shard, tr: Transition, handle: string)
    requires Good(env, s) && CanTake(s, tr) && handle in s.consents
    ensures handle in Take(env, s, tr).consents ==> ConsentGrows(s.consents[handle], Take(env, s, tr).consents[handle])
    ensures handle !in Take(env, s, tr).consents ==> tr.CleanConsents? || tr.CleanSessions?
  {
    hide Good, Operate, CanTake;
    if tr.CleanConsents? || tr.CleanSessions? {
      ShortCleanupKeepsTokens(env, s, tr);
    } else if !tr.CleanFamily? {
      TakeGrows(env, s, tr);
    }
  }

  /** Consents come into an account only by binding. */
  lemma TakeBindsConsents(env: Env, s: Shard, tr: Transition, handle: string)
    requires Good(env, s) && CanTake(s, tr) && handle !in s.consents
    requires !(tr.BindConsent? && tr.handle == handle)
    ensures handle !in Take(env, s, tr).consents
  {
    if tr.Operation? {
      OperationIsAtomic(env, s, OpenOp(tr, s), tr.steps, tr.protocolErr, tr.fault);
    }
    hide Good, Operate, Exec;
  }

  /**
    Whoever binds a consent holds a live session of the active account at its current
    epoch; the consent is not consumed and outlives its binding.
   */
  lemma BindingIsAuthorized(env: Env, s: Shard, tr: Transition, handle: string)
    requires Good(env, s) && CanTake(s, tr) && handle !in s.consents && handle in Take(env, s, tr).consents
    ensures tr.BindConsent? && tr.handle == handle && tr.session in s.webSessions && s.active
    ensures var w := s.webSessions[tr.session];
      !w.revoked && tr.at < w.expiresAt && w.accountEpoch == s.epoch
    ensures Take(env, s, tr).consents == s.consents[handle := Consent(tr.ciphertext, tr.expiresAt, tr.session, false)]
    ensures tr.at < tr.expiresAt
  {
    if !(tr.BindConsent? && tr.handle == handle) {
      TakeBindsConsents(env, s, tr, handle);
    }
    hide Good;
  }

  /** From position n on, the history does not bind this handle. */
  predicate BindsAfter(h: seq<Transition>, n: nat, handle: string) {
    exists i :: n <= i < |h| && h[i].BindConsent? && h[i].handle == handle
  }

  /** The consent is gone, or it is what it was, apart from its consumption, which is never taken back. */
  predicate GoneOrGrown(s: Shard, t: Shard, handle: string) {
    handle in t.consents ==> handle in s.consents && ConsentGrows(s.consents[handle], t.consents[handle])
  }

  /**
    A consent whose handle is not bound again is gone or keeps its session, request
    and expiry; once consumed, it is gone or stays so.
   */
  lemma {:induction false} ConsentNeverChanges(env: Env, s: Shard, h: seq<Transition>, n: nat, handle: string)
    requires Good(env, s) && Valid(env, s, h) && n <= |h| && !BindsAfter(h, n, handle)
    ensures GoneOrGrown(After(env, s, h[..n]), After(env, s, h), handle)
    decreases |h|
  {
    hide Good, Take, CanTake;
    if n < |h| {
      var p := h[..|h| - 1];
      assert p[..n] == h[..n];
      assert forall i :: n <= i < |p| ==> p[i] == h[i];
      assert !BindsAfter(p, n, handle);
      ConsentNeverChanges(env, s, p, n, handle);
      AlwaysGood(env, s, p);
      if handle in After(env, s, p).consents {
        TakeKeepsConsents(env, After(env, s, p), h[|h| - 1], handle);
      } else {
        TakeBindsConsents(env, After(env, s, p), h[|h| - 1], handle);
      }
    } else {
      assert h[..n] == h;
    }
  }

  predicate SpendsLast(env: Env, s: Shard, h: seq<Transition>, handle: string) {
    h != [] && Spent(After(env, s, h[..|h| - 1]), After(env, s, h), handle)
  }

  /** No consent is consumed twice in any history that does not bind its handle again. */
  lemma ConsentConsumedAtMostOnce(env: Env, s: Shard, h: seq<Transition>, n: nat, handle: string)
    requires Good(env, s) && Valid(env, s, h) && n < |h| && SpendsLast(env, s, h[..n], handle)
    requires !BindsAfter(h, n, handle)
    ensures !SpendsLast(env, s, h, handle)
  {
    hide Good, Take, CanTake;
    var p := h[..|h| - 1];
    assert p[..n] == h[..n];
    assert forall i :: n <= i < |p| ==> p[i] == h[i];
    assert !BindsAfter(p, n, handle);
    ConsentNeverChanges(env, s, p, n, handle);
  }

  // ---- without that assumption -------------------------------------------------------

  const NO_FLAGS := Flags(false, false, false, false, None, None, false)

  /** An authorization that does nothing but deny this consent. */
  function Denial(ctx: Context, handle: string, session: string, at: Time): Transition {
    Operation(ctx, NO_FLAGS, false, [(ConsumeConsent(handle, session, at, Deny), false)], AccessDenied, false)
  }

  lemma DenialSpends(env: Env, s: Shard, ctx: Context, handle: string, session: string, at: Time)
    requires ConsentUsable(s, handle, session, at) && handle != "" && session != "" && at != 0
    requires ctx.binding.purpose.Authorize? && ctx.binding.accountId == s.accountId && ctx.authorizeEpoch == s.epoch
    ensures CanTake(s, Denial(ctx, handle, session, at)) && Spent(s, Take(env, s, Denial(ctx, handle, session, at)), handle)
  {
    var denial := Denial(ctx, handle, session, at);
    var t := Start(OpenOp(denial, s));
    var next := Advance(env, t, denial.steps[0].0, false);
    assert denial.steps[1..] == [];
    assert Exec(env, t, denial.steps) == Exec(env, next, []);
    hide ConsentUsable;
  }

  /** Bound again after a cleanup, a consumed consent is consumed a second time: the assumption is needed. */
  lemma BoundAgainIsFresh(
    env: Env, s: Shard, ctx: Context, handle: string, session: string, ciphertext: string, expiresAt: Time, at: Time)
    requires handle in s.consents && s.consents[handle].consumed && s.consents[handle].expiresAt <= at
    requires SessionUsable(s, session, at) && at < expiresAt && handle != "" && session != "" && at != 0
    requires ctx.binding.purpose.Authorize? && ctx.binding.accountId == s.accountId && ctx.authorizeEpoch == s.epoch
    ensures var h := [CleanConsents({handle}, at), BindConsent(handle, session, ciphertext, expiresAt, at),
                      Denial(ctx, handle, session, at)];
      Valid(env, s, h) && ConsentUsable(After(env, s, h[..2]), handle, session, at) && SpendsLast(env, s, h, handle)
  {
    var clean, bind := CleanConsents({handle}, at), BindConsent(handle, session, ciphertext, expiresAt, at);
    var s1, s2, none: seq<Transition> := Take(env, s, clean), Take(env, Take(env, s, clean), bind), [];
    var h := [clean, bind, Denial(ctx, handle, session, at)];
    assert Valid(env, s, none) && After(env, s, none) == s && CanTake(s, clean) && CanTake(s1, bind);
    assert ConsentUsable(s2, handle, session, at);
    assert h[..1] == none + [clean] && h[..2] == h[..1] + [bind] && h == h[..2] + [Denial(ctx, handle, session, at)];
    DenialSpends(env, s2, ctx, handle, session, at);
    hide Take, Denial, CanTake, ConsentUsable, Valid, After, Spent;
    OneMore(env, s, none, clean, s);
    OneMore(env, s, h[..1], bind, s1);
    OneMore(env, s, h[..2], Denial(ctx, handle, session, at), s2);
  }
}
