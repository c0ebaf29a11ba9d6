/**
  Why a driver must not roll back the savepoint in which it locked its consent, while
  others go on: its decision flag stays, the locks do not, and a logout in between gives
  rows that neither order of the two transactions gives.
 */
module OAuthReleasedLocks {
  import opened Prelude
  import opened RequestCodec
  import opened OAuthTables
  import opened OAuthOperation
  import opened OAuthEffects
  import opened OAuthInvariants
  import opened OAuthRuns
  import opened OAuthSafety
  import opened OAuthHistory
  import opened OAuthExchange
  import opened OAuthOverlap
  import opened OAuthConsents
  import opened OAuthCounterexamples

  const CONSUME := (ConsumeConsent("h", "w", 1, Approve), false)

  const TRIED := [(BeginSavepoint, false), CONSUME, (RollbackSavepoint, false)]

  const GRANTED := [CONSUME, (CreateCode("k", SAMPLE_REQUEST, 0), false), (CreatePkce("p", SAMPLE_REQUEST, 0), false)]

  const LOGGED_OUT := LogOut(SAMPLE_EMPTY, "w")

  /** The operation as it begins on these rows. */
  function Opening(s: Shard): Op { Op(APPROVER, NO_FLAGS, None, s) }

  const APPROVED := NO_FLAGS.(decision := Some(Approve))

  lemma RefusedConsent(o: Op)
    requires o.ctx == APPROVER && o.tx.webSessions == LOGGED_OUT.webSessions
    ensures StepConsumeConsent(o, "h", "w", 1, Approve, false) == Refuse(o, AccessDenied)
  {
  }

  lemma ThreeOps(env: Env, t: Run, steps: Steps)
    requires |steps| == 3
    ensures Exec(env, t, steps).op ==
            Step(env, Step(env, Step(env, t.op, steps[0].0, steps[0].1).0, steps[1].0, steps[1].1).0, steps[2].0, steps[2].1).0
  {
    hide Step, Keep;
    ThreeSteps(env, t, steps);
  }

  /** The consent is found, consumed and given back; the decision stays. */
  lemma TriedRun()
    ensures Exec(SAMPLE_ENV, Start(Opening(SAMPLE_EMPTY)), TRIED).op == Opening(SAMPLE_EMPTY).(flags := APPROVED)
  {
    var o := Opening(SAMPLE_EMPTY);
    var saved := o.(savepoint := Some(SAMPLE_EMPTY));
    hide Exec, StepConsumeConsent;
    ConsentStep(saved);
    ThreeOps(SAMPLE_ENV, Start(o), TRIED);
  }

  lemma TriedAfterLogout()
    ensures Exec(SAMPLE_ENV, Start(Opening(LOGGED_OUT)), TRIED).op == Opening(LOGGED_OUT)
  {
    var o := Opening(LOGGED_OUT);
    var saved := o.(savepoint := Some(LOGGED_OUT));
    hide Exec, StepConsumeConsent, LOGGED_OUT;
    RefusedConsent(saved);
    ThreeOps(SAMPLE_ENV, Start(o), TRIED);
  }

  lemma CreatesKeepConsents(o: Op, code: bool)
    ensures var o' := (if code then StepCreateCode(SAMPLE_ENV, o, "k", SAMPLE_REQUEST, 0, false)
                       else StepCreatePkce(SAMPLE_ENV, o, "p", SAMPLE_REQUEST, 0, false)).0;
      && o'.tx.consents == o.tx.consents && o'.flags.decision == o.flags.decision
  {
    hide Encode, LockGrant, WriteSnapshotMatches;
  }

  /** Whatever the creations do, they change neither the consent nor the decision of the first call. */
  lemma GrantedKeeps(o: Op)
    ensures
      var first, last := StepConsumeConsent(o, "h", "w", 1, Approve, false).0, Exec(SAMPLE_ENV, Start(o), GRANTED).op;
      last.tx.consents == first.tx.consents && last.flags.decision == first.flags.decision
  {
    hide Exec, StepConsumeConsent, StepCreateCode, StepCreatePkce;
    var first := StepConsumeConsent(o, "h", "w", 1, Approve, false).0;
    CreatesKeepConsents(first, true);
    CreatesKeepConsents(StepCreateCode(SAMPLE_ENV, first, "k", SAMPLE_REQUEST, 0, false).0, false);
    ThreeOps(SAMPLE_ENV, Start(o), GRANTED);
  }

  // ---- between the two transactions ------------------------------------------------

  lemma CodeAfterLogout(o: Op)
    requires o.ctx == APPROVER && o.tx == LOGGED_OUT
    ensures StepCreateCode(SAMPLE_ENV, o, "k", SAMPLE_REQUEST, 0, false) ==
            Done(o.(tx := LOGGED_OUT.(grants := SAMPLE_GRANTED.grants, creds := SAMPLE_GRANTED.creds),
                    flags := o.flags.(issuanceAttempted := true, codeCreated := true)))
  {
    SampleEncodes();
    hide Encode;
  }

  lemma PkceKeepsCode(o: Op)
    requires Key(Code, "k") in o.tx.creds
    ensures Key(Code, "k") in StepCreatePkce(SAMPLE_ENV, o, "p", SAMPLE_REQUEST, 0, false).0.tx.creds
  {
    hide Encode, LockGrant, WriteSnapshotMatches;
  }

  lemma CodeThenPkce(o: Op)
    requires o == Opening(LOGGED_OUT).(flags := APPROVED)
    ensures
      var coded := StepCreateCode(SAMPLE_ENV, o, "k", SAMPLE_REQUEST, 0, false).0;
      var op := StepCreatePkce(SAMPLE_ENV, coded, "p", SAMPLE_REQUEST, 0, false).0;
      && op.ctx == APPROVER && op.savepoint.None? && Key(Code, "k") in op.tx.creds
      && op.flags == APPROVED.(issuanceAttempted := true, codeCreated := true, pkceCreated := true)
  {
    hide StepCreateCode, StepCreatePkce;
    var coded := StepCreateCode(SAMPLE_ENV, o, "k", SAMPLE_REQUEST, 0, false).0;
    CodeAfterLogout(o);
    PkceStep(coded);
    PkceFrame(coded);
    PkceKeepsCode(coded);
  }

  /** The consent call is refused, and the operation still gets its code and its PKCE row. */
  lemma GrantedAfterLogout()
    ensures
      var op := Exec(SAMPLE_ENV, Start(Opening(LOGGED_OUT).(flags := APPROVED)), GRANTED).op;
      && op.ctx == APPROVER && op.savepoint.None? && Key(Code, "k") in op.tx.creds && op.tx.consents == SAMPLE_EMPTY.consents
      && op.flags == APPROVED.(issuanceAttempted := true, codeCreated := true, pkceCreated := true)
  {
    var o := Opening(LOGGED_OUT).(flags := APPROVED);
    hide Exec, StepConsumeConsent, StepCreateCode, StepCreatePkce;
    RefusedConsent(o);
    GrantedKeeps(o);
    CodeThenPkce(o);
    ThreeOps(SAMPLE_ENV, Start(o), GRANTED);
  }

  // ---- neither order gives these rows -------------------------------------------------

  lemma {:induction false} SameOps(env: Env, t: Run, u: Run, steps: Steps)
    requires t.op == u.op
    ensures Exec(env, t, steps).op == Exec(env, u, steps).op
    decreases |steps|
  {
    hide Step, Keep;
    if steps != [] {
      SameOps(env, Advance(env, t, steps[0].0, steps[0].1), Advance(env, u, steps[0].0, steps[0].1), steps[1..]);
    }
  }

  const TRY_AGAIN := Operation(APPROVER, NO_FLAGS, false, TRIED + GRANTED, NoError, false)

  /** What the operation ends with if nothing comes between its calls. */
  lemma WholeRun(s: Shard, tried: Op)
    requires Exec(SAMPLE_ENV, Start(Opening(s)), TRIED).op == tried
    ensures Exec(SAMPLE_ENV, Start(OpenOp(TRY_AGAIN, s)), TRIED + GRANTED).op == Exec(SAMPLE_ENV, Start(tried), GRANTED).op
  {
    hide Exec;
    var t := Exec(SAMPLE_ENV, Start(Opening(s)), TRIED);
    ExecTwice(SAMPLE_ENV, Start(Opening(s)), TRIED, GRANTED);
    SameOps(SAMPLE_ENV, t, Start(tried), GRANTED);
  }

  /** The operation first: its consent is spent, or it left nothing. */
  lemma OperationFirst()
    ensures
      var rows := Take(SAMPLE_ENV, SAMPLE_EMPTY, TRY_AGAIN);
      rows.consents == SAMPLE_SPENT || rows == SAMPLE_EMPTY
  {
    var tried := Opening(SAMPLE_EMPTY).(flags := APPROVED);
    hide Exec, StepConsumeConsent;
    TriedRun();
    WholeRun(SAMPLE_EMPTY, tried);
    ConsentStep(tried);
    GrantedKeeps(tried);
  }

  lemma DecisionIsNeeded(o: Op, s: Shard)
    requires o.ctx.binding.purpose.Authorize? && o.flags.decision.None?
    ensures OAuthOperation.Finish(o, s, NoError, false).rows == s
  {
  }

  /** The logout first: the consent is refused twice, and nothing is committed. */
  lemma LogoutFirst()
    ensures Take(SAMPLE_ENV, LOGGED_OUT, TRY_AGAIN) == LOGGED_OUT
  {
    var tried := Opening(LOGGED_OUT);
    hide Exec, StepConsumeConsent, LOGGED_OUT;
    TriedAfterLogout();
    WholeRun(LOGGED_OUT, tried);
    RefusedConsent(tried);
    GrantedKeeps(tried);
    SameContextAfter(SAMPLE_ENV, Start(tried), GRANTED);
    hide OAuthOperation.Finish;
    DecisionIsNeeded(Exec(SAMPLE_ENV, Start(tried), GRANTED).op, LOGGED_OUT);
  }

  /**
    With a logout after the rollback: the operation commits a code although its consent is
    unspent and its session logged out, which is neither the operation before the logout
    nor the operation after it.
   */
  lemma ReleasedLocksAreNotSerial()
    ensures Good(SAMPLE_ENV, SAMPLE_EMPTY) && CanTake(SAMPLE_EMPTY, TRY_AGAIN)
    ensures
      var tried := Exec(SAMPLE_ENV, Start(OpenOp(TRY_AGAIN, SAMPLE_EMPTY)), TRIED);
      var op := Exec(SAMPLE_ENV, RefreshedRun(tried, Logout("w")), GRANTED).op;
      var out := Take(SAMPLE_ENV, SAMPLE_EMPTY, Logout("w"));
      var f := OAuthOperation.Finish(op, out, NoError, false);
      && f.outcome.Committed?
      && f.rows != Take(SAMPLE_ENV, out, TRY_AGAIN)
      && f.rows != Take(SAMPLE_ENV, Take(SAMPLE_ENV, SAMPLE_EMPTY, TRY_AGAIN), Logout("w"))
  {
    var tried := Exec(SAMPLE_ENV, Start(Opening(SAMPLE_EMPTY)), TRIED);
    var resumed := Start(Opening(LOGGED_OUT).(flags := APPROVED));
    BothBegin();
    hide Exec, Take, Good, CanTake, Loosened;
    TriedRun();
    LogoutRows(SAMPLE_EMPTY);
    LogoutRows(Take(SAMPLE_ENV, SAMPLE_EMPTY, TRY_AGAIN));
    assert RefreshedRun(tried, Logout("w")).op == resumed.op;
    SameOps(SAMPLE_ENV, RefreshedRun(tried, Logout("w")), resumed, GRANTED);
    GrantedAfterLogout();
    OperationFirst();
    LogoutFirst();
  }

  lemma BothBegin()
    ensures Good(SAMPLE_ENV, SAMPLE_EMPTY) && CanTake(SAMPLE_EMPTY, TRY_AGAIN)
    ensures OpenOp(TRY_AGAIN, SAMPLE_EMPTY) == Opening(SAMPLE_EMPTY)
    ensures SAMPLE_SPENT != SAMPLE_EMPTY.consents
  {
    assert SAMPLE_SPENT["h"] != SAMPLE_EMPTY.consents["h"];
  }

  /** A logout leaves consents and credentials as they are. */
  lemma LogoutRows(s: Shard)
    ensures Take(SAMPLE_ENV, s, Logout("w")) == Loosened(s, Logout("w")) == LogOut(s, "w")
    ensures LogOut(s, "w").consents == s.consents && LogOut(s, "w").creds == s.creds
  {
  }
}
