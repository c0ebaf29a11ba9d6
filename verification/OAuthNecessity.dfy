/**
  What the lifetime theorems assume of drivers and of randomness cannot be dropped:
  a signature issued again after its family was cleaned up is consumed a second time,
  and an exchange that issues two access tokens leaves two live ones for one grant.
 */
module OAuthNecessity {
  import opened Prelude
  import opened RequestCodec
  import opened OAuthTables
  import opened OAuthOperation
  import opened OAuthEffects
  import opened OAuthInvariants
  import opened OAuthRuns
  import opened OAuthSafety
  import opened OAuthHistory
  import opened OAuthLifetimes
  import opened OAuthExchange
  import opened OAuthConsents
  import opened OAuthCounterexamples

  // ---- a signature issued again --------------------------------------------------

  const CODE_KEY := Key(Code, "k")

  const EXCHANGE := Operation(EXCHANGER, NO_FLAGS, false, [(InvalidateCode("k"), false)], NoError, false)

  const FORGET := CleanFamily("g", 5)

  const ISSUE := [
    (ConsumeConsent("h", "w", 1, Approve), false), (CreateCode("k", SAMPLE_REQUEST, 0), false),
    (CreatePkce("p", SAMPLE_REQUEST, 0), false)]

  const REISSUE := Operation(APPROVER, NO_FLAGS, false, ISSUE, NoError, false)

  /** The sample code is there to be exchanged. */
  predicate Exchangeable(s: Shard) {
    && s.active && s.epoch == 1 && s.accountId == 1
    && "g" in s.grants && s.grants["g"] == Grant(1, "c", "r", None, 5)
    && CODE_KEY in s.creds && s.creds[CODE_KEY] == SAMPLE_ROW
  }

  lemma InvalidateStep(o: Op)
    requires o.ctx == EXCHANGER && Exchangeable(o.tx)
    ensures StepConsume(SAMPLE_ENV, o, CODE_KEY, false) == Done(o.(tx := ConsumeSession(o.tx, CODE_KEY).0))
  {
    SampleEncodes();
    assert Decode(SAMPLE_ENV.registry, Snapshot(SAMPLE_REQUEST), None) == Some(SAMPLE_REQUEST);
    hide Decode;
  }

  lemma ExchangeConsumes(s: Shard)
    requires Exchangeable(s)
    ensures CanTake(s, EXCHANGE) && Take(SAMPLE_ENV, s, EXCHANGE) == ConsumeSession(s, CODE_KEY).0
  {
    hide StepConsume, ConsumeSession, Exchangeable;
    var t := Start(OpenOp(EXCHANGE, s));
    InvalidateStep(t.op);
    assert EXCHANGE.steps[1..] == [];
    assert Exec(SAMPLE_ENV, t, EXCHANGE.steps) == Exec(SAMPLE_ENV, Advance(SAMPLE_ENV, t, InvalidateCode("k"), false), []);
  }

  lemma PkceRows(o: Op)
    requires o.ctx == APPROVER && o.tx == SAMPLE_GRANTED.(consents := SAMPLE_SPENT)
    ensures Exchangeable(StepCreatePkce(SAMPLE_ENV, o, "p", SAMPLE_REQUEST, 0, false).0.tx)
  {
    hide Encode;
  }

  lemma IssueRun(o: Op)
    requires Opened(o, SAMPLE_EMPTY) && o.savepoint.None? && o.ctx == APPROVER && o.flags == NO_FLAGS
    ensures var op := Exec(SAMPLE_ENV, Start(o), ISSUE).op;
      && Exchangeable(op.tx) && op.savepoint.None? && op.ctx == APPROVER
      && op.flags == NO_FLAGS.(issuanceAttempted := true, codeCreated := true, pkceCreated := true, decision := Some(Approve))
  {
    var o1 := o.(tx := o.tx.(consents := SAMPLE_SPENT), flags := o.flags.(decision := Some(Approve)));
    var o2 := o1.(tx := SAMPLE_GRANTED.(consents := SAMPLE_SPENT),
                  flags := o1.flags.(issuanceAttempted := true, codeCreated := true));
    hide StepCreateCode, StepCreatePkce, StepConsumeConsent, Exec, Exchangeable, Keep;
    ConsentStep(o);
    CodeStep(o1);
    PkceStep(o2);
    PkceFrame(o2);
    PkceRows(o2);
    ThreeSteps(SAMPLE_ENV, Start(o), ISSUE);
  }

  lemma ReissueIssues()
    ensures CanTake(SAMPLE_EMPTY, REISSUE) && Exchangeable(Take(SAMPLE_ENV, SAMPLE_EMPTY, REISSUE))
  {
    hide Exec, Exchangeable;
    IssueRun(OpenOp(REISSUE, SAMPLE_EMPTY));
  }

  lemma ForgottenIsEmpty()
    ensures CanTake(SAMPLE_USED, FORGET) && Take(SAMPLE_ENV, SAMPLE_USED, FORGET) == SAMPLE_EMPTY
  {
  }

  lemma FourTransitions(env: Env, s: Shard, h: seq<Transition>, s1: Shard, s2: Shard, s3: Shard, k: Key)
    requires |h| == 4 && CanTake(s, h[0]) && Take(env, s, h[0]) == s1 && CanTake(s1, h[1]) && Take(env, s1, h[1]) == s2
    requires CanTake(s2, h[2]) && Take(env, s2, h[2]) == s3 && CanTake(s3, h[3])
    requires !UsedUp(s, k) && k in s1.creds && s1.creds[k].consumed
    requires !UsedUp(s3, k) && k in Take(env, s3, h[3]).creds && Take(env, s3, h[3]).creds[k].consumed
    ensures Valid(env, s, h) && ConsumesLast(env, s, h[..1], k) && ConsumesLast(env, s, h, k)
  {
    var none: seq<Transition> := [];
    hide Take, CanTake, Valid, After, UsedUp;
    NoHistory(env, s);
    assert h[..1] == none + [h[0]] && h[..2] == h[..1] + [h[1]] && h[..3] == h[..2] + [h[2]] && h == h[..3] + [h[3]];
    assert h[..1][..0] == none;
    OneMore(env, s, none, h[0], s);
    OneMore(env, s, h[..1], h[1], s1);
    OneMore(env, s, h[..2], h[2], s2);
    OneMore(env, s, h[..3], h[3], s3);
  }

  lemma FirstExchange()
    ensures Exchangeable(SAMPLE_GRANTED) && ConsumeSession(SAMPLE_GRANTED, CODE_KEY).0 == SAMPLE_USED
  {
  }

  /** Consumed, cleaned up, issued again under the same signature and consumed again. */
  lemma ReissuedIsConsumedAgain()
    ensures Good(SAMPLE_ENV, SAMPLE_GRANTED)
    ensures var h := [EXCHANGE, FORGET, REISSUE, EXCHANGE];
      && Valid(SAMPLE_ENV, SAMPLE_GRANTED, h) && ConsumesLast(SAMPLE_ENV, SAMPLE_GRANTED, h[..1], CODE_KEY)
      && ConsumesLast(SAMPLE_ENV, SAMPLE_GRANTED, h, CODE_KEY)
  {
    hide *;
    GrantedIsGood();
    FirstExchange();
    ExchangeIsConsumption(SAMPLE_GRANTED);
    ForgottenIsEmpty();
    ReissueIssues();
    var again := Take(SAMPLE_ENV, SAMPLE_EMPTY, REISSUE);
    ExchangeIsConsumption(again);
    FourTransitions(SAMPLE_ENV, SAMPLE_GRANTED, [EXCHANGE, FORGET, REISSUE, EXCHANGE], SAMPLE_USED, SAMPLE_EMPTY, again, CODE_KEY);
  }

  lemma ExchangeIsConsumption(s: Shard)
    requires Exchangeable(s)
    ensures CanTake(s, EXCHANGE) && Take(SAMPLE_ENV, s, EXCHANGE) == ConsumeSession(s, CODE_KEY).0
    ensures !UsedUp(s, CODE_KEY)
    ensures var t := Take(SAMPLE_ENV, s, EXCHANGE); CODE_KEY in t.creds && t.creds[CODE_KEY].consumed
  {
    hide Take, CanTake;
    ExchangeConsumes(s);
  }

  // ---- an exchange that issues twice -----------------------------------------------

  const TOKEN_REQUEST := SAMPLE_REQUEST.(session := SAMPLE_REQUEST.session.(expiresAt := map[AccessToken := 5000]))

  const TOKEN_ROW := Credential("g", Snapshot(TOKEN_REQUEST), 5, None, false, false)

  const TWICE := Operation(EXCHANGER, NO_FLAGS, false,
    [(CreateAccess("a", TOKEN_REQUEST, 0), false), (CreateAccess("b", TOKEN_REQUEST, 0), false)], NoError, false)

  lemma TokenEncodes()
    ensures Encode(SAMPLE_ENV.registry, TOKEN_REQUEST) == Some(Snapshot(TOKEN_REQUEST))
  {
    assert 'g' in TOKEN_REQUEST.id && 'c' in TOKEN_REQUEST.clientId;
    assert FormatInt(1) == "1";
    assert FilterStoredForm(TOKEN_REQUEST.form) == map[];
  }

  lemma AccessStep(o: Op, signature: string)
    requires o.ctx == EXCHANGER && o.tx.active && o.tx.epoch == 1 && o.tx.accountId == 1
    requires "g" in o.tx.grants && o.tx.grants["g"] == Grant(1, "c", "r", None, 5) && Key(Access, signature) !in o.tx.creds
    ensures StepCreateAccess(SAMPLE_ENV, o, signature, TOKEN_REQUEST, 0, false) ==
            Done(o.(tx := o.tx.(creds := o.tx.creds[Key(Access, signature) := TOKEN_ROW]),
                    flags := o.flags.(issuanceAttempted := true)))
  {
    TokenEncodes();
    hide Encode;
    assert o.tx.grants["g" := Grant(1, "c", "r", None, 5)] == o.tx.grants;
  }

  lemma TwoAccessTokens(o: Op)
    requires o.ctx == EXCHANGER && o.tx == SAMPLE_USED && o.savepoint.None? && o.flags == NO_FLAGS
    ensures
      var next := Step(SAMPLE_ENV, o, CreateAccess("a", TOKEN_REQUEST, 0), false).0;
      Step(SAMPLE_ENV, next, CreateAccess("b", TOKEN_REQUEST, 0), false).0 ==
      o.(tx := SAMPLE_USED.(creds := SAMPLE_USED.creds[Key(Access, "a") := TOKEN_ROW][Key(Access, "b") := TOKEN_ROW]),
         flags := NO_FLAGS.(issuanceAttempted := true))
  {
    hide StepCreateAccess;
    AccessStep(o, "a");
    AccessStep(o.(tx := o.tx.(creds := o.tx.creds[Key(Access, "a") := TOKEN_ROW]),
                  flags := o.flags.(issuanceAttempted := true)), "b");
  }

  lemma TwoCalls(env: Env, t: Run, steps: Steps)
    requires |steps| == 2
    ensures Exec(env, t, steps).op ==
            Step(env, Step(env, t.op, steps[0].0, steps[0].1).0, steps[1].0, steps[1].1).0
  {
    hide Step, Keep;
    TwoSteps(env, t, steps);
    assert steps[2..] == [];
  }

  lemma TwiceRun()
    ensures CanTake(SAMPLE_USED, TWICE)
    ensures Take(SAMPLE_ENV, SAMPLE_USED, TWICE).creds ==
            SAMPLE_USED.creds[Key(Access, "a") := TOKEN_ROW][Key(Access, "b") := TOKEN_ROW]
  {
    hide Step, Exec;
    TwoAccessTokens(OpenOp(TWICE, SAMPLE_USED));
    TwoCalls(SAMPLE_ENV, Start(OpenOp(TWICE, SAMPLE_USED)), TWICE.steps);
  }

  lemma NoPair(t: Shard)
    requires t.creds == SAMPLE_USED.creds[Key(Access, "a") := TOKEN_ROW][Key(Access, "b") := TOKEN_ROW]
    ensures OnePair(SAMPLE_USED) && !OnePair(t)
  {
    assert LiveAccess(t, Key(Access, "a")) && LiveAccess(t, Key(Access, "b"));
  }

  /** From good tables with one pair: the undisciplined exchange commits a second live access token of its grant. */
  lemma UndisciplinedBreaksPair()
    ensures Good(SAMPLE_ENV, SAMPLE_USED) && OnePair(SAMPLE_USED) && Valid(SAMPLE_ENV, SAMPLE_USED, [TWICE])
    ensures !OnePair(After(SAMPLE_ENV, SAMPLE_USED, [TWICE]))
  {
    hide *;
    GrantedIsGood();
    TwiceRun();
    NoPair(Take(SAMPLE_ENV, SAMPLE_USED, TWICE));
    NoHistory(SAMPLE_ENV, SAMPLE_USED);
    OneMore(SAMPLE_ENV, SAMPLE_USED, [], TWICE, SAMPLE_USED);
    assert [] + [TWICE] == [TWICE];
  }

  lemma NoHistory(env: Env, s: Shard)
    ensures Valid(env, s, []) && After(env, s, []) == s
  {
  }
}
