/**
  Three concrete drivers of the modelled store. `Rollback` of a savepoint takes the
  rows back but not the flags, so a driver that goes on after it can commit an
  approval without a code, or a replay without its security event. And nothing
  ties a PKCE row to the code of its own operation, so a driver that names two
  requests can commit a code without one.
 */
module OAuthCounterexamples {
  import opened Prelude
  import opened RequestCodec
  import opened OAuthTables
  import opened OAuthOperation
  import opened OAuthEffects
  import opened OAuthInvariants
  import opened OAuthRuns
  import opened OAuthSafety

  const SAMPLE_ENV := Env(
    Registry("r", map["c" := Client({})]),
    Strategy(s => s, s => s, s => s, (r, s) => true, (r, s) => true, (r, s) => true))

  const SAMPLE_REQUEST := Request(
    "g", 1, "c", [SCOPE], [], ["r"], [], map[],
    Session(map[AuthorizeCode := 5000], "1", "", {}, 1, 1, "r"))

  const SAMPLE_EMPTY := Shard(
    1, true, 1, map[], map[], [],
    map["w" := WebSession(1, 100, false)], map["h" := Consent("x", 100, "w", false)])

  const SAMPLE_ROW := Credential("g", Snapshot(SAMPLE_REQUEST), 5, None, false, false)

  // The code row of grant "g", already exchanged.
  const SAMPLE_USED := SAMPLE_EMPTY.(
    grants := map["g" := Grant(1, "c", "r", None, 5)],
    creds := map[Key(Code, "k") := SAMPLE_ROW.(consumed := true)])

  const SAMPLE_GRANTED := SAMPLE_EMPTY.(
    grants := map["g" := Grant(1, "c", "r", None, 5)],
    creds := map[Key(Code, "k") := SAMPLE_ROW])

  const SAMPLE_SPENT := map["h" := Consent("x", 100, "w", true)]

  const OTHER_REQUEST := SAMPLE_REQUEST.(id := "n")

  const APPROVER := Context(Binding(Authorize, "c", "r", 1), NoCredential, "", 1)
  const EXCHANGER := Context(Binding(TokenExchange, "c", "r", 0), CodeCredential, "k", 0)

  lemma SampleEncodes()
    ensures Encode(SAMPLE_ENV.registry, SAMPLE_REQUEST) == Some(Snapshot(SAMPLE_REQUEST))
  {
    assert 'g' in SAMPLE_REQUEST.id && 'c' in SAMPLE_REQUEST.clientId;
    assert FormatInt(1) == "1";
    assert FilterStoredForm(SAMPLE_REQUEST.form) == map[];
  }

  lemma OtherEncodes()
    ensures Encode(SAMPLE_ENV.registry, OTHER_REQUEST) == Some(Snapshot(OTHER_REQUEST))
  {
    assert 'n' in OTHER_REQUEST.id && 'c' in OTHER_REQUEST.clientId;
    assert FormatInt(1) == "1";
    assert FilterStoredForm(OTHER_REQUEST.form) == map[];
  }

  lemma ConsentStep(o: Op)
    requires o.ctx == APPROVER && (o.tx == SAMPLE_EMPTY || o.tx == SAMPLE_GRANTED)
    ensures StepConsumeConsent(o, "h", "w", 1, Approve, false) ==
            Done(o.(tx := o.tx.(consents := SAMPLE_SPENT), flags := o.flags.(decision := Some(Approve))))
  {
    assert map["h" := Consent("x", 100, "w", false)]["h" := Consent("x", 100, "w", true)] == SAMPLE_SPENT;
  }

  // ---- an approval without its code --------------------------------------------

  lemma CodeStep(o: Op)
    requires o.ctx == APPROVER && o.tx == SAMPLE_EMPTY.(consents := SAMPLE_SPENT)
    ensures StepCreateCode(SAMPLE_ENV, o, "k", SAMPLE_REQUEST, 0, false) ==
            Done(o.(tx := SAMPLE_GRANTED.(consents := SAMPLE_SPENT),
                    flags := o.flags.(issuanceAttempted := true, codeCreated := true)))
  {
    SampleEncodes();
    hide Encode;
  }

  lemma PkceStep(o: Op)
    requires o.ctx == APPROVER && o.tx.active && o.tx.epoch == 1 && o.tx.accountId == 1
    requires "g" in o.tx.grants && o.tx.grants["g"] == Grant(1, "c", "r", None, 5) && Key(Pkce, "p") !in o.tx.creds
    ensures StepCreatePkce(SAMPLE_ENV, o, "p", SAMPLE_REQUEST, 0, false).1.err == NoError
    ensures StepCreatePkce(SAMPLE_ENV, o, "p", SAMPLE_REQUEST, 0, false).0.flags ==
            o.flags.(issuanceAttempted := true, pkceCreated := true)
  {
    SampleEncodes();
    hide Encode;
  }

  const LOSING_APPROVAL := [
    (ConsumeConsent("h", "w", 1, Approve), false), (BeginSavepoint, false),
    (CreateCode("k", SAMPLE_REQUEST, 0), false), (CreatePkce("p", SAMPLE_REQUEST, 0), false),
    (RollbackSavepoint, false)]

  /** From good tables: commits, consumes the consent and leaves neither grant nor code behind. */
  lemma SavepointLosesApproval(o: Op)
    requires Opened(o, SAMPLE_EMPTY) && o.savepoint.None? && o.ctx == APPROVER && !o.flags.storageFailed
    ensures Good(SAMPLE_ENV, SAMPLE_EMPTY)
    ensures var f := Operate(SAMPLE_ENV, SAMPLE_EMPTY, o, LOSING_APPROVAL, NoError, false);
      f.outcome.Committed? && Spent(SAMPLE_EMPTY, f.rows, "h") && f.rows.creds == map[] && f.rows.grants == map[]
  {
    LosingRun(o);
    hide Exec;
  }

  lemma LosingRun(o: Op)
    requires Opened(o, SAMPLE_EMPTY) && o.savepoint.None? && o.ctx == APPROVER && !o.flags.storageFailed
    ensures var op := Exec(SAMPLE_ENV, Start(o), LOSING_APPROVAL).op;
      && op.tx == SAMPLE_EMPTY.(consents := SAMPLE_SPENT) && op.savepoint.None? && op.ctx == APPROVER
      && op.flags == o.flags.(issuanceAttempted := true, codeCreated := true, pkceCreated := true, decision := Some(Approve))
  {
    var s, o1 := LOSING_APPROVAL, Step(SAMPLE_ENV, o, LOSING_APPROVAL[0].0, false).0;
    var o3 := CodeSaved(o1);
    hide StepCreateCode, StepCreatePkce, StepConsumeConsent, Advance, Exec;
    ConsentStep(o);
    CodeIsSaved(o1);
    CodeIsLost(o3);
    hide Step, CodeSaved;
    FiveSteps(SAMPLE_ENV, Start(o), s);
  }

  /** What the savepoint, the code and the PKCE row leave behind. */
  function CodeSaved(o: Op): Op {
    Step(SAMPLE_ENV, Step(SAMPLE_ENV, o, BeginSavepoint, false).0, CreateCode("k", SAMPLE_REQUEST, 0), false).0
  }

  lemma CodeIsSaved(o: Op)
    requires o.ctx == APPROVER && o.tx == SAMPLE_EMPTY.(consents := SAMPLE_SPENT) && o.savepoint.None?
    ensures CodeSaved(o) == o.(savepoint := Some(o.tx), tx := SAMPLE_GRANTED.(consents := SAMPLE_SPENT),
                               flags := o.flags.(issuanceAttempted := true, codeCreated := true))
  {
    hide StepCreateCode;
    CodeStep(o.(savepoint := Some(o.tx)));
  }

  lemma CodeIsLost(o: Op)
    requires o.ctx == APPROVER && o.tx == SAMPLE_GRANTED.(consents := SAMPLE_SPENT) && o.savepoint.Some?
    ensures Step(SAMPLE_ENV, Step(SAMPLE_ENV, o, CreatePkce("p", SAMPLE_REQUEST, 0), false).0, RollbackSavepoint, false).0 ==
            o.(savepoint := None, tx := o.savepoint.value,
               flags := o.flags.(issuanceAttempted := true, pkceCreated := true))
  {
    hide StepCreatePkce;
    PkceStep(o);
    PkceFrame(o);
  }

  lemma PkceFrame(o: Op)
    ensures var o' := StepCreatePkce(SAMPLE_ENV, o, "p", SAMPLE_REQUEST, 0, false).0;
      o'.ctx == o.ctx && o'.savepoint == o.savepoint
  {
  }

  lemma FiveSteps(env: Env, t: Run, steps: Steps)
    requires |steps| == 5
    ensures Exec(env, t, steps).op ==
            Step(env, Step(env, Step(env, Step(env, Step(env, t.op,
              steps[0].0, steps[0].1).0, steps[1].0, steps[1].1).0, steps[2].0, steps[2].1).0,
              steps[3].0, steps[3].1).0, steps[4].0, steps[4].1).0
  {
    hide Step, Keep;
    var t1 := Advance(env, t, steps[0].0, steps[0].1);
    var t2 := Advance(env, t1, steps[1].0, steps[1].1);
    hide Exec;
    TwoSteps(env, t, steps);
    ThreeSteps(env, t2, steps[2..]);
    assert steps[2..][0] == steps[2] && steps[2..][1] == steps[3] && steps[2..][2] == steps[4];
  }

  lemma TwoSteps(env: Env, t: Run, steps: Steps)
    requires |steps| >= 2
    ensures Exec(env, t, steps) ==
            Exec(env, Advance(env, Advance(env, t, steps[0].0, steps[0].1), steps[1].0, steps[1].1), steps[2..])
  {
    hide Advance;
    var t1 := Advance(env, t, steps[0].0, steps[0].1);
    var t2 := Advance(env, t1, steps[1].0, steps[1].1);
    assert Exec(env, t1, steps[1..]) == Exec(env, t2, steps[1..][1..]) && steps[1..][1..] == steps[2..];
  }

  // ---- a code without its PKCE row -----------------------------------------------

  lemma OtherCodeStep(o: Op)
    requires o.ctx == APPROVER && o.tx == SAMPLE_GRANTED.(consents := SAMPLE_SPENT)
    ensures StepCreateCode(SAMPLE_ENV, o, "k2", OTHER_REQUEST, 0, false).1.err == NoError
    ensures StepCreateCode(SAMPLE_ENV, o, "k2", OTHER_REQUEST, 0, false).0.flags ==
            o.flags.(issuanceAttempted := true, codeCreated := true)
    ensures StepCreateCode(SAMPLE_ENV, o, "k2", OTHER_REQUEST, 0, false).0.ctx == o.ctx
    ensures StepCreateCode(SAMPLE_ENV, o, "k2", OTHER_REQUEST, 0, false).0.savepoint == o.savepoint
    ensures var tx := StepCreateCode(SAMPLE_ENV, o, "k2", OTHER_REQUEST, 0, false).0.tx;
      && tx.active && tx.epoch == 1 && tx.accountId == 1 && Key(Pkce, "p") !in tx.creds
      && "g" in tx.grants && tx.grants["g"] == Grant(1, "c", "r", None, 5)
  {
    OtherEncodes();
    hide Encode;
  }

  const SPLIT_APPROVAL := [
    (ConsumeConsent("h", "w", 1, Approve), false), (CreateCode("k2", OTHER_REQUEST, 0), false),
    (CreatePkce("p", SAMPLE_REQUEST, 0), false)]

  /** From good tables, with no savepoint at all: commits a new code whose request has no PKCE row. */
  lemma TwoRequestsSplitApproval(o: Op)
    requires Opened(o, SAMPLE_GRANTED) && o.savepoint.None? && o.ctx == APPROVER && !o.flags.storageFailed
    ensures Good(SAMPLE_ENV, SAMPLE_GRANTED)
    ensures var f := Operate(SAMPLE_ENV, SAMPLE_GRANTED, o, SPLIT_APPROVAL, NoError, false);
      f.outcome.Committed? && !Approved(SAMPLE_GRANTED, f.rows)
    ensures !Exec(SAMPLE_ENV, Start(o), SPLIT_APPROVAL).rolledBack
  {
    GrantedIsGood();
    SplitRun(o);
    AuthorizeEndings(SAMPLE_ENV, SAMPLE_GRANTED, o, SPLIT_APPROVAL, NoError, false);
    hide Exec, Approved, Good;
  }

  lemma SplitConsent(t: Run)
    requires t.op.ctx == APPROVER && t.op.tx == SAMPLE_GRANTED
    ensures var next := Advance(SAMPLE_ENV, t, ConsumeConsent("h", "w", 1, Approve), false);
      && next.op == t.op.(tx := t.op.tx.(consents := SAMPLE_SPENT), flags := t.op.flags.(decision := Some(Approve)))
      && next.kept == t.kept.(spent := t.kept.spent + {"h"}) && next.rolledBack == t.rolledBack
  {
    hide StepConsumeConsent;
    ConsentStep(t.op);
  }

  lemma SplitCode(t: Run)
    requires t.op.ctx == APPROVER && t.op.tx == SAMPLE_GRANTED.(consents := SAMPLE_SPENT)
    ensures var next := Advance(SAMPLE_ENV, t, CreateCode("k2", OTHER_REQUEST, 0), false);
      && next.op == StepCreateCode(SAMPLE_ENV, t.op, "k2", OTHER_REQUEST, 0, false).0
      && next.kept == t.kept.(codes := t.kept.codes["k2" := "n"]) && next.rolledBack == t.rolledBack
  {
    hide StepCreateCode;
    OtherCodeStep(t.op);
  }

  lemma SplitPkce(t: Run)
    requires t.op.ctx == APPROVER && t.op.tx.active && t.op.tx.epoch == 1 && t.op.tx.accountId == 1
    requires "g" in t.op.tx.grants && t.op.tx.grants["g"] == Grant(1, "c", "r", None, 5) && Key(Pkce, "p") !in t.op.tx.creds
    ensures var next := Advance(SAMPLE_ENV, t, CreatePkce("p", SAMPLE_REQUEST, 0), false);
      && next.op.flags == t.op.flags.(issuanceAttempted := true, pkceCreated := true)
      && next.op.ctx == t.op.ctx && next.op.savepoint == t.op.savepoint
      && next.kept == t.kept.(pkces := t.kept.pkces["p" := "g"]) && next.rolledBack == t.rolledBack
  {
    hide StepCreatePkce;
    PkceStep(t.op);
    PkceFrame(t.op);
  }

  lemma SplitRun(o: Op)
    requires Opened(o, SAMPLE_GRANTED) && o.savepoint.None? && o.ctx == APPROVER && !o.flags.storageFailed
    ensures var t := Exec(SAMPLE_ENV, Start(o), SPLIT_APPROVAL);
      && !t.rolledBack && !PairKept(t.kept) && Finish(t.op, SAMPLE_GRANTED, NoError, false).outcome.Committed?
  {
    hide StepCreateCode, Exec, Advance;
    var s := SPLIT_APPROVAL;
    SplitConsent(Start(o));
    var t1 := Advance(SAMPLE_ENV, Start(o), s[0].0, false);
    OtherCodeStep(t1.op);
    SplitCode(t1);
    var t2 := Advance(SAMPLE_ENV, t1, s[1].0, false);
    SplitPkce(t2);
    var t3 := Advance(SAMPLE_ENV, t2, s[2].0, false);
    assert t3.kept.codes == map["k2" := "n"] && t3.kept.pkces == map["p" := "g"];
    ThreeSteps(SAMPLE_ENV, Start(o), s);
  }

  lemma ThreeSteps(env: Env, t: Run, steps: Steps)
    requires |steps| == 3
    ensures Exec(env, t, steps) ==
            Advance(env, Advance(env, Advance(env, t,
              steps[0].0, steps[0].1), steps[1].0, steps[1].1), steps[2].0, steps[2].1)
  {
    TwoSteps(env, t, steps);
    hide Advance;
    var t2 := Advance(env, Advance(env, t, steps[0].0, steps[0].1), steps[1].0, steps[1].1);
    assert Exec(env, t2, steps[2..]) == Exec(env, Advance(env, t2, steps[2].0, steps[2].1), steps[2..][1..]);
  }

  lemma GrantedIsGood()
    ensures Good(SAMPLE_ENV, SAMPLE_GRANTED) && Good(SAMPLE_ENV, SAMPLE_USED)
  {
    SampleEncodes();
  }

  // ---- a replay without its event ------------------------------------------------

  lemma DetectStep(o: Op)
    requires o.ctx == EXCHANGER && o.tx == SAMPLE_USED
    ensures var (o', answer) := StepGetCode(SAMPLE_ENV, o, "k", None, false);
      answer.err == InvalidatedCode && o' == o.(flags := o.flags.(replay := Some(Replay("g", CodeReplay))))
  {
    SampleEncodes();
    assert Decode(SAMPLE_ENV.registry, Snapshot(SAMPLE_REQUEST), None) == Some(SAMPLE_REQUEST);
    hide Decode;
  }

  lemma RevokeStep(o: Op)
    requires o.ctx == EXCHANGER && o.tx == SAMPLE_USED && o.flags.replay == Some(Replay("g", CodeReplay))
    ensures var (o', answer) := StepRevoke(SAMPLE_ENV, o, "g", false);
      && answer.err == NoError && o'.ctx == o.ctx && o'.savepoint == o.savepoint
      && o'.flags == o.flags.(replayComplete := true)
      && (o.flags.replayComplete ==> FamilyRevoked(o'.tx, "g") && o'.tx.events == [])
  {
  }

  const LOSING_EVENT := [
    (GetCode("k", None), false), (BeginSavepoint, false), (Revoke("g"), false),
    (RollbackSavepoint, false), (Revoke("g"), false)]

  /** From good tables: commits the revocation of the replayed family, but records no event. */
  lemma SavepointLosesEvent(o: Op)
    requires Opened(o, SAMPLE_USED) && o.savepoint.None? && o.ctx == EXCHANGER && !o.flags.storageFailed && !o.flags.issuanceAttempted
    ensures Good(SAMPLE_ENV, SAMPLE_USED)
    ensures var f := Operate(SAMPLE_ENV, SAMPLE_USED, o, LOSING_EVENT, InvalidGrant, false);
      f.outcome.ReplayCommitted? && FamilyRevoked(f.rows, "g") && f.rows.events == []
  {
    hide Exec, Good, FamilyRevoked, Start;
    GrantedIsGood();
    LosingEventRun(o);
  }

  lemma LosingEventRun(o: Op)
    requires o.tx == SAMPLE_USED && o.savepoint.None? && o.ctx == EXCHANGER
    ensures var op := Exec(SAMPLE_ENV, Start(o), LOSING_EVENT).op;
      && op.ctx == EXCHANGER && op.savepoint.None? && FamilyRevoked(op.tx, "g") && op.tx.events == []
      && op.flags == o.flags.(replay := Some(Replay("g", CodeReplay)), replayComplete := true)
  {
    hide StepGetCode, StepRevoke, FamilyRevoked, Exec;
    var s, o1 := LOSING_EVENT, Step(SAMPLE_ENV, o, LOSING_EVENT[0].0, false).0;
    DetectStep(o);
    assert s[1].0 == BeginSavepoint && s[2].0 == s[4].0 == Revoke("g") && s[3].0 == RollbackSavepoint;
    hide Step;
    EventIsLost(o1);
    LostIsRevoked(o1.(flags := o1.flags.(replayComplete := true)));
    FiveSteps(SAMPLE_ENV, Start(o), s);
  }

  lemma LostIsRevoked(o: Op)
    requires o.ctx == EXCHANGER && o.tx == SAMPLE_USED && o.savepoint.None?
    requires o.flags.replay == Some(Replay("g", CodeReplay)) && o.flags.replayComplete
    ensures var op := Step(SAMPLE_ENV, o, Revoke("g"), false).0;
      op.ctx == o.ctx && op.savepoint.None? && FamilyRevoked(op.tx, "g") && op.tx.events == [] && op.flags == o.flags
  {
    hide StepRevoke, FamilyRevoked;
    RevokeStep(o);
  }

  /** A revocation that is rolled back to its savepoint leaves only its flag. */
  lemma EventIsLost(o: Op)
    requires o.ctx == EXCHANGER && o.tx == SAMPLE_USED && o.savepoint.None?
    requires o.flags.replay == Some(Replay("g", CodeReplay))
    ensures var revoked := Step(SAMPLE_ENV, Step(SAMPLE_ENV, o, BeginSavepoint, false).0, Revoke("g"), false).0;
      Step(SAMPLE_ENV, revoked, RollbackSavepoint, false).0 == o.(flags := o.flags.(replayComplete := true))
  {
    hide StepRevoke;
    RevokeStep(o.(savepoint := Some(o.tx)));
  }
}
