/**
  What well-behaved drivers get. Revocations take effect, replayed families die with one
  event, and exchanges and authorizations that start from rows fit for them end with the
  rows they should leave.
 */
module OAuthFlows {
  import opened Prelude
  import opened RequestCodec
  import opened OAuthTables
  import opened OAuthOperation
  import opened OAuthEffects
  import opened OAuthInvariants
  import opened OAuthRuns
  import opened OAuthSafety
  import opened OAuthHistory
  import opened OAuthCalls
  import opened OAuthAnswers
  import opened OAuthCommits

  // ---- what a call did stays done ------------------------------------------------------

  lemma RevokedFamilyStays(s: Shard, t: Shard, requestId: string)
    requires Grows(s, t) && FamilyRevoked(s, requestId)
    ensures FamilyRevoked(t, requestId)
  {
    assert Dead(s, requestId);
  }

  predicate RollsBack(e: Entry) { e.Ok() && e.call.RollbackSavepoint? }

  lemma StepGrows(env: Env, o: Op, call: Call, fault: bool)
    requires !RollsBack(Entry(call, Step(env, o, call, fault).1))
    ensures Grows(o.tx, Step(env, o, call, fault).0.tx)
  {
    hide Step, Allowed, Apply;
    var e := Classify(env, o, call, fault);
    if e.Back? {
      assert false;
    }
    EffectWithin(env, o, e);
  }

  /** Without a rollback the rows only grow, from any call on. */
  lemma {:induction false} LaterGrows(env: Env, t: Run, steps: Steps, n: nat)
    requires n <= |steps| && forall j :: n <= j < |steps| ==> !RollsBack(LogOf(env, t, steps)[j])
    ensures Grows(Exec(env, t, steps[..n]).op.tx, Exec(env, t, steps).op.tx)
    decreases |steps|
  {
    if n == |steps| {
      assert steps[..n] == steps;
      SameWithin(Exec(env, t, steps).op.tx);
    } else {
      var m := |steps| - 1;
      var before := steps[..m];
      assert before[..n] == steps[..n] && steps[..m + 1] == steps;
      var op := Exec(env, t, before).op;
      LogAt(env, t, steps, m);
      ExecOneMore(env, t, steps, m);
      hide Step, Exec, Grows, RollsBack, LogOf;
      assert forall j :: n <= j < m ==> LogOf(env, t, before)[j] == LogOf(env, t, steps)[j];
      LaterGrows(env, t, before, n);
      StepGrows(env, op, steps[m].0, steps[m].1);
      GrowsTransitive(Exec(env, t, steps[..n]).op.tx, op.tx, Exec(env, t, steps).op.tx);
    }
  }

  // ---- revocation ----------------------------------------------------------------------

  /** The call revoked this family, or this token. */
  predicate Revokes(e: Entry, requestId: string) { e.Ok() && e.call.Revoke? && e.call.requestId == requestId }

  predicate Deletes(e: Entry, key: Key) {
    e.Ok() && ((e.call.DeleteAccess? && key == Key(Access, e.call.signature)) || (e.call.DeleteRefresh? && key == Key(Refresh, e.call.signature)))
  }

  lemma OnlyExchangesReplay(env: Env, s0: Shard, o: Op, steps: Steps)
    requires Begun(o, s0) && Good(env, s0) && !o.ctx.binding.purpose.TokenExchange?
    ensures !Replays(LogOf(env, Start(o), steps))
  {
    OperationInv(env, s0, o, steps);
    InvFlags(env, s0, Exec(env, Start(o), steps));
    RunIsTold(env, s0, o, steps);
    hide Exec, LogOf, RunInv, Replays, Good;
  }

  /**
    A revocation that ends well commits, whoever drives it; and whatever family or token one
    of its calls revoked, without a rollback after it, is revoked in the database.
   */
  lemma RevocationTakesEffect(env: Env, s0: Shard, o: Op, steps: Steps, fault: bool)
    requires Begun(o, s0) && Good(env, s0) && o.ctx.binding.purpose.Revocation?
    ensures
      var f, log := Operate(env, s0, o, steps, NoError, fault), LogOf(env, Start(o), steps);
      && (f.outcome.Committed? <==> Clear(log, fault))
      && forall i :: 0 <= i < |log| && Clear(log, fault) && (forall j :: i < j < |log| ==> !RollsBack(log[j])) ==>
           && (forall requestId :: Revokes(log[i], requestId) ==> FamilyRevoked(f.rows, requestId))
           && (forall key :: Deletes(log[i], key) ==> key in f.rows.creds && f.rows.creds[key].revoked)
  {
    var f, log := Operate(env, s0, o, steps, NoError, fault), LogOf(env, Start(o), steps);
    CommitsExactly(env, s0, o, steps, NoError, fault);
    OnlyExchangesReplay(env, s0, o, steps);
    hide Operate, Exec, Good, LogOf, Clear, Begun, Replays, Handles, Decides, MakesCode, MakesPkce, Tries;
    forall i | 0 <= i < |log| && Clear(log, fault) && forall j :: i < j < |log| ==> !RollsBack(log[j])
      ensures forall requestId :: Revokes(log[i], requestId) ==> FamilyRevoked(f.rows, requestId)
      ensures forall key :: Deletes(log[i], key) ==> key in f.rows.creds && f.rows.creds[key].revoked
    {
      RevokedAtEnd(env, Start(o), steps, i);
    }
  }

  lemma RevokedAtEnd(env: Env, t: Run, steps: Steps, i: nat)
    requires i < |steps| && forall j :: i < j < |steps| ==> !RollsBack(LogOf(env, t, steps)[j])
    ensures var e, rows := LogOf(env, t, steps)[i], Exec(env, t, steps).op.tx;
      && (forall requestId :: Revokes(e, requestId) ==> FamilyRevoked(rows, requestId))
      && (forall key :: Deletes(e, key) ==> key in rows.creds && rows.creds[key].revoked)
  {
    var e, rows := LogOf(env, t, steps)[i], Exec(env, t, steps).op.tx;
    var (call, fault) := steps[i];
    var before := Exec(env, t, steps[..i]).op;
    var after := Step(env, before, call, fault).0.tx;
    LogAt(env, t, steps, i);
    ExecOneMore(env, t, steps, i);
    hide Exec, Step, LogOf, Grows, FamilyRevoked;
    LaterGrows(env, t, steps, i + 1);
    assert Exec(env, t, steps[..i + 1]).op.tx == after;
    forall requestId | Revokes(e, requestId)
      ensures FamilyRevoked(rows, requestId)
    {
      FamilyGoes(env, before, call, fault);
      RevokedFamilyStays(after, rows, requestId);
    }
    forall key | Deletes(e, key)
      ensures key in rows.creds && rows.creds[key].revoked
    {
      TokenRevoked(env, before, call, fault, key);
      RevokedRowStays(after, rows, key);
    }
  }

  lemma RevokedRowStays(s: Shard, t: Shard, key: Key)
    requires Grows(s, t) && key in s.creds && s.creds[key].revoked
    ensures key in t.creds && t.creds[key].revoked
  {
  }

  // ---- one call after the other ----------------------------------------------------------

  /** The states an operation goes through. */
  predicate Passes(env: Env, steps: Steps, ops: seq<Op>) {
    && |ops| == |steps| + 1
    && forall i :: 0 <= i < |steps| ==> Step(env, ops[i], steps[i].0, steps[i].1).0 == ops[i + 1]
  }

  lemma {:induction false} PassesThrough(env: Env, steps: Steps, ops: seq<Op>)
    requires Passes(env, steps, ops)
    ensures Exec(env, Start(ops[0]), steps).op == ops[|steps|]
    ensures forall i :: 0 <= i < |steps| ==>
      LogOf(env, Start(ops[0]), steps)[i] == Entry(steps[i].0, Step(env, ops[i], steps[i].0, steps[i].1).1)
    decreases |steps|
  {
    hide Step, Keep;
    if steps != [] {
      var m := |steps| - 1;
      PassesThrough(env, steps[..m], ops[..m + 1]);
      ExecOneMore(env, Start(ops[0]), steps, m);
      assert steps[..m + 1] == steps;
      hide Exec;
    }
  }

  /** A log of calls that all succeeded, with no savepoint among them. */
  predicate Smooth(log: Log) {
    forall i :: 0 <= i < |log| ==> log[i].Ok() && !log[i].call.BeginSavepoint? && !log[i].call.RollbackSavepoint?
  }

  lemma SmoothIsClear(log: Log)
    requires Smooth(log)
    ensures Clear(log, false) && !Replays(log)
  {
  }

  // ---- a revocation request --------------------------------------------------------------

  function ReadOf(key: Key): Call {
    match key.kind
    case Code => GetCode(key.signature, None)
    case Pkce => GetPkce(key.signature, None)
    case Access => GetAccess(key.signature, None)
    case Refresh => GetRefresh(key.signature, None)
  }

  /** A live token of the client's, presented and proved. */
  predicate Revocable(env: Env, o: Op, key: Key) {
    && (key.kind.Access? || key.kind.Refresh?) && o.ctx.kind.AccessOrRefresh?
    && Held(env, o, key) && Live(o.tx.creds[key]) && Presents(env, o, key, None)
  }

  lemma RevocableIsRead(env: Env, o: Op, key: Key)
    requires Good(env, o.tx) && Revocable(env, o, key)
    ensures Step(env, o, ReadOf(key), false).0 == o && Step(env, o, ReadOf(key), false).1.err == NoError
  {
    hide Good, Held, Presents, Step;
    assert key == Key(key.kind, key.signature);
    if key.kind.Access? {
      GetAccessAnswer(env, o, key.signature, None);
    } else {
      GetRefreshAnswer(env, o, key.signature, None);
    }
  }

  /** Reading the token and revoking its family ends with the family revoked in the database. */
  lemma PresentedFamilyIsRevoked(env: Env, s0: Shard, o: Op, key: Key)
    requires Begun(o, s0) && Good(env, s0) && o.ctx.binding.purpose.Revocation? && Revocable(env, o, key)
    ensures
      var requestId := s0.creds[key].requestId;
      var f := Operate(env, s0, o, InTurn([ReadOf(key), Revoke(requestId)]), NoError, false);
      f.outcome.Committed? && FamilyRevoked(f.rows, requestId)
  {
    BegunIsOpened(o, s0);
    hide *;
    var requestId := o.tx.creds[key].requestId;
    var steps := InTurn([ReadOf(key), Revoke(requestId)]);
    var log := LogOf(env, Start(o), steps);
    RevocableIsRead(env, o, key);
    RevocableCanGo(env, o, key);
    ReadIsNoSavepoint(key);
    TwoCalls(env, o, ReadOf(key), Revoke(requestId), o);
    TwoSmooth(log);
    RevokesIs(log[1], requestId);
    LastRevokes(env, s0, o, steps, requestId);
  }

  lemma TwoSmooth(log: Log)
    requires |log| == 2 && forall i :: 0 <= i < 2 ==> log[i].answer.err == NoError && !log[i].call.BeginSavepoint? && !log[i].call.RollbackSavepoint?
    ensures Smooth(log)
  {
  }

  lemma RevokesIs(e: Entry, requestId: string)
    requires e.call == Revoke(requestId) && e.answer.err == NoError
    ensures Revokes(e, requestId)
  {
  }

  /** A smooth revocation whose last call revoked a family. */
  lemma LastRevokes(env: Env, s0: Shard, o: Op, steps: Steps, requestId: string)
    requires Begun(o, s0) && Good(env, s0) && o.ctx.binding.purpose.Revocation? && steps != []
    requires Smooth(LogOf(env, Start(o), steps)) && Revokes(LogOf(env, Start(o), steps)[|steps| - 1], requestId)
    ensures
      var f := Operate(env, s0, o, steps, NoError, false);
      f.outcome.Committed? && FamilyRevoked(f.rows, requestId)
  {
    hide Operate, Exec, Good, LogOf, FamilyRevoked, Begun;
    SmoothIsClear(LogOf(env, Start(o), steps));
    hide Clear, Smooth;
    RevocationTakesEffect(env, s0, o, steps, false);
  }

  /** These calls, one after the other, without a fault. */
  function InTurn(calls: seq<Call>): (steps: Steps)
    ensures |steps| == |calls| && forall i :: 0 <= i < |calls| ==> steps[i] == (calls[i], false)
  {
    seq(|calls|, i requires 0 <= i < |calls| => (calls[i], false))
  }

  lemma TwoCalls(env: Env, o: Op, first: Call, second: Call, mid: Op)
    requires Step(env, o, first, false).0 == mid
    ensures
      var steps := InTurn([first, second]);
      && LogOf(env, Start(o), steps)[0] == Entry(first, Step(env, o, first, false).1)
      && LogOf(env, Start(o), steps)[1] == Entry(second, Step(env, mid, second, false).1)
      && Exec(env, Start(o), steps).op == Step(env, mid, second, false).0
  {
    hide Step, Exec;
    PassesThrough(env, InTurn([first, second]), [o, mid, Step(env, mid, second, false).0]);
    hide LogOf;
  }

  lemma RevocableCanGo(env: Env, o: Op, key: Key)
    requires Good(env, o.tx) && Revocable(env, o, key) && o.ctx.binding.purpose.Revocation? && o.flags.replay.None?
    ensures Held(env, o, key)
    ensures key in o.tx.creds && Step(env, o, Revoke(o.tx.creds[key].requestId), false).1.err == NoError
  {
    hide Step, Good, Presents;
    RevokeIff(env, o, o.tx.creds[key].requestId);
  }

  lemma ReadIsNoSavepoint(key: Key)
    ensures !ReadOf(key).BeginSavepoint? && !ReadOf(key).RollbackSavepoint?
  {
  }

  /** Deleting the token alone ends with just that row revoked. */
  lemma PresentedTokenIsRevoked(env: Env, s0: Shard, o: Op, key: Key)
    requires Begun(o, s0) && Good(env, s0) && o.ctx.binding.purpose.Revocation? && Revocable(env, o, key)
    ensures
      var f := Operate(env, s0, o, InTurn([ReadOf(key), DeleteOf(key)]), NoError, false);
      f.outcome.Committed? && f.rows == s0.(creds := s0.creds[key := Revoked(s0.creds[key])])
  {
    var steps := InTurn([ReadOf(key), DeleteOf(key)]);
    hide *;
    BegunIsOpened(o, s0);
    RevocableIsRead(env, o, key);
    RevocableCanBeDeleted(env, o, key);
    ReadIsNoSavepoint(key);
    TwoCalls(env, o, ReadOf(key), DeleteOf(key), o);
    TwoSmooth(LogOf(env, Start(o), steps));
    SmoothCommits(env, s0, o, steps);
  }

  function DeleteOf(key: Key): Call { if key.kind.Access? then DeleteAccess(key.signature) else DeleteRefresh(key.signature) }

  lemma RevocableCanBeDeleted(env: Env, o: Op, key: Key)
    requires Good(env, o.tx) && Revocable(env, o, key) && o.ctx.binding.purpose.Revocation?
    ensures key in o.tx.creds && !DeleteOf(key).BeginSavepoint? && !DeleteOf(key).RollbackSavepoint?
    ensures
      var step := Step(env, o, DeleteOf(key), false);
      step.1.err == NoError && step.0.tx == o.tx.(creds := o.tx.creds[key := Revoked(o.tx.creds[key])])
  {
    hide Step, Good, Presents;
    assert key == Key(key.kind, key.signature);
    DeleteIff(env, o, DeleteOf(key), key);
    TokenRevoked(env, o, DeleteOf(key), false, key);
  }

  /** Calls that all succeed, of a purpose other than authorization, are committed. */
  lemma SmoothCommits(env: Env, s0: Shard, o: Op, steps: Steps)
    requires Begun(o, s0) && !o.ctx.binding.purpose.Authorize? && Smooth(LogOf(env, Start(o), steps))
    ensures
      var f := Operate(env, s0, o, steps, NoError, false);
      f.outcome.Committed? && f.rows == Exec(env, Start(o), steps).op.tx
  {
    SmoothIsClear(LogOf(env, Start(o), steps));
    hide Operate, Exec, LogOf, Begun, Clear, Smooth, Replays;
    CommitsExactly(env, s0, o, steps, NoError, false);
  }

  // ---- a replay --------------------------------------------------------------------------

  /** A used code or refresh token, presented again and proved, whose grant still serves the client. */
  predicate Replayable(env: Env, o: Op, key: Key) {
    && o.ctx.binding.purpose.TokenExchange?
    && ((key.kind.Code? && o.ctx.kind.CodeCredential?) || (key.kind.Refresh? && o.ctx.kind.RefreshCredential?))
    && Held(env, o, key) && o.tx.creds[key].consumed && Presents(env, o, key, None)
  }

  function ReplayOf(o: Op, key: Key): Replay
    requires key in o.tx.creds
  {
    Replay(o.tx.creds[key].requestId, if key.kind.Code? then CodeReplay else RefreshReplay)
  }

  lemma ReplayIsRead(env: Env, o: Op, key: Key)
    requires Good(env, o.tx) && Replayable(env, o, key)
    ensures key in o.tx.creds
    ensures
      var (next, answer) := Step(env, o, ReadOf(key), false);
      && next == o.(flags := o.flags.(replay := Some(ReplayOf(o, key))))
      && Entry(ReadOf(key), answer).Replays() && answer.err != StorageFailure && !Entry(ReadOf(key), answer).Tries()
  {
    hide Good, Presents, Step;
    assert key == Key(key.kind, key.signature);
    if key.kind.Code? {
      GetCodeAnswer(env, o, key.signature, None);
    } else {
      GetRefreshAnswer(env, o, key.signature, None);
    }
  }

  lemma ReplayedCanGo(env: Env, o: Op, key: Key)
    requires Replayable(env, o, key)
    ensures key in o.tx.creds
    ensures
      var noted := o.(flags := o.flags.(replay := Some(ReplayOf(o, key))));
      var (next, answer) := Step(env, noted, Revoke(o.tx.creds[key].requestId), false);
      answer.err == NoError && next.flags.replay == Some(ReplayOf(o, key))
  {
    hide Step, Presents, Detects;
    var noted := o.(flags := o.flags.(replay := Some(ReplayOf(o, key))));
    RevokeIff(env, noted, o.tx.creds[key].requestId);
    StepFlags(env, noted, Revoke(o.tx.creds[key].requestId), false);
  }

  lemma ReplayLog(log: Log)
    requires |log| == 2 && log[0].Replays() && log[0].answer.err != StorageFailure && !log[0].Tries()
    requires log[1].call.Revoke? && log[1].answer.err == NoError
    ensures Clear(log, false) && Handles(log) && !Tries(log)
  {
  }

  /**
    The replay of a used code or refresh token is detected, and ends with its family
    revoked and one event of its kind, whatever else the family held.
   */
  lemma ReplayedFamilyDies(env: Env, s0: Shard, o: Op, key: Key)
    requires Begun(o, s0) && Good(env, s0) && Replayable(env, o, key)
    ensures
      var f := Operate(env, s0, o, InTurn([ReadOf(key), Revoke(s0.creds[key].requestId)]), InvalidGrant, false);
      f.outcome.ReplayCommitted? && ReplayHandled(s0, f.rows, ReplayOf(o, key))
  {
    var requestId := s0.creds[key].requestId;
    var steps := InTurn([ReadOf(key), Revoke(requestId)]);
    var noted := o.(flags := o.flags.(replay := Some(ReplayOf(o, key))));
    hide *;
    ReplayIsRead(env, o, key);
    ReplayedCanGo(env, o, key);
    ReadIsNoSavepoint(key);
    TwoCalls(env, o, ReadOf(key), Revoke(requestId), noted);
    ReplayLog(LogOf(env, Start(o), steps));
    CommitsExactly(env, s0, o, steps, InvalidGrant, false);
    BegunIsOpened(o, s0);
    ReplayEndings(env, s0, o, steps, InvalidGrant, false);
    ReplayRollsNothingBack(key, requestId);
    NoRollback(env, Start(o), steps);
  }

  lemma ReplayRollsNothingBack(key: Key, requestId: string)
    ensures RollbackFree(InTurn([ReadOf(key), Revoke(requestId)]))
  {
  }

  lemma BegunIsOpened(o: Op, s0: Shard)
    requires Begun(o, s0)
    ensures Opened(o, s0) && o.tx == s0 && o.flags.replay.None?
  {
  }
}
