/**
  When an operation commits, told from outside: by its log, that is the calls it
  got and the answers it gave, and by the protocol error and the fault of its end.
  No flag is mentioned.
 */
module OAuthCommits {
  import opened Prelude
  import opened RequestCodec
  import opened OAuthTables
  import opened OAuthOperation
  import opened OAuthEffects
  import opened OAuthInvariants
  import opened OAuthRuns
  import opened OAuthSafety
  import opened OAuthAnswers

  // ---- the log -----------------------------------------------------------------------

  datatype Entry = Entry(call: Call, answer: Answer) {
    predicate Ok() { answer.err == NoError }

    /** A credential was asked for in an operation that may issue it, with or without success. */
    predicate Tries() { Creates(call) && answer.err != OperationRequired }

    /** The read found the credential used: its request comes with an error. */
    predicate Replays() { (call.GetCode? || call.GetRefresh?) && answer.request.Some? && answer.err != NoError }

    predicate Closes() { Ok() && (call.CommitSavepoint? || call.RollbackSavepoint?) }
  }

  type Log = seq<Entry>

  function LogOf(env: Env, t: Run, steps: Steps): (log: Log)
    ensures |log| == |steps| && forall i :: 0 <= i < |log| ==> log[i].call == steps[i].0
  {
    if steps == [] then [] else
      var before, (call, fault) := steps[..|steps| - 1], steps[|steps| - 1];
      LogOf(env, t, before) + [Entry(call, Step(env, Exec(env, t, before).op, call, fault).1)]
  }

  lemma {:induction false} LogAt(env: Env, t: Run, steps: Steps, n: nat)
    requires n < |steps|
    ensures LogOf(env, t, steps)[..n] == LogOf(env, t, steps[..n])
    ensures LogOf(env, t, steps)[n] ==
            Entry(steps[n].0, Step(env, Exec(env, t, steps[..n]).op, steps[n].0, steps[n].1).1)
    decreases |steps|
  {
    hide Step, Exec;
    var m := |steps| - 1;
    if n < m {
      assert steps[..m][..n] == steps[..n];
      LogAt(env, t, steps[..m], n);
      assert LogOf(env, t, steps)[..m][..n] == LogOf(env, t, steps)[..n];
    }
  }

  /** Some call failed in storage. */
  predicate Fails(log: Log) { exists i :: 0 <= i < |log| && log[i].answer.err == StorageFailure }

  predicate Tries(log: Log) { exists i :: 0 <= i < |log| && log[i].Tries() }

  predicate MakesCode(log: Log) { exists i :: 0 <= i < |log| && log[i].Ok() && log[i].call.CreateCode? }

  predicate MakesPkce(log: Log) { exists i :: 0 <= i < |log| && log[i].Ok() && log[i].call.CreatePkce? }

  predicate Replays(log: Log) { exists i :: 0 <= i < |log| && log[i].Replays() }

  /** A family was revoked after a replay had come up. */
  predicate Handles(log: Log) {
    exists i, j :: 0 <= i < j < |log| && log[i].Replays() && log[j].Ok() && log[j].call.Revoke?
  }

  predicate ConsumesAt(log: Log, i: int) { 0 <= i < |log| && log[i].Ok() && log[i].call.ConsumeConsent? }

  /** The last consumed consent was consumed with this decision. */
  ghost predicate Decides(log: Log, decision: Decision) {
    exists i :: ConsumesAt(log, i) && log[i].call.decision == decision && forall j :: i < j ==> !ConsumesAt(log, j)
  }

  /** A savepoint was begun, and neither committed nor rolled back since. */
  predicate LeavesOpen(log: Log) {
    exists i :: 0 <= i < |log| && log[i].Ok() && log[i].call.BeginSavepoint?
      && forall j :: i < j < |log| ==> !log[j].Closes()
  }

  // ---- one entry more ------------------------------------------------------------------

  lemma OneEntryMore(log: Log, e: Entry)
    ensures Fails(log + [e]) <==> Fails(log) || e.answer.err == StorageFailure
    ensures Tries(log + [e]) <==> Tries(log) || e.Tries()
    ensures MakesCode(log + [e]) <==> MakesCode(log) || (e.Ok() && e.call.CreateCode?)
    ensures MakesPkce(log + [e]) <==> MakesPkce(log) || (e.Ok() && e.call.CreatePkce?)
    ensures Replays(log + [e]) <==> Replays(log) || e.Replays()
  {
    var all := log + [e];
    assert forall i :: 0 <= i < |log| ==> all[i] == log[i];
    assert all[|log|] == e;
  }

  lemma HandlesOneMore(log: Log, e: Entry)
    ensures Handles(log + [e]) <==> Handles(log) || (Replays(log) && e.Ok() && e.call.Revoke?)
  {
    var all, n := log + [e], |log|;
    assert forall i :: 0 <= i < n ==> all[i] == log[i];
    assert all[n] == e;
    if Replays(log) && e.Ok() && e.call.Revoke? {
      var i :| 0 <= i < n && log[i].Replays();
      assert all[i].Replays() && all[n].Ok();
    }
    if i, j :| 0 <= i < j < |all| && all[i].Replays() && all[j].Ok() && all[j].call.Revoke? {
      assert j < n ==> log[i].Replays() && log[j].Ok();
    }
  }

  lemma DecidesOneMore(log: Log, e: Entry, d: Decision)
    ensures Decides(log + [e], d) <==>
      if e.Ok() && e.call.ConsumeConsent? then e.call.decision == d else Decides(log, d)
  {
    var all, n := log + [e], |log|;
    assert forall i :: i < n ==> (ConsumesAt(all, i) <==> ConsumesAt(log, i));
    assert forall i :: 0 <= i < n ==> all[i] == log[i];
    assert all[n] == e;
    if e.Ok() && e.call.ConsumeConsent? {
      assert ConsumesAt(all, n);
    } else {
      assert forall j :: j >= n ==> !ConsumesAt(all, j) && !ConsumesAt(log, j);
    }
  }

  lemma LeavesOpenOneMore(log: Log, e: Entry)
    ensures LeavesOpen(log + [e]) <==> (e.Ok() && e.call.BeginSavepoint?) || (LeavesOpen(log) && !e.Closes())
  {
    var all, n := log + [e], |log|;
    assert forall i :: 0 <= i < n ==> all[i] == log[i];
    assert all[n] == e;
    if LeavesOpen(log) && !e.Closes() {
      var i :| 0 <= i < n && log[i].Ok() && log[i].call.BeginSavepoint? && forall j :: i < j < n ==> !log[j].Closes();
      assert all[i].Ok() && forall j :: i < j < |all| ==> !all[j].Closes();
    }
    if i :| 0 <= i < |all| && all[i].Ok() && all[i].call.BeginSavepoint? && forall j :: i < j < |all| ==> !all[j].Closes() {
      assert !(i < n) || !all[n].Closes();
      assert i < n ==> forall j :: i < j < n ==> !log[j].Closes();
    }
  }

  // ---- the flags say just that ---------------------------------------------------------

  /** Flags and savepoint as the log makes them. */
  ghost predicate Told(log: Log, f: Flags, open: bool) {
    && (f.storageFailed <==> Fails(log))
    && (f.issuanceAttempted <==> Tries(log))
    && (f.codeCreated <==> MakesCode(log))
    && (f.pkceCreated <==> MakesPkce(log))
    && (f.replay.Some? <==> Replays(log))
    && (f.replayComplete <==> Handles(log))
    && (forall d :: f.decision == Some(d) <==> Decides(log, d))
    && (open <==> LeavesOpen(log))
  }

  /** The attempt is on record unless the operation is not one that issues such credentials. */
  predicate NotesAttempt(o: Op, step: (Op, Answer)) {
    step.0.flags.issuanceAttempted <==> o.flags.issuanceAttempted || step.1.err != OperationRequired
  }

  lemma AuthorizationTries(env: Env, o: Op, signature: string, r: Request, now: nat, fault: bool)
    ensures NotesAttempt(o, StepCreateCode(env, o, signature, r, now, fault))
    ensures NotesAttempt(o, StepCreatePkce(env, o, signature, r, now, fault))
  {
    hide Encode, LockGrant, InsertGrant, InsertSession, WriteSnapshotMatches;
  }

  lemma ExchangeTries(env: Env, o: Op, signature: string, access: string, r: Request, now: nat, fault: bool)
    ensures NotesAttempt(o, StepCreateAccess(env, o, signature, r, now, fault))
    ensures NotesAttempt(o, StepCreateRefresh(env, o, signature, access, r, now, fault))
  {
    hide Encode, LockGrant, Hydrate, InsertSession, WriteSnapshotMatches, ExtendRetention;
  }

  lemma ReadsDoNotTry(env: Env, o: Op, signature: string, target: Option<Expirations>, fault: bool)
    ensures StepGetCode(env, o, signature, target, fault).0.flags.issuanceAttempted == o.flags.issuanceAttempted
    ensures StepGetPkce(env, o, signature, target, fault).0.flags.issuanceAttempted == o.flags.issuanceAttempted
  {
    hide LockCredential, Hydrate, ProveCode;
  }

  lemma TokenReadsDoNotTry(env: Env, o: Op, signature: string, target: Option<Expirations>, fault: bool)
    ensures StepGetAccess(env, o, signature, target, fault).0.flags.issuanceAttempted == o.flags.issuanceAttempted
    ensures StepGetRefresh(env, o, signature, target, fault).0.flags.issuanceAttempted == o.flags.issuanceAttempted
  {
    hide LockCredential, Hydrate, ProveAccess, ProveRefresh;
  }

  lemma ChangesDoNotTry(env: Env, o: Op, key: Key, requestId: string, fault: bool)
    ensures StepConsume(env, o, key, fault).0.flags.issuanceAttempted == o.flags.issuanceAttempted
    ensures StepDelete(env, o, key, fault).0.flags.issuanceAttempted == o.flags.issuanceAttempted
    ensures StepRotate(env, o, requestId, key.signature, fault).0.flags.issuanceAttempted == o.flags.issuanceAttempted
    ensures StepRevoke(env, o, requestId, fault).0.flags.issuanceAttempted == o.flags.issuanceAttempted
  {
    hide LockForMutation, ConsumeSession, RevokeSession, RevokeAccessTokens, RevokeFamily, RecordEvent, LockGrantForRevocation;
  }

  lemma AttemptIsNoted(env: Env, o: Op, call: Call, fault: bool)
    ensures var (o', answer) := Step(env, o, call, fault);
      o'.flags.issuanceAttempted <==> o.flags.issuanceAttempted || Entry(call, answer).Tries()
  {
    hide StepCreateCode, StepCreateAccess, StepCreateRefresh, StepCreatePkce, StepConsume, StepRotate, StepDelete,
      StepRevoke, StepGetCode, StepGetAccess, StepGetRefresh, StepGetPkce, StepConsumeConsent;
    match call
    case CreateCode(signature, r, now) => AuthorizationTries(env, o, signature, r, now, fault);
    case CreatePkce(signature, r, now) => AuthorizationTries(env, o, signature, r, now, fault);
    case CreateAccess(signature, r, now) => ExchangeTries(env, o, signature, "", r, now, fault);
    case CreateRefresh(signature, access, r, now) => ExchangeTries(env, o, signature, access, r, now, fault);
    case GetCode(signature, target) => ReadsDoNotTry(env, o, signature, target, fault);
    case GetPkce(signature, target) => ReadsDoNotTry(env, o, signature, target, fault);
    case GetAccess(signature, target) => TokenReadsDoNotTry(env, o, signature, target, fault);
    case GetRefresh(signature, target) => TokenReadsDoNotTry(env, o, signature, target, fault);
    case InvalidateCode(signature) => ChangesDoNotTry(env, o, Key(Code, signature), "", fault);
    case DeletePkce(signature) => ChangesDoNotTry(env, o, Key(Pkce, signature), "", fault);
    case DeleteAccess(signature) => ChangesDoNotTry(env, o, Key(Access, signature), "", fault);
    case DeleteRefresh(signature) => ChangesDoNotTry(env, o, Key(Refresh, signature), "", fault);
    case Rotate(requestId, signature) => ChangesDoNotTry(env, o, Key(Refresh, signature), requestId, fault);
    case Revoke(requestId) => ChangesDoNotTry(env, o, Key(Code, ""), requestId, fault);
    case ConsumeConsent(_, _, _, _) => ConsentDoesNotTry(env, o, call, fault);
    case _ =>
  }

  lemma ConsentDoesNotTry(env: Env, o: Op, call: Call, fault: bool)
    requires call.ConsumeConsent?
    ensures StepConsumeConsent(o, call.handle, call.session, call.at, call.decision, fault).0.flags.issuanceAttempted
         == o.flags.issuanceAttempted
  {
    hide ConsentUsable, ConsumeConsentRow;
  }

  lemma ReadNotesReplay(env: Env, o: Op, signature: string, target: Option<Expirations>, fault: bool)
    ensures var (o', answer) := StepGetCode(env, o, signature, target, fault);
      if answer.request.Some? && answer.err != NoError then o'.flags.replay.Some? else o'.flags.replay == o.flags.replay
    ensures var (o', answer) := StepGetRefresh(env, o, signature, target, fault);
      if answer.request.Some? && answer.err != NoError then o'.flags.replay.Some? else o'.flags.replay == o.flags.replay
  {
    hide LockCredential, Hydrate, ProveCode, ProveAccess, ProveRefresh;
  }

  lemma ReplayIsNoted(env: Env, o: Op, call: Call, fault: bool)
    ensures var (o', answer) := Step(env, o, call, fault);
      o'.flags.replay.Some? <==> o.flags.replay.Some? || Entry(call, answer).Replays()
  {
    if call.GetCode? || call.GetRefresh? {
      hide StepCreateCode, StepCreateAccess, StepCreateRefresh, StepCreatePkce, StepConsume, StepRotate, StepDelete,
        StepRevoke, StepGetCode, StepGetAccess, StepGetRefresh, StepGetPkce, StepConsumeConsent;
      ReadNotesReplay(env, o, call.signature, call.target, fault);
    } else {
      StepFlags(env, o, call, fault);
      hide Step;
    }
  }

  lemma ToldOneMore(env: Env, o: Op, log: Log, call: Call, fault: bool)
    requires Told(log, o.flags, o.savepoint.Some?)
    ensures var (next, answer) := Step(env, o, call, fault);
      Told(log + [Entry(call, answer)], next.flags, next.savepoint.Some?)
  {
    hide Step, Detects, Fails, Tries, MakesCode, MakesPkce, Replays, Handles, Decides, LeavesOpen;
    var e := Entry(call, Step(env, o, call, fault).1);
    StepFlags(env, o, call, fault);
    FailureIsNoted(env, o, call, fault);
    AttemptIsNoted(env, o, call, fault);
    ReplayIsNoted(env, o, call, fault);
    OneEntryMore(log, e);
    HandlesOneMore(log, e);
    forall d
      ensures Step(env, o, call, fault).0.flags.decision == Some(d) <==> Decides(log + [e], d)
    {
      DecidesOneMore(log, e, d);
    }
    LeavesOpenOneMore(log, e);
  }

  /** An operation as `Begin` makes it. */
  predicate Begun(o: Op, s0: Shard) {
    Opened(o, s0) && o.savepoint.None? && !o.flags.storageFailed && !o.flags.issuanceAttempted
  }

  lemma {:induction false} RunIsTold(env: Env, s0: Shard, o: Op, steps: Steps)
    requires Begun(o, s0)
    ensures var op := Exec(env, Start(o), steps).op; Told(LogOf(env, Start(o), steps), op.flags, op.savepoint.Some?)
    decreases |steps|
  {
    if steps == [] {
      assert forall d :: !Decides([], d);
    } else {
      var n := |steps| - 1;
      var before := steps[..n];
      RunIsTold(env, s0, o, before);
      ExecOneMore(env, Start(o), steps, n);
      assert steps[..n + 1] == steps;
      hide Told, Step, Exec, Begun, Keep;
      ToldOneMore(env, Exec(env, Start(o), before).op, LogOf(env, Start(o), before), steps[n].0, steps[n].1);
    }
  }

  // ---- commits -------------------------------------------------------------------------

  /** Nothing stands in the way of a commit: no storage failure, no open savepoint, and the end itself works. */
  predicate Clear(log: Log, fault: bool) { !fault && !Fails(log) && !LeavesOpen(log) }

  /**
    The three ways to commit, exactly: a success, which an authorization must have made
    complete and a replay excludes; the revocation of a replayed family; a denial.
   */
  lemma CommitsExactly(env: Env, s0: Shard, o: Op, steps: Steps, protocolErr: Error, fault: bool)
    requires Begun(o, s0)
    ensures
      var f, log := Operate(env, s0, o, steps, protocolErr, fault), LogOf(env, Start(o), steps);
      && (f.outcome.Committed? <==>
            && Clear(log, fault) && protocolErr == NoError && !Replays(log)
            && (o.ctx.binding.purpose.Authorize? ==> Decides(log, Approve) && MakesCode(log) && MakesPkce(log)))
      && (f.outcome.ReplayCommitted? <==>
            Clear(log, fault) && protocolErr == InvalidGrant && Handles(log) && !Tries(log))
      && (f.outcome.DeniedCommitted? <==>
            Clear(log, fault) && protocolErr == AccessDenied && Decides(log, Deny) && !Tries(log))
      && f.rows == (if f.outcome.RolledBack? then s0 else Exec(env, Start(o), steps).op.tx)
  {
    var op := Exec(env, Start(o), steps).op;
    RunIsTold(env, s0, o, steps);
    SameContextAfter(env, Start(o), steps);
    hide Exec, Fails, Tries, MakesCode, MakesPkce, Replays, Handles, Decides, LeavesOpen;
    HandledIsReplayed(LogOf(env, Start(o), steps));
  }

  lemma HandledIsReplayed(log: Log)
    ensures Handles(log) ==> Replays(log)
  {
  }

  /** A rollback is reported as a failure unless nothing had happened that calls for one. */
  lemma RollbackIsReported(env: Env, s0: Shard, o: Op, steps: Steps, protocolErr: Error, fault: bool)
    requires Begun(o, s0) && Operate(env, s0, o, steps, protocolErr, fault).outcome.RolledBack?
    ensures
      var f, log := Operate(env, s0, o, steps, protocolErr, fault), LogOf(env, Start(o), steps);
      f.failed <==>
        || !Clear(log, fault) || protocolErr == NoError || Replays(log)
        || Decides(log, Approve) || Decides(log, Deny)
  {
    var op := Exec(env, Start(o), steps).op;
    RunIsTold(env, s0, o, steps);
    hide Exec, Fails, Tries, MakesCode, MakesPkce, Replays, Handles, Decides, LeavesOpen;
    HandledIsReplayed(LogOf(env, Start(o), steps));
  }
}
