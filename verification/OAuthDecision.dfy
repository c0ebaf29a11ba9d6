/**
  The consent decision handler: read the consent in a transaction of its own,
  begin, consume it, let the authorization provider issue, and finish. Between
  the two transactions anything may happen to the account. The provider is any
  list of store calls that leaves consents alone.
 */
module OAuthDecision {
  import opened Prelude
  import opened RequestCodec
  import opened OAuthTables
  import opened OAuthOperation
  import opened OAuthEffects
  import opened OAuthInvariants
  import opened OAuthRuns
  import opened OAuthSafety
  import opened OAuthHistory
  import opened OAuthConsents
  import opened OAuthOverlap
  import opened OAuthAnswers
  import opened OAuthCommits
  import opened OAuthFlows
  import Store = OAuthStore

  datatype Response = Approved | Denied | ErrorRedirect | Unauthorized | BadRequest | Forbidden | Unavailable

  // What the code outside the store yields: how a ciphertext opens to a client at either time, the
  // provider's work, faults, and the loose transitions that commit while the operation is open.
  datatype Outside = Outside(
    openFirst: string -> Option<string>, openAgain: string -> Option<string>, provider: Steps, providerErr: Error,
    readFault: bool, beginFault: bool, consumeFault: bool, finishFault: bool, during: seq<Transition>)

  predicate ConsentFree(steps: Steps) {
    forall i :: 0 <= i < |steps| ==> !steps[i].0.ConsumeConsent?
  }

  /** All codes and PKCE rows are made for one request, as one response makes them. */
  ghost predicate OneRequest(steps: Steps) { exists requestId :: NamesOnly(steps, requestId) }

  // ---- what the provider cannot do ------------------------------------------------

  /** A run without consent calls leaves the account of consumed consents as it was. */
  lemma {:induction false} ProviderKeepsSpent(env: Env, t: Run, steps: Steps)
    requires ConsentFree(steps) && (t.op.savepoint.Some? ==> t.saved.spent == t.kept.spent)
    ensures Exec(env, t, steps).kept.spent == t.kept.spent
    ensures Exec(env, t, steps).op.flags.decision == t.op.flags.decision
    decreases |steps|
  {
    if steps != [] {
      var next := Advance(env, t, steps[0].0, steps[0].1);
      AdvanceKeepsSpent(env, t, steps[0].0, steps[0].1);
      assert forall i :: 0 <= i < |steps[1..]| ==> steps[1..][i] == steps[i + 1];
      hide Advance;
      ProviderKeepsSpent(env, next, steps[1..]);
    }
  }

  lemma AdvanceKeepsSpent(env: Env, t: Run, call: Call, fault: bool)
    requires !call.ConsumeConsent? && (t.op.savepoint.Some? ==> t.saved.spent == t.kept.spent)
    ensures var next := Advance(env, t, call, fault);
      && next.kept.spent == t.kept.spent && next.op.flags.decision == t.op.flags.decision
      && (next.op.savepoint.Some? ==> next.saved.spent == next.kept.spent)
  {
    StepFlags(env, t.op, call, fault);
    if call.RollbackSavepoint? && t.op.savepoint.None? {
      NoSavepointToRollBack(env, t.op, fault);
    }
    hide Step, Detects;
  }

  lemma NoSavepointToRollBack(env: Env, o: Op, fault: bool)
    requires o.savepoint.None?
    ensures Step(env, o, RollbackSavepoint, fault).1.err != NoError
  {
  }

  // ---- the operation of a decision ---------------------------------------------------

  /** Consent consumption comes first; a refused or failed one leaves the tables and flags of a new operation. */
  lemma ConsumeFirst(env: Env, o: Op, handle: string, session: string, now: Time, decision: Decision, fault: bool)
    requires o.ctx.binding.purpose.Authorize? && handle != "" && session != "" && now != 0
    ensures Step(env, o, ConsumeConsent(handle, session, now, decision), fault) ==
            StepConsumeConsent(o, handle, session, now, decision, fault)
    ensures var (o', answer) := StepConsumeConsent(o, handle, session, now, decision, fault);
      && (answer.err == NoError <==> !fault && ConsentUsable(o.tx, handle, session, now))
      && (answer.err == NoError ==>
            o' == o.(tx := ConsumeConsentRow(o.tx, handle, session).0, flags := o.flags.(decision := Some(decision))))
      && (answer.err != NoError ==>
            && answer.err == (if fault then StorageFailure else AccessDenied)
            && o' == o.(flags := o.flags.(storageFailed := o.flags.storageFailed || fault)))
  {
    hide StepCreateCode, StepCreateAccess, StepCreateRefresh, StepCreatePkce, StepConsume, StepRotate, StepDelete,
      StepRevoke, StepGetCode, StepGetAccess, StepGetRefresh, StepGetPkce, StepBeginSavepoint, StepCommitSavepoint,
      StepRollbackSavepoint;
  }

  function Deciding(handle: string, session: string, now: Time, decision: Decision): (Call, bool) {
    (ConsumeConsent(handle, session, now, decision), false)
  }

  lemma DecisionRun(env: Env, o: Op, handle: string, session: string, now: Time, decision: Decision, provider: Steps)
    requires o.ctx.binding.purpose.Authorize? && o.savepoint.None? && ConsentFree(provider)
    requires handle != "" && session != "" && now != 0 && ConsentUsable(o.tx, handle, session, now)
    ensures var t := Exec(env, Start(o), [Deciding(handle, session, now, decision)] + provider);
      && t.kept.spent == {handle} && t.op.flags.decision == Some(decision)
      && (RollbackFree(provider) ==> !t.rolledBack)
      && (provider == [] ==> t.op == o.(tx := ConsumeConsentRow(o.tx, handle, session).0,
                                         flags := o.flags.(decision := Some(decision))))
  {
    var all := [Deciding(handle, session, now, decision)] + provider;
    assert all[0] == Deciding(handle, session, now, decision) && all[1..] == provider;
    ConsumeFirst(env, o, handle, session, now, decision, false);
    hide Step, ConsentUsable;
    var t1 := Advance(env, Start(o), all[0].0, all[0].1);
    assert t1.kept.spent == {handle} && t1.op.savepoint.None? && !t1.rolledBack;
    hide Advance;
    ProviderKeepsSpent(env, t1, provider);
    if RollbackFree(provider) {
      NoRollback(env, t1, provider);
    }
  }

  lemma SpentIsKept(env: Env, s0: Shard, t: Run)
    requires RunInv(env, s0, t)
    ensures forall h :: Spent(s0, t.op.tx, h) <==> h in t.kept.spent
  {
    InvGood(env, s0, t);
    hide RunInv, ByPurpose, Audit, Good;
  }

  /** A committed approval consumed exactly the decided consent, and issued what the provider kept. */
  lemma ApprovalEnding(env: Env, s0: Shard, o: Op, handle: string, session: string, now: Time, provider: Steps,
                       providerErr: Error, fault: bool)
    requires Opened(o, s0) && o.savepoint.None? && Good(env, s0) && o.ctx.binding.purpose.Authorize? && ConsentFree(provider)
    requires handle != "" && session != "" && now != 0 && ConsentUsable(s0, handle, session, now)
    requires Operate(env, s0, o, [Deciding(handle, session, now, Approve)] + provider, providerErr, fault).outcome.Committed?
    ensures var all := [Deciding(handle, session, now, Approve)] + provider;
      var rows := Operate(env, s0, o, all, providerErr, fault).rows;
      var kept := Exec(env, Start(o), all).kept;
      && (forall h :: Spent(s0, rows, h) <==> h == handle)
      && (OAuthSafety.Approved(s0, rows) <==> PairKept(kept))
      && (RollbackFree(provider) && OneRequest(provider) ==> OAuthSafety.Approved(s0, rows))
  {
    hide Good, OAuthSafety.Approved, RunInv, Exec, ConsentUsable, Spent, Within, PairKept;
    var all := [Deciding(handle, session, now, Approve)] + provider;
    AuthorizeEndings(env, s0, o, all, providerErr, fault);
    OperationInv(env, s0, o, all);
    OperationIsAtomic(env, s0, o, all, providerErr, fault);
    DecisionRun(env, o, handle, session, now, Approve, provider);
    SpentIsKept(env, s0, Exec(env, Start(o), all));
    assert handle in Exec(env, Start(o), all).kept.spent;
    if RollbackFree(provider) && OneRequest(provider) {
      var requestId :| NamesOnly(provider, requestId);
      assert NamesOnly(all, requestId);
      OneRequestApproves(env, s0, o, all, providerErr, fault, requestId);
    }
  }

  lemma ExecFirst(env: Env, t: Run, step: (Call, bool), rest: Steps)
    ensures Exec(env, t, [step] + rest) == Exec(env, Advance(env, t, step.0, step.1), rest)
  {
    hide Advance;
    assert ([step] + rest)[0] == step && ([step] + rest)[1..] == rest;
  }

  lemma FinishDecision(env: Env, s0: Shard, o: Op, handle: string, session: string, now: Time, x: Outside)
    requires Opened(o, s0) && o.savepoint.None? && Good(env, s0) && o.ctx.binding.purpose.Authorize? && ConsentFree(x.provider)
    requires handle != "" && session != "" && now != 0 && ConsentUsable(s0, handle, session, now)
    ensures var all := [Deciding(handle, session, now, Approve)] + x.provider;
      var f := Operate(env, s0, o, all, x.providerErr, x.finishFault);
      && f.outcome != ReplayCommitted && f.outcome != DeniedCommitted
      && (f.outcome.RolledBack? ==> f.rows == s0)
      && Good(env, f.rows)
      && (f.outcome.Committed? ==>
            && x.providerErr == NoError && !f.failed
            && (forall h :: Spent(s0, f.rows, h) <==> h == handle)
            && (RollbackFree(x.provider) && OneRequest(x.provider) ==> OAuthSafety.Approved(s0, f.rows)))
  {
    var all := [Deciding(handle, session, now, Approve)] + x.provider;
    AuthorizeEndings(env, s0, o, all, x.providerErr, x.finishFault);
    OperationIsAtomic(env, s0, o, all, x.providerErr, x.finishFault);
    DecisionRun(env, o, handle, session, now, Approve, x.provider);
    hide Good, Exec, Within, OAuthSafety.Approved, Spent, ConsentUsable;
    if Operate(env, s0, o, all, x.providerErr, x.finishFault).outcome.Committed? {
      ApprovalEnding(env, s0, o, handle, session, now, x.provider, x.providerErr, x.finishFault);
    }
  }

  /** An error ends an operation without a commit, unless it is the denial that was decided. */
  lemma ErrorEnding(o: Op, s0: Shard, protocolErr: Error, fault: bool)
    requires protocolErr != NoError && o.flags.replay.None? && !o.flags.replayComplete && !o.flags.issuanceAttempted
    ensures var f := OAuthOperation.Finish(o, s0, protocolErr, fault);
      || (f.outcome.RolledBack? && f.rows == s0)
      || (f.outcome.DeniedCommitted? && f.rows == o.tx && o.flags.decision == Some(Deny) && !f.failed
          && protocolErr == AccessDenied)
  {
  }

  /** How an operation ends that has done no more than ask for the consent. */
  lemma DecisionEnding(o: Op, s0: Shard, protocolErr: Error, fault: bool)
    requires protocolErr != NoError && o.flags.replay.None? && !o.flags.replayComplete && !o.flags.issuanceAttempted
    requires o.savepoint.None?
    ensures
      var f := OAuthOperation.Finish(o, s0, protocolErr, fault);
      var denied := o.flags.decision == Some(Deny) && protocolErr == AccessDenied && !o.flags.storageFailed;
      && (f.outcome.DeniedCommitted? <==> denied && !fault)
      && (f.failed <==> fault || o.flags.storageFailed || (o.flags.decision.Some? && !denied))
  {
  }

  lemma FirstDecides(log: Log, d: Decision)
    requires log != [] && ConsumesAt(log, 0) && log[0].call.decision == d
    requires forall i :: 0 < i < |log| ==> !log[i].call.ConsumeConsent?
    ensures Decides(log, d)
  {
    assert forall j :: 0 < j ==> !ConsumesAt(log, j);
  }

  /** The provider made a code and a PKCE row, nothing failed in storage, and no savepoint is left open. */
  ghost predicate IssuesAll(env: Env, o: Op, all: Steps, fault: bool) {
    var log := LogOf(env, Start(o), all);
    Clear(log, fault) && MakesCode(log) && MakesPkce(log)
  }

  /** With the consent consumed, an approval commits exactly if the provider issues all and reports success. */
  lemma ApprovalCommits(env: Env, s: Shard, o: Op, handle: string, session: string, at: Time, x: Outside)
    requires Begun(o, s) && Good(env, s) && o.ctx.binding.purpose.Authorize? && ConsentFree(x.provider)
    requires handle != "" && session != "" && at != 0 && ConsentUsable(s, handle, session, at)
    ensures
      var all := [Deciding(handle, session, at, Approve)] + x.provider;
      var f := Operate(env, s, o, all, x.providerErr, x.finishFault);
      && (f.outcome.Committed? <==> x.providerErr == NoError && IssuesAll(env, o, all, x.finishFault))
      && (f.outcome.Committed? ==> !f.failed) && (!f.outcome.Committed? ==> f.outcome.RolledBack? && f.failed)
  {
    var all := [Deciding(handle, session, at, Approve)] + x.provider;
    var log := LogOf(env, Start(o), all);
    assert all[0] == Deciding(handle, session, at, Approve) && forall i :: 0 < i < |all| ==> all[i] == x.provider[i - 1];
    assert all[..0] == [];
    LogAt(env, Start(o), all, 0);
    ConsumeFirst(env, o, handle, session, at, Approve, false);
    hide Step, Exec, LogOf, ConsentUsable, Good;
    FirstDecides(log, Approve);
    hide Decides;
    if Decides(log, Deny) { OnlyOneDecision(log, Approve, Deny); }
    OnlyExchangesReplay(env, s, o, all);
    hide Clear, MakesCode, MakesPkce, Replays, Handles, Tries;
    CommitsExactly(env, s, o, all, x.providerErr, x.finishFault);
    ApprovalReports(env, s, o, all, x.providerErr, x.finishFault);
  }

  /** The last consumption has one decision. */
  lemma OnlyOneDecision(log: Log, d: Decision, e: Decision)
    requires Decides(log, d) && Decides(log, e)
    ensures d == e
  {
    var i :| ConsumesAt(log, i) && log[i].call.decision == d && forall j :: i < j ==> !ConsumesAt(log, j);
    var k :| ConsumesAt(log, k) && log[k].call.decision == e && forall j :: k < j ==> !ConsumesAt(log, j);
    LastIsOne(log, i, k);
  }

  lemma LastIsOne(log: Log, i: int, k: int)
    requires ConsumesAt(log, i) && ConsumesAt(log, k)
    requires (forall j :: i < j ==> !ConsumesAt(log, j)) && (forall j :: k < j ==> !ConsumesAt(log, j))
    ensures i == k
  {
  }

  lemma ApprovalReports(env: Env, s: Shard, o: Op, steps: Steps, protocolErr: Error, fault: bool)
    requires Begun(o, s) && Decides(LogOf(env, Start(o), steps), Approve) && !Replays(LogOf(env, Start(o), steps))
    requires !Decides(LogOf(env, Start(o), steps), Deny)
    ensures
      var f := Operate(env, s, o, steps, protocolErr, fault);
      && !f.outcome.ReplayCommitted? && !f.outcome.DeniedCommitted? && (f.failed <==> f.outcome.RolledBack?)
  {
    hide Operate, LogOf, Exec, Decides, Clear, Tries;
    CommitsExactly(env, s, o, steps, protocolErr, fault);
    if Operate(env, s, o, steps, protocolErr, fault).outcome.RolledBack? {
      RollbackIsReported(env, s, o, steps, protocolErr, fault);
    } else {
      CommitsDoNotFail(env, s, o, steps, protocolErr, fault);
    }
    HandledIsReplayed(LogOf(env, Start(o), steps));
  }

  lemma CommitsDoNotFail(env: Env, s: Shard, o: Op, steps: Steps, protocolErr: Error, fault: bool)
    ensures
      var f := Operate(env, s, o, steps, protocolErr, fault);
      !f.outcome.RolledBack? ==> !f.failed
  {
    hide Exec;
  }

  lemma ConsumedRowStaysGood(env: Env, s: Shard, handle: string, session: string)
    requires Good(env, s)
    ensures Good(env, ConsumeConsentRow(s, handle, session).0)
  {
    hide Validate;
  }

  // ---- the handler ---------------------------------------------------------------------

  /** The provider's store calls, one after the other. */
  method Respond(op: Store.Operation, provider: Steps, ghost t: Run)
    requires op.Valid() && !op.finished && t.op == op.State()
    modifies op
    ensures op.Valid() && !op.finished && op.State() == Exec(op.env, t, provider).op
  {
    hide Step;
    assert provider[..0] == [];
    var i := 0;
    while i < |provider|
      invariant 0 <= i <= |provider|
      invariant op.Valid() && !op.finished && op.State() == Exec(op.env, t, provider[..i]).op
    {
      ExecOneMore(op.env, t, provider, i);
      var answer := op.Perform(provider[i].0, provider[i].1);
      i := i + 1;
    }
    assert provider[..i] == provider;
  }

  predicate AllLoose(h: seq<Transition>) { forall i :: 0 <= i < |h| ==> Loose(h[i]) }

  lemma {:induction false} AfterLoose(env: Env, s: Shard, h: seq<Transition>)
    requires Good(env, s) && Valid(env, s, h) && AllLoose(h)
    ensures Good(env, After(env, s, h)) && SameButConsents(s, After(env, s, h))
    decreases |h|
  {
    hide Good, CanTake;
    if h != [] {
      var p := h[..|h| - 1];
      assert AllLoose(p);
      AfterLoose(env, s, p);
      TakeKeepsGood(env, After(env, s, p), h[|h| - 1]);
      LoosenedIsSame(After(env, s, p), h[|h| - 1]);
      assert Loose(h[|h| - 1]);
      hide Loosened;
    }
  }

  lemma TakeKeepsAccount(env: Env, s: Shard, tr: Transition)
    requires Good(env, s) && CanTake(s, tr)
    ensures Take(env, s, tr).accountId == s.accountId
  {
    if !Cleans(tr) { TakeGrows(env, s, tr); }
    hide Good, Operate, CanTake;
  }

  lemma {:induction false} AfterKeepsAccount(env: Env, s: Shard, h: seq<Transition>)
    requires Good(env, s) && Valid(env, s, h)
    ensures After(env, s, h).accountId == s.accountId
    decreases |h|
  {
    hide Good, Take, CanTake;
    if h != [] {
      AfterKeepsAccount(env, s, h[..|h| - 1]);
      AlwaysGood(env, s, h[..|h| - 1]);
      TakeKeepsAccount(env, After(env, s, h[..|h| - 1]), h[|h| - 1]);
    }
  }

  /** What each response says of the tables s, as the consumption found them, and of those at the end. */
  ghost predicate Answered(
    s: Shard, rows: Shard, handle: string, session: string, at: Time, decision: Decision, x: Outside, response: Response)
  {
    && (response.Denied? ==>
          && decision.Deny? && ConsentUsable(s, handle, session, at)
          && rows == ConsumeConsentRow(s, handle, session).0)
    && (response.Approved? ==>
          && decision.Approve? && ConsentUsable(s, handle, session, at)
          && (forall h :: Spent(s, rows, h) <==> h == handle)
          && (RollbackFree(x.provider) && OneRequest(x.provider) ==> OAuthSafety.Approved(s, rows)))
  }

  /**
    The response, as the outside sees it: `before` are the tables when the operation
    begins, `s` those at the consumption. Only the client that the consent was first
    opened for can be approved, and no consent, once consumed, is answered by a redirect
    with an error other than its denial.
   */
  ghost function ResponseTo(
    env: Env, before: Shard, s: Shard, accountId: int, client: string, handle: string, session: string, at: Time,
    decision: Decision, x: Outside): Response
  {
    if client == "" || client !in env.registry.clients || accountId <= 0 then Forbidden
    else if x.beginFault then Unavailable
    else if !before.active then Forbidden
    else if x.consumeFault then Unavailable
    else if !ConsentUsable(s, handle, session, at) then if x.finishFault then Unavailable else BadRequest
    else
      var again := x.openAgain(s.consents[handle].ciphertext);
      match decision
      case Deny => if again.Some? && !x.finishFault then Denied else Unavailable
      case Approve =>
        var all := [Deciding(handle, session, at, Approve)] + x.provider;
        if again == Some(client) && x.providerErr == NoError
           && IssuesAll(env, DecidingOp(env, s, accountId, client), all, x.finishFault) then Response.Approved
        else Unavailable
  }

  /** The operation as it consumes the consent. */
  function DecidingOp(env: Env, s: Shard, accountId: int, client: string): Op {
    NewOp(Binding(Authorize, client, env.registry.resource, accountId), NoCredential, "", s)
  }

  /** Logouts and short cleanups commit beside the operation, and it sees them. */
  method Overtake(env: Env, database: Store.Database, op: Store.Operation, during: seq<Transition>)
    requires op.Valid() && !op.finished && op.openSavepoints == 0 && op.tx == database.rows
    requires Good(env, database.rows) && Valid(env, database.rows, during) && AllLoose(during)
    modifies database, op`tx
    ensures database.rows == op.tx == After(env, old(database.rows), during)
  {
    AfterLoose(env, database.rows, during);
    database.rows := After(env, database.rows, during);
    op.tx := database.rows;
  }

  /** Ends the operation and turns its outcome into a response. */
  method Reply(op: Store.Operation, database: Store.Database, protocolErr: Error, reopened: bool, fault: bool)
    returns (response: Response)
    requires op.Valid() && !op.finished && op.database == database
    modifies op, database
    ensures var f := OAuthOperation.Finish(old(op.State()), old(database.rows), protocolErr, fault);
      && database.rows == f.rows
      && (response.Approved? ==> f.outcome.Committed? && !f.failed && protocolErr == NoError)
      && (response.Denied? ==> f.outcome.DeniedCommitted?)
      && (!response.Approved? && !response.Denied? ==> !f.outcome.Committed? && !f.outcome.DeniedCommitted?)
      && response == (if f.failed || protocolErr == StorageFailure then Unavailable
                      else if f.outcome.DeniedCommitted? then Denied
                      else if protocolErr != NoError then if reopened then ErrorRedirect else BadRequest
                      else if f.outcome.Committed? then Response.Approved else Unavailable)
  {
    var outcome, failed := op.Finish(protocolErr, fault);
    if failed || protocolErr == StorageFailure {
      return Unavailable;
    }
    if outcome == DeniedCommitted {
      return Denied;
    }
    if protocolErr != NoError {
      return if reopened then ErrorRedirect else BadRequest;
    }
    if outcome != Committed {
      return Unavailable;
    }
    return Response.Approved;
  }

  /** The operation of a decision, from its beginning to the response. */
  method Decide(env: Env, database: Store.Database, accountId: int, client: string, handle: string, session: string,
                at: Time, decision: Decision, x: Outside) returns (response: Response)
    requires Good(env, database.rows) && accountId == database.rows.accountId && ConsentFree(x.provider)
    requires Valid(env, database.rows, x.during) && AllLoose(x.during)
    requires handle != "" && session != "" && at != 0
    modifies database
    ensures !response.Approved? && !response.Denied? ==>
      database.rows == old(database.rows) || database.rows == After(env, old(database.rows), x.during)
    ensures response == ResponseTo(env, old(database.rows), After(env, old(database.rows), x.during), accountId, client,
                                   handle, session, at, decision, x)
    ensures Answered(After(env, old(database.rows), x.during), database.rows, handle, session, at, decision, x, response)
    ensures Good(env, database.rows)
  {
    hide Exec, Step, StepConsumeConsent, Good, OAuthSafety.Approved, Spent, OAuthOperation.Finish, ConsumeConsentRow,
      RollbackFree, ConsentFree, OneRequest, ConsentUsable, Valid, After, IssuesAll;
    var binding := Binding(Authorize, client, env.registry.resource, accountId);
    var op, err := Store.Begin(env, database, binding, NoCredential, "", x.beginFault);
    if op == null {
      return if err == AccessDenied then Forbidden else Unavailable;
    }
    AfterLoose(env, database.rows, x.during);
    Overtake(env, database, op, x.during);
    ghost var s := database.rows;
    ghost var o := op.State();
    assert Opened(o, s) && o.ctx.binding.purpose.Authorize? && o.savepoint.None?;
    assert o == DecidingOp(env, s, accountId, client) && Begun(o, s);
    ConsumeFirst(env, o, handle, session, at, decision, x.consumeFault);
    ConsumedRowStaysGood(env, s, handle, session);
    var stored: Option<Consent>;
    err, stored := op.ConsumePendingConsent(handle, session, at, decision, x.consumeFault);
    var protocolErr := err;
    var reopened := false;
    if protocolErr == NoError {
      UsableIsStored(s, handle, session, at);
      var again := x.openAgain(stored.value.ciphertext);
      if again.None? {
        protocolErr := OtherError;
      } else {
        reopened := true;
        if again.value != binding.clientId { protocolErr := AccessDenied; }
      }
    }
    if protocolErr == NoError && decision == Deny {
      protocolErr := AccessDenied;
    }
    if protocolErr == NoError {
      ghost var t1 := Advance(env, Start(o), Deciding(handle, session, at, decision).0, false);
      Respond(op, x.provider, t1);
      ExecFirst(env, Start(o), Deciding(handle, session, at, decision), x.provider);
      protocolErr := x.providerErr;
      FinishDecision(env, s, o, handle, session, at, x);
      ApprovalCommits(env, s, o, handle, session, at, x);
    } else {
      ErrorEnding(op.State(), s, protocolErr, x.finishFault);
      DecisionEnding(op.State(), s, protocolErr, x.finishFault);
    }
    response := Reply(op, database, protocolErr, reopened, x.finishFault);
  }

  lemma UsableIsStored(s: Shard, handle: string, session: string, at: Time)
    requires ConsentUsable(s, handle, session, at)
    ensures handle in s.consents
  {
  }

  /**
    The whole handler. `between` is what happens to the account after the first
    read; `now` and `at` are the two clock readings. Success means that the consent
    was the caller's to use when it was consumed, and is the only one consumed;
    denial changes nothing but the consent; any other response changes nothing.
   */
  method HandleDecision(env: Env, database: Store.Database, accountId: int, handle: string, session: string, now: Time,
                        between: seq<Transition>, at: Time, decision: Decision, x: Outside) returns (response: Response)
    requires Good(env, database.rows) && accountId == database.rows.accountId && ConsentFree(x.provider)
    requires Valid(env, database.rows, between)
    requires Valid(env, After(env, database.rows, between), x.during) && AllLoose(x.during)
    requires handle != "" && session != "" && now != 0 && at != 0
    modifies database
    ensures !response.Approved? && !response.Denied? ==>
      || database.rows == old(database.rows)
      || database.rows == After(env, old(database.rows), between)
      || database.rows == After(env, After(env, old(database.rows), between), x.during)
    ensures Answered(After(env, After(env, old(database.rows), between), x.during), database.rows,
                     handle, session, at, decision, x, response)
    ensures
      var first, mid := old(database.rows), After(env, old(database.rows), between);
      response ==
      if x.readFault then Unavailable
      else if !ConsentUsable(first, handle, session, now) then Unauthorized
      else if x.openFirst(first.consents[handle].ciphertext).None? then BadRequest
      else ResponseTo(env, mid, After(env, mid, x.during), accountId, x.openFirst(first.consents[handle].ciphertext).value,
                      handle, session, at, decision, x)
    ensures Good(env, database.rows)
  {
    hide Good, OAuthSafety.Approved, Spent, ConsumeConsentRow, RollbackFree, ConsentFree, OneRequest, ConsentUsable,
      Valid, After;
    if x.readFault {
      return Unavailable;
    }
    if !ConsentUsable(database.rows, handle, session, now) {
      return Unauthorized;
    }
    UsableIsStored(database.rows, handle, session, now);
    var client := x.openFirst(database.rows.consents[handle].ciphertext);
    if client.None? {
      return BadRequest;
    }
    AlwaysGood(env, database.rows, between);
    AfterKeepsAccount(env, database.rows, between);
    database.rows := After(env, database.rows, between);
    response := Decide(env, database, accountId, client.value, handle, session, at, decision, x);
  }

  // ---- two decisions on one consent ------------------------------------------------------

  /** A consent that was decided is consumed. */
  lemma DecidedIsConsumed(s: Shard, rows: Shard, handle: string, session: string, at: Time, decision: Decision,
                          x: Outside, response: Response)
    requires Answered(s, rows, handle, session, at, decision, x, response) && (response.Approved? || response.Denied?)
    ensures handle in rows.consents && rows.consents[handle].consumed
  {
    hide OAuthSafety.Approved, RollbackFree, OneRequest;
    if response.Approved? { assert Spent(s, rows, handle); }
  }

  lemma LooseBindsNothing(h: seq<Transition>, handle: string)
    requires AllLoose(h)
    ensures !BindsAfter(h, 0, handle)
  {
    assert forall i :: 0 <= i < |h| ==> Loose(h[i]);
  }

  lemma ConsumedIsUnusable(env: Env, s: Shard, between: seq<Transition>, during: seq<Transition>,
                           handle: string, session: string, at: Time)
    requires Good(env, s) && Valid(env, s, between) && !BindsAfter(between, 0, handle)
    requires Valid(env, After(env, s, between), during) && AllLoose(during)
    requires handle in s.consents && s.consents[handle].consumed
    ensures !ConsentUsable(After(env, After(env, s, between), during), handle, session, at)
  {
    var mid := After(env, s, between);
    assert After(env, s, between[..0]) == s && After(env, mid, during[..0]) == mid;
    hide Good, Take, CanTake, Valid, Loose;
    AlwaysGood(env, s, between);
    ConsentNeverChanges(env, s, between, 0, handle);
    LooseBindsNothing(during, handle);
    ConsentNeverChanges(env, mid, during, 0, handle);
  }

  /**
    Two decisions on one consent, by any two sessions at any times, with any history in
    between that does not bind the handle again: at most one is approved or denied.
    Whatever their first reads saw makes no difference.
   */
  lemma AtMostOneDecision(
    env: Env, handle: string, s1: Shard, rows1: Shard, session1: string, at1: Time, decision1: Decision, x1: Outside,
    first: Response, between: seq<Transition>, rows2: Shard, session2: string, at2: Time, decision2: Decision,
    x2: Outside, second: Response)
    requires Answered(s1, rows1, handle, session1, at1, decision1, x1, first) && (first.Approved? || first.Denied?)
    requires Good(env, rows1) && Valid(env, rows1, between) && !BindsAfter(between, 0, handle)
    requires Valid(env, After(env, rows1, between), x2.during) && AllLoose(x2.during)
    requires Answered(After(env, After(env, rows1, between), x2.during), rows2,
                      handle, session2, at2, decision2, x2, second)
    ensures !second.Approved? && !second.Denied?
  {
    DecidedIsConsumed(s1, rows1, handle, session1, at1, decision1, x1, first);
    ConsumedIsUnusable(env, rows1, between, x2.during, handle, session2, at2);
    hide Good, Valid, After, OAuthSafety.Approved, RollbackFree, OneRequest, ConsentUsable, Spent, BindsAfter;
  }
}
