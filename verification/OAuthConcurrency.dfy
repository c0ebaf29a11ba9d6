/**
  Many operations open at once, over many accounts. An operation takes the row
  lock of an account with the first call that finds a row there, keeps it until
  it ends, and works on its own copy of that account's rows. Logouts and short
  cleanups do not wait for that lock: they commit beside an open operation, which
  sees them from then on. Every interleaving comes to the same rows as the
  transitions of each account one by one.
 */
module OAuthConcurrency {
  import opened Prelude
  import opened RequestCodec
  import opened OAuthTables
  import opened OAuthOperation
  import opened OAuthEffects
  import opened OAuthInvariants
  import opened OAuthRuns
  import opened OAuthSafety
  import opened OAuthHistory
  import opened OAuthCalls
  import opened OAuthAnswers
  import opened OAuthExchange
  import opened OAuthOverlap
  import opened OAuthLifetimes
  import opened OAuthConsents

  // What an operation without a lock sees: no row at all.
  const NOWHERE := Shard(0, false, 0, map[], map[], [], map[], map[])

  // `first` is the operation when it took its lock, `steps` its calls since then.
  datatype Active = Active(account: Option<int>, first: Op, steps: Steps, run: Run, lockedInside: bool)

  datatype System = System(shards: map<int, Shard>, open: map<int, Active>)

  datatype Happening =
    | Open(id: int, binding: Binding, kind: CredentialKind, presented: string)
    | Invoke(id: int, call: Call, fault: bool)
    | Close(id: int, protocolErr: Error, fault: bool)
    | Background(account: int, transition: Transition)

  /** The account row is not locked by any open operation. */
  predicate Free(sys: System, account: int) {
    forall id :: id in sys.open ==> sys.open[id].account != Some(account)
  }

  /** The call gets as far as looking its rows up. */
  predicate Reaches(ctx: Context, call: Call) {
    var purpose := ctx.binding.purpose;
    match call
    case GetCode(_, _) => purpose.TokenExchange? && ctx.kind.CodeCredential?
    case GetAccess(_, _) => ctx.kind.AccessCredential? || ctx.kind.AccessOrRefresh?
    case GetRefresh(_, _) => ctx.kind.RefreshCredential? || ctx.kind.AccessOrRefresh?
    case DeleteAccess(_) => !purpose.Introspection?
    case DeleteRefresh(_) => !purpose.Introspection?
    case Revoke(_) => purpose.TokenExchange? || purpose.Revocation?
    case CreateCode(_, _, _) => purpose.Authorize?
    case CreatePkce(_, _, _) => purpose.Authorize?
    case ConsumeConsent(_, _, _, _) => purpose.Authorize?
    case BeginSavepoint => false
    case CommitSavepoint => false
    case RollbackSavepoint => false
    case _ => purpose.TokenExchange?
  }

  /** The lookup of the call finds its owner among these rows. */
  predicate Finds(s: Shard, ctx: Context, call: Call) {
    Reaches(ctx, call) &&
    match call
    case GetCode(signature, _) => Key(Code, signature) in s.creds
    case InvalidateCode(signature) => Key(Code, signature) in s.creds
    case GetPkce(signature, _) => Key(Pkce, signature) in s.creds
    case DeletePkce(signature) => Key(Pkce, signature) in s.creds
    case GetAccess(signature, _) => Key(Access, signature) in s.creds
    case DeleteAccess(signature) => Key(Access, signature) in s.creds
    case GetRefresh(signature, _) => Key(Refresh, signature) in s.creds
    case DeleteRefresh(signature) => Key(Refresh, signature) in s.creds
    case Rotate(_, signature) => Key(Refresh, signature) in s.creds
    case CreateAccess(_, r, _) => r.id in s.grants
    case CreateRefresh(_, _, r, _) => r.id in s.grants
    case CreatePkce(_, r, _) => r.id in s.grants
    case Revoke(requestId) => requestId in s.grants
    case ConsumeConsent(_, session, _, _) => session in s.webSessions
    case _ => false
  }

  predicate FoundOnly(sys: System, ctx: Context, call: Call, account: int) {
    forall b :: b in sys.shards && b != account ==> !Finds(sys.shards[b], ctx, call)
  }

  /** The account whose row the call would lock, if it holds none yet. */
  ghost function OwnerOf(sys: System, ctx: Context, call: Call): Option<int> {
    if exists a :: a in sys.shards && Finds(sys.shards[a], ctx, call) then
      var a :| a in sys.shards && Finds(sys.shards[a], ctx, call);
      Some(a)
    else None
  }

  /**
    What may happen next. A call that finds a locked account waits; a call of a
    locked operation names no other account's rows. A driver does not roll back the
    savepoint in which it locked its consent, and one that rolled back the savepoint
    in which it locked its account and found a replay there locks no account again.
    A loose transition waits only for rows that an open operation of the account has locked.
   */
  ghost predicate CanHappen(env: Env, sys: System, h: Happening) {
    match h
    case Open(id, binding, kind, presented) =>
      && id !in sys.open && BindingAccepted(env, binding, kind, presented)
      && (binding.purpose.Authorize? ==>
            && binding.accountId in sys.shards && sys.shards[binding.accountId].accountId == binding.accountId
            && sys.shards[binding.accountId].active && Free(sys, binding.accountId))
    case Invoke(id, call, fault) =>
      && id in sys.open
      && (match sys.open[id].account
          case Some(a) =>
            && FoundOnly(sys, sys.open[id].run.op.ctx, call, a)
            && !(Releases(sys.open[id], call, fault) && sys.open[id].run.op.ctx.binding.purpose.Authorize?)
          case None =>
            match OwnerOf(sys, sys.open[id].run.op.ctx, call)
            case Some(a) =>
              && FoundOnly(sys, sys.open[id].run.op.ctx, call, a) && Free(sys, a)
              && sys.open[id].run.op.flags.replay.None?
            case None => true)
    case Close(id, _, _) => id in sys.open
    case Background(account, tr) =>
      && account in sys.shards && !tr.Operation? && CanTake(sys.shards[account], tr)
      && (Free(sys, account) || (Loose(tr) && LocksNone(env, sys, account, tr)))
  }

  /** No open operation of the account has locked a row that the transition changes. */
  predicate LocksNone(env: Env, sys: System, account: int, tr: Transition) {
    forall id :: id in sys.open && sys.open[id].account == Some(account) ==>
      Untouched(env, Start(sys.open[id].first), sys.open[id].steps, tr)
  }

  function Locked(env: Env, s: Shard, account: int, o: Op, call: Call, fault: bool): Active {
    var first := o.(tx := s, savepoint := if o.savepoint.Some? then Some(s) else None);
    Active(Some(account), first, [(call, fault)], Advance(env, Start(first), call, fault), first.savepoint.Some?)
  }

  /** The call rolls back the savepoint in which a lock was taken, so the lock is given up with it. */
  predicate Releases(session: Active, call: Call, fault: bool) {
    session.lockedInside && session.run.op.savepoint.Some? && call.RollbackSavepoint? && !fault
  }

  /** Without its account the operation keeps its flags and sees no row. */
  function Released(o: Op): Op { o.(tx := NOWHERE, savepoint := None) }

  function Unlocked(o: Op): Active { Active(None, o, [], Start(o), false) }

  function Later(env: Env, session: Active, call: Call, fault: bool): Active {
    session.(steps := session.steps + [(call, fault)], run := Advance(env, session.run, call, fault),
             lockedInside := (session.lockedInside || FindsConsent(session.run.op, call, fault))
                             && Advance(env, session.run, call, fault).op.savepoint.Some?)
  }

  /** An open operation sees a loose transition of its account at once. */
  function Overtaken(session: Active, account: int, tr: Transition): Active {
    if session.account != Some(account) || !Loose(tr) then session
    else session.(first := Refreshed(session.first, tr), run := RefreshedRun(session.run, tr))
  }

  ghost function Next(env: Env, sys: System, h: Happening): System
    requires CanHappen(env, sys, h)
  {
    match h
    case Open(id, binding, kind, presented) =>
      if binding.purpose.Authorize? then
        var o := NewOp(binding, kind, presented, sys.shards[binding.accountId]);
        sys.(open := sys.open[id := Active(Some(binding.accountId), o, [], Start(o), false)])
      else
        sys.(open := sys.open[id := Unlocked(NewOp(binding, kind, presented, NOWHERE))])
    case Invoke(id, call, fault) =>
      var session := sys.open[id];
      if session.account.Some? && Releases(session, call, fault) then
        sys.(open := sys.open[id := Unlocked(Released(session.run.op))])
      else if session.account.Some? then sys.(open := sys.open[id := Later(env, session, call, fault)])
      else
        (match OwnerOf(sys, session.run.op.ctx, call)
         case Some(a) => sys.(open := sys.open[id := Locked(env, sys.shards[a], a, session.run.op, call, fault)])
         case None => sys.(open := sys.open[id := Unlocked(Step(env, session.run.op, call, fault).0)]))
    case Close(id, protocolErr, fault) =>
      var session := sys.open[id];
      var rest := sys.open - {id};
      if session.account.Some? && session.account.value in sys.shards then
        var a := session.account.value;
        System(sys.shards[a := Finish(session.run.op, sys.shards[a], protocolErr, fault).rows], rest)
      else sys.(open := rest)
    case Background(account, tr) =>
      System(sys.shards[account := Take(env, sys.shards[account], tr)],
             map id | id in sys.open :: Overtaken(sys.open[id], account, tr))
  }

  /**
    A call that changes rows of an account, or hands out a stored request, is one whose
    lookup finds that account, so that it locks it first. An authorization has locked its
    account from the start.
   */
  lemma UsersFind(env: Env, o: Op, call: Call, fault: bool)
    requires !o.ctx.binding.purpose.Authorize? && !call.RollbackSavepoint?
    ensures Step(env, o, call, fault).0.tx != o.tx || Step(env, o, call, fault).1.request.Some? ==> Finds(o.tx, o.ctx, call)
  {
    hide Hydrate, Encode, GrantOpen, WriteSnapshotMatches, InsertSession, ExtendRetention, ConsumeSession, RevokeSession,
      RevokeAccessTokens, RevokeFamily, RecordEvent, ProveCode, ProveAccess, ProveRefresh, StepCreateCode, StepCreatePkce,
      ConsentUsable, ConsumeConsentRow;
    if call.CreateCode? || call.CreatePkce? {
      CreateNeedsAuthorize(env, o, call, fault);
      RefusedChangesNothing(env, o, call, fault);
      OnlyReadsReturnRequests(env, o, call, fault);
    }
  }

  // ---- invariant -------------------------------------------------------------------

  /** No operation but an authorization gets the flags of one. */
  predicate NoApproval(o: Op) {
    && !o.ctx.binding.purpose.Authorize?
    && !o.flags.codeCreated && !o.flags.pkceCreated && o.flags.decision.None?
    && (o.flags.replayComplete ==> o.flags.replay.Some?)
  }

  /** An operation without an account, whether it had one before or not. */
  predicate Wandering(o: Op) {
    o.tx == NOWHERE && (o.savepoint.Some? ==> o.savepoint.value == NOWHERE) && NoApproval(o)
  }

  predicate ActiveInv(env: Env, shards: map<int, Shard>, s: Active) {
    match s.account
    case None => Wandering(s.run.op) && s == Unlocked(s.run.op)
    case Some(a) => a in shards && Opened(s.first, shards[a]) && s.run == Exec(env, Start(s.first), s.steps)
  }

  predicate SystemInv(env: Env, sys: System) {
    && (forall id :: id in sys.open ==> ActiveInv(env, sys.shards, sys.open[id]))
    && (forall i, j :: i in sys.open && j in sys.open && i != j && sys.open[i].account.Some? ==>
          sys.open[i].account != sys.open[j].account)
  }

  lemma CreateNeedsAuthorize(env: Env, o: Op, call: Call, fault: bool)
    requires !o.ctx.binding.purpose.Authorize? && (call.CreateCode? || call.CreatePkce?)
    ensures Step(env, o, call, fault).1.err != NoError
  {
    hide Encode, InsertGrant, InsertSession, LockGrant, WriteSnapshotMatches;
  }

  lemma StepKeepsNoApproval(env: Env, o: Op, call: Call, fault: bool)
    requires NoApproval(o)
    ensures NoApproval(Step(env, o, call, fault).0)
  {
    hide Step;
    StepFlags(env, o, call, fault);
    if call.CreateCode? || call.CreatePkce? { CreateNeedsAuthorize(env, o, call, fault); }
  }

  lemma {:induction false} ExecKeepsNoApproval(env: Env, t: Run, steps: Steps)
    requires NoApproval(t.op)
    ensures NoApproval(Exec(env, t, steps).op)
    decreases |steps|
  {
    hide NoApproval, Step;
    if steps != [] {
      StepKeepsNoApproval(env, t.op, steps[0].0, steps[0].1);
      ExecKeepsNoApproval(env, Advance(env, t, steps[0].0, steps[0].1), steps[1..]);
    }
  }

  /** An operation that gives up its account wanders again. */
  lemma ReleasedWanders(env: Env, shards: map<int, Shard>, session: Active)
    requires ActiveInv(env, shards, session) && session.account.Some?
    requires !session.run.op.ctx.binding.purpose.Authorize?
    ensures Wandering(Released(session.run.op))
  {
    hide Exec;
    SameContextAfter(env, Start(session.first), session.steps);
    ExecKeepsNoApproval(env, Start(session.first), session.steps);
  }

  /** An operation that finds nothing stays without effect. */
  lemma WanderingStays(env: Env, o: Op, call: Call, fault: bool)
    requires Wandering(o)
    ensures Wandering(Step(env, o, call, fault).0)
  {
    var e := Classify(env, o, call, fault);
    StepFlags(env, o, call, fault);
    NothingNowhere(env, o, e);
    hide Step, Allowed, Apply, NoApproval;
    StepKeepsNoApproval(env, o, call, fault);
  }

  lemma NothingNowhere(env: Env, o: Op, e: Effect)
    requires Wandering(o) && Allowed(env, o, e)
    ensures (e.Nothing? || e.Back?) && Apply(o, e) == NOWHERE
  {
    hide Validate;
  }

  lemma ExecSnoc(env: Env, t: Run, steps: Steps, step: (Call, bool))
    ensures Exec(env, t, steps + [step]) == Advance(env, Exec(env, t, steps), step.0, step.1)
  {
    ExecTwice(env, t, steps, [step]);
    assert [step][1..] == [];
    hide Advance;
  }

  // ---- one step is serial ------------------------------------------------------------

  /** The committed transition of an account that a step makes, if any. */
  function CommittedBy(sys: System, h: Happening): Option<(int, Transition)> {
    match h
    case Close(id, protocolErr, fault) =>
      if id in sys.open && sys.open[id].account.Some? then
        var s := sys.open[id];
        Some((s.account.value,
              Operation(s.first.ctx, s.first.flags, s.first.savepoint.Some?, s.steps, protocolErr, fault)))
      else None
    case Background(account, tr) => Some((account, tr))
    case _ => None
  }

  lemma InvokeKeepsActive(env: Env, sys: System, h: Happening)
    requires SystemInv(env, sys) && h.Invoke? && CanHappen(env, sys, h)
    ensures Next(env, sys, h).shards == sys.shards
    ensures ActiveInv(env, sys.shards, Next(env, sys, h).open[h.id])
    ensures var a := Next(env, sys, h).open[h.id].account;
      a.None? || a == sys.open[h.id].account || Free(sys, a.value)
  {
    hide Step, Advance, Finds;
    var s := sys.open[h.id];
    assert ActiveInv(env, sys.shards, s);
    if s.account.Some? && Releases(s, h.call, h.fault) {
      ReleasedWanders(env, sys.shards, s);
    } else if s.account.Some? {
      ExecSnoc(env, Start(s.first), s.steps, (h.call, h.fault));
    } else if OwnerOf(sys, s.run.op.ctx, h.call).None? {
      WanderingStays(env, s.run.op, h.call, h.fault);
    } else {
      var next := Next(env, sys, h).open[h.id];
      assert next.steps[1..] == [];
      assert Exec(env, Start(next.first), next.steps) == Exec(env, next.run, []);
    }
  }

  lemma OvertakenStaysActive(env: Env, shards: map<int, Shard>, session: Active, account: int, tr: Transition)
    requires ActiveInv(env, shards, session) && account in shards && !tr.Operation?
    requires session.account == Some(account) ==> Loose(tr) && Untouched(env, Start(session.first), session.steps, tr)
    ensures ActiveInv(env, shards[account := Take(env, shards[account], tr)], Overtaken(session, account, tr))
  {
    if session.account == Some(account) {
      LoosenedIsSame(shards[account], tr);
      RunCommutes(env, Start(session.first), session.steps, tr);
      assert Start(Refreshed(session.first, tr)) == RefreshedRun(Start(session.first), tr);
    }
    hide Exec, Loosened;
  }

  lemma BackgroundIsSerial(env: Env, sys: System, h: Happening)
    requires SystemInv(env, sys) && h.Background? && CanHappen(env, sys, h)
    ensures SystemInv(env, Next(env, sys, h))
    ensures Next(env, sys, h).shards == sys.shards[h.account := Take(env, sys.shards[h.account], h.transition)]
  {
    var next := Next(env, sys, h);
    hide Take, Exec, CanTake, Untouched, ActiveInv;
    forall id | id in sys.open
      ensures ActiveInv(env, next.shards, next.open[id]) && next.open[id].account == sys.open[id].account
    {
      OvertakenStaysActive(env, sys.shards, sys.open[id], h.account, h.transition);
    }
  }

  /** Every step leaves the committed rows alone, or makes one serial transition of one account. */
  lemma StepIsSerial(env: Env, sys: System, h: Happening)
    requires SystemInv(env, sys) && CanHappen(env, sys, h)
    ensures var next := Next(env, sys, h);
      && SystemInv(env, next)
      && match CommittedBy(sys, h)
         case None => next.shards == sys.shards
         case Some((a, tr)) =>
           a in sys.shards && CanTake(sys.shards[a], tr)
           && next.shards == sys.shards[a := Take(env, sys.shards[a], tr)]
  {
    hide Exec, Step, Finish, Advance, Finds, OwnerOf;
    match h
    case Open(_, _, _, _) => OpenIsSerial(env, sys, h);
    case Invoke(_, _, _) =>
      InvokeKeepsActive(env, sys, h);
    case Close(id, _, _) => CloseIsSerial(env, sys, h);
    case Background(_, _) => BackgroundIsSerial(env, sys, h);
  }

  lemma OpenIsSerial(env: Env, sys: System, h: Happening)
    requires SystemInv(env, sys) && h.Open? && CanHappen(env, sys, h)
    ensures SystemInv(env, Next(env, sys, h)) && Next(env, sys, h).shards == sys.shards
  {
    hide BindingAccepted;
  }

  lemma CloseIsSerial(env: Env, sys: System, h: Happening)
    requires SystemInv(env, sys) && h.Close? && CanHappen(env, sys, h)
    ensures SystemInv(env, Next(env, sys, h))
    ensures match CommittedBy(sys, h)
            case None => Next(env, sys, h).shards == sys.shards
            case Some((a, tr)) =>
              a in sys.shards && CanTake(sys.shards[a], tr)
              && Next(env, sys, h).shards == sys.shards[a := Take(env, sys.shards[a], tr)]
  {
    hide Exec, Finish;
    var s := sys.open[h.id];
    assert ActiveInv(env, sys.shards, s);
    if s.account.Some? {
      var tr := CommittedBy(sys, h).value.1;
      assert OpenOp(tr, sys.shards[s.account.value]) == s.first;
    }
  }

  // ---- whole interleavings -------------------------------------------------------------

  ghost predicate Interleaving(env: Env, sys: System, hs: seq<Happening>)
    decreases |hs|, 0
  {
    hs != [] ==>
      Interleaving(env, sys, hs[..|hs| - 1]) && CanHappen(env, SystemAfter(env, sys, hs[..|hs| - 1]), hs[|hs| - 1])
  }

  ghost function SystemAfter(env: Env, sys: System, hs: seq<Happening>): System
    requires Interleaving(env, sys, hs)
    decreases |hs|, 1
  {
    if hs == [] then sys else Next(env, SystemAfter(env, sys, hs[..|hs| - 1]), hs[|hs| - 1])
  }

  /** The committed transitions of one account, in commit order. */
  ghost function CommitOrder(env: Env, sys: System, hs: seq<Happening>, account: int): seq<Transition>
    requires Interleaving(env, sys, hs)
    decreases |hs|
  {
    if hs == [] then []
    else
      var p := hs[..|hs| - 1];
      var before := CommitOrder(env, sys, p, account);
      match CommittedBy(SystemAfter(env, sys, p), hs[|hs| - 1])
      case Some((a, tr)) => if a == account then before + [tr] else before
      case None => before
  }

  /** Two-phase locking on the account row makes every interleaving serial, account by account. */
  lemma {:induction false} Serializable(env: Env, sys: System, hs: seq<Happening>)
    requires Interleaving(env, sys, hs) && SystemInv(env, sys)
    ensures SystemInv(env, SystemAfter(env, sys, hs)) && SystemAfter(env, sys, hs).shards.Keys == sys.shards.Keys
    ensures forall a :: a in sys.shards ==>
      && Valid(env, sys.shards[a], CommitOrder(env, sys, hs, a))
      && SystemAfter(env, sys, hs).shards[a] == After(env, sys.shards[a], CommitOrder(env, sys, hs, a))
    decreases |hs|
  {
    hide SystemInv, Next, CanHappen, CommittedBy, Take, CanTake;
    if hs != [] {
      var p := hs[..|hs| - 1];
      Serializable(env, sys, p);
      var before := SystemAfter(env, sys, p);
      StepIsSerial(env, before, hs[|hs| - 1]);
      forall a | a in sys.shards
        ensures Valid(env, sys.shards[a], CommitOrder(env, sys, hs, a))
        ensures SystemAfter(env, sys, hs).shards[a] == After(env, sys.shards[a], CommitOrder(env, sys, hs, a))
      {
        var order := CommitOrder(env, sys, p, a);
        match CommittedBy(before, hs[|hs| - 1]) {
          case Some((b, tr)) =>
            assert (order + [tr])[..|order + [tr]| - 1] == order;
          case None =>
        }
      }
    }
  }

  /** So what holds of serial histories holds of every interleaving. */
  lemma InterleavedStatesAreSafe(env: Env, sys: System, hs: seq<Happening>, account: int)
    requires Interleaving(env, sys, hs) && SystemInv(env, sys) && account in sys.shards
    requires Good(env, sys.shards[account]) && OnePair(sys.shards[account])
    requires AllDisciplined(env, sys.shards[account], CommitOrder(env, sys, hs, account))
    ensures account in SystemAfter(env, sys, hs).shards
    ensures Good(env, SystemAfter(env, sys, hs).shards[account])
    ensures OnePair(SystemAfter(env, sys, hs).shards[account])
  {
    hide Good, OnePair, AllDisciplined, Valid, After, SystemInv;
    Serializable(env, sys, hs);
    AlwaysGood(env, sys.shards[account], CommitOrder(env, sys, hs, account));
    OnePairForever(env, sys.shards[account], CommitOrder(env, sys, hs, account));
  }

  /** A driver may roll back the savepoint in which it locked its account: the account is free again at once. */
  lemma RollbackFreesAccount(env: Env, sys: System, id: int, account: int)
    requires SystemInv(env, sys) && id in sys.open && sys.open[id].account == Some(account)
    requires Releases(sys.open[id], RollbackSavepoint, false) && !sys.open[id].run.op.ctx.binding.purpose.Authorize?
    ensures CanHappen(env, sys, Invoke(id, RollbackSavepoint, false))
    ensures Free(Next(env, sys, Invoke(id, RollbackSavepoint, false)), account)
  {
    hide Exec, ActiveInv;
  }

  // ---- a logout beside an open operation -----------------------------------------------

  /** A logout commits beside an operation that has only begun, and the operation sees it. */
  lemma LogoutOvertakes(env: Env, sys: System, id: int, account: int, session: string, handle: string, at: Time)
    requires SystemInv(env, sys) && id in sys.open && account in sys.shards
    requires sys.open[id].account == Some(account) && sys.open[id].steps == []
    ensures CanHappen(env, sys, Background(account, Logout(session)))
    ensures !ConsentUsable(Next(env, sys, Background(account, Logout(session))).open[id].run.op.tx, handle, session, at)
  {
    var h := Background(account, Logout(session));
    assert LocksNone(env, sys, account, h.transition);
    var next := Next(env, sys, h);
    assert next.open[id] == Overtaken(sys.open[id], account, h.transition);
    hide Exec, ActiveInv;
  }

  lemma {:induction false} WaitedFor(env: Env, t: Run, steps: Steps, tr: Transition, i: nat)
    requires i < |steps| && Waits(Exec(env, t, steps[..i]).op, tr, steps[i].0, steps[i].1)
    ensures !Untouched(env, t, steps, tr)
    decreases |steps|
  {
    hide Waits, Advance;
    if i > 0 {
      assert steps[..i][0] == steps[0] && steps[..i][1..] == steps[1..][..i - 1];
      WaitedFor(env, Advance(env, t, steps[0].0, steps[0].1), steps[1..], tr, i - 1);
    }
  }

  /**
    It waits if any call of the operation has found its consent, and so locked consent and
    session: until the operation ends, no logout or cleanup that changes either row commits.
   */
  lemma LockedRowsWait(env: Env, sys: System, id: int, account: int, tr: Transition, i: nat)
    requires id in sys.open && sys.open[id].account == Some(account) && i < |sys.open[id].steps|
    requires
      var session := sys.open[id];
      Waits(Exec(env, Start(session.first), session.steps[..i]).op, tr, session.steps[i].0, session.steps[i].1)
    ensures !CanHappen(env, sys, Background(account, tr))
  {
    hide Exec, Waits;
    WaitedFor(env, Start(sys.open[id].first), sys.open[id].steps, tr, i);
  }

  // ---- the other lifetimes over interleavings --------------------------------------------

  /** A dead family stays dead over every interleaving. */
  lemma InterleavedSilence(env: Env, sys: System, hs: seq<Happening>, account: int, requestId: string)
    requires Interleaving(env, sys, hs) && SystemInv(env, sys) && account in sys.shards
    requires Good(env, sys.shards[account]) && Silent(sys.shards[account], requestId)
    requires !HistoryReissues(CommitOrder(env, sys, hs, account), requestId)
    ensures account in SystemAfter(env, sys, hs).shards && Silent(SystemAfter(env, sys, hs).shards[account], requestId)
  {
    Serializable(env, sys, hs);
    SilentForever(env, sys.shards[account], CommitOrder(env, sys, hs, account), requestId);
  }

  /** The answer of a call: it looks among the rows of the account it holds, or of the one it finds. */
  ghost function AnswerOf(env: Env, sys: System, id: int, call: Call, fault: bool): Answer
    requires id in sys.open
  {
    var session := sys.open[id];
    var owner := OwnerOf(sys, session.run.op.ctx, call);
    if session.account.None? && owner.Some? && owner.value in sys.shards then
      Step(env, Locked(env, sys.shards[owner.value], owner.value, session.run.op, call, fault).first, call, fault).1
    else Step(env, session.run.op, call, fault).1
  }

  /** The answer is that of the call's place among the calls since the lock. */
  lemma AnswerIsStep(env: Env, sys: System, id: int, call: Call, fault: bool, account: int)
    requires SystemInv(env, sys) && CanHappen(env, sys, Invoke(id, call, fault))
    requires Next(env, sys, Invoke(id, call, fault)).open[id].account == Some(account)
    ensures account in sys.shards
    ensures
      var next := Next(env, sys, Invoke(id, call, fault)).open[id];
      && Opened(next.first, sys.shards[account]) && next.steps == sys.open[id].steps + [(call, fault)]
      && AnswerOf(env, sys, id, call, fault) == Step(env, Exec(env, Start(next.first), sys.open[id].steps).op, call, fault).1
  {
    hide Step, Advance, Finds;
    var session := sys.open[id];
    assert ActiveInv(env, sys.shards, session);
    if session.account.Some? {
      hide Exec;
    }
  }

  /** In any later state of any interleaving, no call of an open operation reads a credential of a dead family. */
  lemma InterleavedUnreadable(
    env: Env, sys: System, hs: seq<Happening>, account: int, requestId: string, later: System,
    id: int, call: Call, fault: bool)
    requires SystemInv(env, sys) && account in sys.shards && LeadsTo(env, sys, hs, later)
    requires Good(env, sys.shards[account]) && Silent(sys.shards[account], requestId)
    requires !HistoryReissues(CommitOrder(env, sys, hs, account), requestId)
    requires CanHappen(env, later, Invoke(id, call, fault)) && !Reissues(later.open[id].steps, requestId)
    requires Next(env, later, Invoke(id, call, fault)).open[id].account == Some(account)
    ensures AnswerOf(env, later, id, call, fault).request.Some? ==>
            AnswerOf(env, later, id, call, fault).request.value.id != requestId
  {
    var first, steps := Next(env, later, Invoke(id, call, fault)).open[id].first, later.open[id].steps;
    hide Good, Silent, SystemInv, CanHappen, Next, AnswerOf, Opened, Step, Exec, Reissues, HistoryReissues;
    InterleavedSilence(env, sys, hs, account, requestId);
    ReachedIsGood(env, sys, hs, later, account);
    AnswerIsStep(env, later, id, call, fault, account);
    SilentIsUnreadable(env, later.shards[account], first, steps, call, fault, requestId);
  }

  predicate RemakesIn(h: seq<Transition>, k: Key) {
    exists i :: 0 <= i < |h| && h[i].Operation? && Remakes(h[i].steps, k)
  }

  /** A consumed credential stays consumed, or goes with its family. */
  lemma InterleavedUse(env: Env, sys: System, hs: seq<Happening>, account: int, k: Key)
    requires Interleaving(env, sys, hs) && SystemInv(env, sys) && account in sys.shards
    requires Good(env, sys.shards[account]) && UsedUp(sys.shards[account], k)
    requires !RemakesIn(CommitOrder(env, sys, hs, account), k)
    ensures account in SystemAfter(env, sys, hs).shards && UsedUp(SystemAfter(env, sys, hs).shards[account], k)
  {
    Serializable(env, sys, hs);
    var h := CommitOrder(env, sys, hs, account);
    assert After(env, sys.shards[account], h[..0]) == sys.shards[account];
    hide Take, CanTake, Good;
    UsedUpForever(env, sys.shards[account], h, 0, k);
  }

  /** A consent is gone or keeps its session, request, expiry and consumption. */
  lemma InterleavedConsents(env: Env, sys: System, hs: seq<Happening>, account: int, handle: string)
    requires Interleaving(env, sys, hs) && SystemInv(env, sys) && account in sys.shards && Good(env, sys.shards[account])
    requires !BindsAfter(CommitOrder(env, sys, hs, account), 0, handle)
    ensures account in SystemAfter(env, sys, hs).shards
    ensures GoneOrGrown(sys.shards[account], SystemAfter(env, sys, hs).shards[account], handle)
  {
    Serializable(env, sys, hs);
    var h := CommitOrder(env, sys, hs, account);
    assert After(env, sys.shards[account], h[..0]) == sys.shards[account];
    hide Take, CanTake, Good;
    ConsentNeverChanges(env, sys.shards[account], h, 0, handle);
  }

  /** The interleaving is possible and ends there. */
  ghost predicate LeadsTo(env: Env, sys: System, hs: seq<Happening>, end: System) {
    Interleaving(env, sys, hs) && end == SystemAfter(env, sys, hs)
  }

  /** From one system to the next the credential is consumed, or goes with its family. */
  predicate Consumes(before: System, after: System, account: int, k: Key) {
    && account in before.shards && account in after.shards
    && !UsedUp(before.shards[account], k) && UsedUp(after.shards[account], k)
  }

  lemma ReachedIsGood(env: Env, sys: System, hs: seq<Happening>, end: System, account: int)
    requires SystemInv(env, sys) && account in sys.shards && Good(env, sys.shards[account]) && LeadsTo(env, sys, hs, end)
    ensures SystemInv(env, end) && account in end.shards && Good(env, end.shards[account])
  {
    Serializable(env, sys, hs);
    AlwaysGood(env, sys.shards[account], CommitOrder(env, sys, hs, account));
  }

  lemma UsedUpStays(env: Env, sys: System, hs: seq<Happening>, end: System, account: int, k: Key)
    requires SystemInv(env, sys) && account in sys.shards && Good(env, sys.shards[account]) && LeadsTo(env, sys, hs, end)
    requires UsedUp(sys.shards[account], k) && !RemakesIn(CommitOrder(env, sys, hs, account), k)
    ensures account in end.shards && UsedUp(end.shards[account], k)
  {
    InterleavedUse(env, sys, hs, account, k);
  }

  /**
    Over any interleaving a code, PKCE row or refresh token is consumed at most once,
    unless it is issued again in between: if what leads from `start` to `before`, one
    happening to `after`, and then more to `later`, consumes it on the way to `after`,
    nothing that happens to `later` consumes it again.
   */
  lemma InterleavedConsumedOnce(
    env: Env, start: System, first: seq<Happening>, before: System, h: Happening, after: System,
    rest: seq<Happening>, later: System, last: System, account: int, k: Key)
    requires SystemInv(env, start) && account in start.shards && Good(env, start.shards[account])
    requires LeadsTo(env, start, first, before) && LeadsTo(env, before, [h], after) && LeadsTo(env, after, rest, later)
    requires !RemakesIn(CommitOrder(env, after, rest, account), k)
    requires Consumes(before, after, account, k)
    ensures !Consumes(later, last, account, k)
  {
    hide LeadsTo, SystemInv, Good, UsedUp, RemakesIn;
    ReachedIsGood(env, start, first, before, account);
    ReachedIsGood(env, before, [h], after, account);
    UsedUpStays(env, after, rest, later, account, k);
  }
}
