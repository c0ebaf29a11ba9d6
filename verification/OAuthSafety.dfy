/**
  How an operation can end, for every driver: what a commit means for each
  purpose, what a replay leaves behind, and where a rolled-back savepoint
  breaks the promise.
 */
module OAuthSafety {
  import opened Prelude
  import opened RequestCodec
  import opened OAuthTables
  import opened OAuthOperation
  import opened OAuthEffects
  import opened OAuthInvariants
  import opened OAuthRuns

  /** One whole operation on the committed rows s0. */
  function Operate(env: Env, s0: Shard, o: Op, steps: Steps, protocolErr: Error, fault: bool): Finished {
    Finish(Exec(env, Start(o), steps).op, s0, protocolErr, fault)
  }

  lemma OperationInv(env: Env, s0: Shard, o: Op, steps: Steps)
    requires Opened(o, s0) && Good(env, s0)
    ensures RunInv(env, s0, Exec(env, Start(o), steps)) && Exec(env, Start(o), steps).op.ctx == o.ctx
  {
    StartInv(env, o, s0);
    ExecInv(env, s0, Start(o), steps);
  }

  // ---- every purpose -----------------------------------------------------------

  /** All or nothing, and what is committed is a good continuation of what was there. */
  lemma OperationIsAtomic(env: Env, s0: Shard, o: Op, steps: Steps, protocolErr: Error, fault: bool)
    requires Opened(o, s0) && Good(env, s0)
    ensures var f := Operate(env, s0, o, steps, protocolErr, fault);
      && (f.outcome.RolledBack? ==> f.rows == s0)
      && (!f.outcome.RolledBack? ==> !f.failed && f.rows == Exec(env, Start(o), steps).op.tx)
      && Good(env, f.rows) && Within(s0, f.rows)
  {
    hide RunInv, Within, Good, Opened;
    OperationInv(env, s0, o, steps);
    InvTables(env, s0, Exec(env, Start(o), steps));
    InvGood(env, s0, Exec(env, Start(o), steps));
    SameWithin(s0);
  }

  lemma InvGood(env: Env, s0: Shard, t: Run)
    requires RunInv(env, s0, t)
    ensures Good(env, t.op.tx) && ByPurpose(t.op.ctx, s0, t.op.tx) && KeptExact(s0, t.op.tx, t.kept)
    ensures Audit(t.op.flags, s0, t.op.tx, t.kept.audited)
  {
    hide Within, Good, KeptExact, ByPurpose, Audit, ReplayFixed;
  }

  lemma InvFlags(env: Env, s0: Shard, t: Run)
    requires RunInv(env, s0, t)
    ensures ReplayFixed(env, s0, t.op) && Within(s0, t.op.tx)
    ensures t.op.ctx.binding.purpose.Authorize? ==> t.op.ctx.authorizeEpoch == s0.epoch
    ensures !t.rolledBack ==> FlagsMatch(t.op.flags, t.kept)
    ensures t.op.flags.replay.Some? ==> t.op.ctx.binding.purpose.TokenExchange?
    ensures t.op.flags.decision.Some? ==> t.op.ctx.binding.purpose.Authorize?
  {
    hide Within, Good, KeptExact, ByPurpose, Audit, ReplayFixed;
  }

  lemma IntrospectionChangesNothing(env: Env, s0: Shard, o: Op, steps: Steps, protocolErr: Error, fault: bool)
    requires Opened(o, s0) && Good(env, s0) && o.ctx.binding.purpose.Introspection?
    ensures Operate(env, s0, o, steps, protocolErr, fault).rows == s0
  {
    OperationInv(env, s0, o, steps);
    InvGood(env, s0, Exec(env, Start(o), steps));
  }

  lemma RevocationIssuesNothing(env: Env, s0: Shard, o: Op, steps: Steps, protocolErr: Error, fault: bool)
    requires Opened(o, s0) && Good(env, s0) && o.ctx.binding.purpose.Revocation?
    ensures var rows := Operate(env, s0, o, steps, protocolErr, fault).rows;
      NothingIssued(s0, rows) && rows.consents == s0.consents
  {
    OperationInv(env, s0, o, steps);
    InvGood(env, s0, Exec(env, Start(o), steps));
  }

  // ---- authorization -------------------------------------------------------------

  predicate NewRow(s0: Shard, t: Shard, k: Key) { k in t.creds && k !in s0.creds }

  predicate Spent(s0: Shard, t: Shard, h: string) {
    h in s0.consents && h in t.consents && !s0.consents[h].consumed && t.consents[h].consumed
  }

  /** A new code and a new PKCE row of one new grant, which is at the current epoch. */
  predicate NewPair(s0: Shard, t: Shard, c: Key, p: Key) {
    && NewRow(s0, t, c) && c.kind.Code? && NewRow(s0, t, p) && p.kind.Pkce?
    && t.creds[c].requestId == t.creds[p].requestId
    && t.creds[c].requestId in t.grants && t.creds[c].requestId !in s0.grants
    && t.grants[t.creds[c].requestId].accountEpoch == t.epoch
  }

  /** Consent consumed, and a code with its own grant and its own PKCE row: all present. */
  ghost predicate Approved(s0: Shard, t: Shard) {
    (exists h :: Spent(s0, t, h)) && exists c, p :: NewPair(s0, t, c, p)
  }

  /** A code and a PKCE row of one request, and a consumed consent, survived the savepoints. */
  ghost predicate PairKept(k: Kept) {
    exists c, p :: c in k.codes && p in k.pkces && k.codes[c] == k.pkces[p]
  }

  lemma KeptIsApproved(env: Env, s0: Shard, t: Run, c: string, p: string, h: string)
    requires RunInv(env, s0, t) && t.op.ctx.binding.purpose.Authorize?
    requires c in t.kept.codes && p in t.kept.pkces && t.kept.codes[c] == t.kept.pkces[p] && h in t.kept.spent
    ensures Approved(s0, t.op.tx)
  {
    InvGood(env, s0, t);
    InvFlags(env, s0, t);
    hide *;
    KeptPair(env, t.op.ctx, s0, t.op.tx, t.kept, c, p);
    KeptSpent(s0, t.op.tx, t.kept, h);
    PairApproves(s0, t.op.tx, Key(Code, c), Key(Pkce, p), h);
  }

  lemma PairApproves(s0: Shard, t: Shard, c: Key, p: Key, h: string)
    requires NewPair(s0, t, c, p) && Spent(s0, t, h)
    ensures Approved(s0, t)
  {
  }

  lemma KeptSpent(s0: Shard, t: Shard, k: Kept, h: string)
    requires KeptExact(s0, t, k)
    ensures h in k.spent <==> Spent(s0, t, h)
  {
  }

  lemma KeptPair(env: Env, ctx: Context, s0: Shard, t: Shard, k: Kept, c: string, p: string)
    requires Good(env, t) && Within(s0, t) && KeptExact(s0, t, k) && ByPurpose(ctx, s0, t)
    requires ctx.binding.purpose.Authorize? && ctx.authorizeEpoch == s0.epoch
    requires c in k.codes && p in k.pkces && k.codes[c] == k.pkces[p]
    ensures NewPair(s0, t, Key(Code, c), Key(Pkce, p))
  {
    var code := Key(Code, c);
    assert code in t.creds && code !in s0.creds;
    assert RowMatches(env, t, code, t.creds[code]);
    RowHasGrant(env, t, code);
    assert t.epoch == s0.epoch;
    hide Good, Grows, RowMatches, Within;
  }

  lemma ApprovedIsKept(s0: Shard, rows: Shard, k: Kept)
    requires KeptExact(s0, rows, k) && Approved(s0, rows)
    ensures PairKept(k) && k.spent != {}
  {
    var c, p :| NewPair(s0, rows, c, p);
    var h :| Spent(s0, rows, h);
    assert c == Key(Code, c.signature) && p == Key(Pkce, p.signature);
    assert c.signature in k.codes && p.signature in k.pkces && h in k.spent;
  }

  lemma ApprovedIffKept(env: Env, s0: Shard, t: Run)
    requires RunInv(env, s0, t) && t.op.ctx.binding.purpose.Authorize?
    ensures Approved(s0, t.op.tx) <==> PairKept(t.kept) && t.kept.spent != {}
    ensures (exists h :: Spent(s0, t.op.tx, h)) <==> t.kept.spent != {}
  {
    InvGood(env, s0, t);
    hide RunInv;
    if Approved(s0, t.op.tx) {
      ApprovedIsKept(s0, t.op.tx, t.kept);
    }
    if t.kept.spent != {} {
      var h :| h in t.kept.spent;
      assert Spent(s0, t.op.tx, h);
      if PairKept(t.kept) {
        var c, p :| c in t.kept.codes && p in t.kept.pkces && t.kept.codes[c] == t.kept.pkces[p];
        KeptIsApproved(env, s0, t, c, p, h);
      }
    }
  }

  /** Every code and PKCE creation names this request. */
  predicate NamesOnly(steps: Steps, requestId: string) {
    forall i :: 0 <= i < |steps| ==>
      && (steps[i].0.CreateCode? ==> steps[i].0.request.id == requestId)
      && (steps[i].0.CreatePkce? ==> steps[i].0.request.id == requestId)
  }

  predicate KeptOnly(k: Kept, requestId: string) {
    (forall c :: c in k.codes ==> k.codes[c] == requestId) && (forall p :: p in k.pkces ==> k.pkces[p] == requestId)
  }

  lemma {:induction false} OneRequestKept(env: Env, t: Run, steps: Steps, requestId: string)
    requires NamesOnly(steps, requestId) && KeptOnly(t.kept, requestId) && KeptOnly(t.saved, requestId)
    ensures KeptOnly(Exec(env, t, steps).kept, requestId)
    decreases |steps|
  {
    hide Step;
    if steps != [] {
      var next := Advance(env, t, steps[0].0, steps[0].1);
      assert KeptOnly(next.kept, requestId) && KeptOnly(next.saved, requestId);
      assert forall i :: 0 <= i < |steps[1..]| ==> steps[1..][i] == steps[i + 1];
      hide KeptOnly;
      OneRequestKept(env, next, steps[1..], requestId);
    }
  }

  lemma OneRequestPairs(k: Kept, requestId: string)
    requires KeptOnly(k, requestId) && k.codes != map[] && k.pkces != map[]
    ensures PairKept(k)
  {
    var c :| c in k.codes;
    var p :| p in k.pkces;
    assert k.codes[c] == k.pkces[p];
  }

  /**
    The three endings of an authorization. A commit is an approval exactly when
    a consumed consent and a code and a PKCE row of one request survived every
    savepoint rollback.
   */
  lemma AuthorizeEndings(env: Env, s0: Shard, o: Op, steps: Steps, protocolErr: Error, fault: bool)
    requires Opened(o, s0) && Good(env, s0) && o.ctx.binding.purpose.Authorize?
    ensures var f := Operate(env, s0, o, steps, protocolErr, fault);
      var t := Exec(env, Start(o), steps);
      && !f.outcome.ReplayCommitted?
      && (f.outcome.RolledBack? ==> f.rows == s0)
      && (f.outcome.Committed? ==>
            && t.op.flags.decision == Some(Approve)
            && (Approved(s0, f.rows) <==> PairKept(t.kept) && t.kept.spent != {})
            && (!t.rolledBack ==> t.kept.codes != map[] && t.kept.pkces != map[] && t.kept.spent != {}))
      && (f.outcome.DeniedCommitted? ==>
            && t.op.flags.decision == Some(Deny) && NothingIssued(s0, f.rows)
            && ((exists h :: Spent(s0, f.rows, h)) <==> t.kept.spent != {})
            && (!t.rolledBack ==> exists h :: Spent(s0, f.rows, h)))
  {
    var t := Exec(env, Start(o), steps);
    OperationInv(env, s0, o, steps);
    assert t.op.ctx == o.ctx;
    assert Operate(env, s0, o, steps, protocolErr, fault) == Finish(t.op, s0, protocolErr, fault);
    hide *;
    ApprovedIffKept(env, s0, t);
    InvFlags(env, s0, t);
    AuthorizeAudit(env, s0, t);
    AuthorizePolicy(t.op, s0, protocolErr, fault);
    if !t.rolledBack { FlagsSay(t.op.flags, t.kept); }
  }

  lemma FlagsSay(f: Flags, k: Kept)
    requires FlagsMatch(f, k)
    ensures f.codeCreated ==> k.codes != map[]
    ensures f.pkceCreated ==> k.pkces != map[]
    ensures f.decision.Some? ==> k.spent != {}
  {
  }

  lemma AuthorizeAudit(env: Env, s0: Shard, t: Run)
    requires RunInv(env, s0, t)
    ensures !t.op.flags.issuanceAttempted ==> NothingIssued(s0, t.op.tx)
  {
    InvGood(env, s0, t);
    hide RunInv, NothingIssued;
  }

  /** The commit policy for an authorization. */
  lemma AuthorizePolicy(o: Op, s0: Shard, protocolErr: Error, fault: bool)
    requires o.ctx.binding.purpose.Authorize? && o.flags.replay.None?
    ensures var f := Finish(o, s0, protocolErr, fault);
      && !f.outcome.ReplayCommitted?
      && (f.outcome.RolledBack? ==> f.rows == s0)
      && (!f.outcome.RolledBack? ==> f.rows == o.tx)
      && (f.outcome.Committed? ==> o.flags.decision == Some(Approve) && o.flags.codeCreated && o.flags.pkceCreated)
      && (f.outcome.DeniedCommitted? ==> o.flags.decision == Some(Deny) && !o.flags.issuanceAttempted)
  {
  }

  /** A driver that rolls no savepoint back and names one request throughout always commits a full approval. */
  lemma OneRequestApproves(env: Env, s0: Shard, o: Op, steps: Steps, protocolErr: Error, fault: bool, requestId: string)
    requires Opened(o, s0) && Good(env, s0) && o.ctx.binding.purpose.Authorize?
    requires Operate(env, s0, o, steps, protocolErr, fault).outcome.Committed?
    requires !Exec(env, Start(o), steps).rolledBack && NamesOnly(steps, requestId)
    ensures Approved(s0, Operate(env, s0, o, steps, protocolErr, fault).rows)
  {
    AuthorizeEndings(env, s0, o, steps, protocolErr, fault);
    OneRequestKept(env, Start(o), steps, requestId);
    hide Exec, Approved, Operate, Good, Opened;
    OneRequestPairs(Exec(env, Start(o), steps).kept, requestId);
  }

  // ---- replay --------------------------------------------------------------------

  /** The family is dead, its one event is on record, and nothing was issued. */
  predicate ReplayHandled(s0: Shard, t: Shard, replay: Replay) {
    && FamilyRevoked(t, replay.requestId)
    && t.events == s0.events + [Event(replay.requestId, replay.kind)]
    && NothingIssued(s0, t)
  }

  /** The commit policy on the flags of a run that noted a replay. */
  lemma ReplayPolicy(o: Op, s0: Shard, protocolErr: Error, fault: bool)
    requires o.flags.replay.Some? ==> !o.ctx.binding.purpose.Authorize?
    requires o.flags.replay.Some? ==> o.flags.decision.None?
    ensures var f := Finish(o, s0, protocolErr, fault);
      && (o.flags.replay.Some? ==>
            (f.outcome.RolledBack? && f.failed && f.rows == s0) || f.outcome.ReplayCommitted?)
      && (f.outcome.ReplayCommitted? ==>
            o.flags.replay.Some? && o.flags.replayComplete && !o.flags.issuanceAttempted && f.rows == o.tx)
  {
  }

  /**
    A detected replay ends in one of two ways: a reported failure with all tables
    as they were, or a commit that issues nothing. The commit carries the revoked
    family and its event exactly when the revocation survived the savepoints.
   */
  lemma ReplayEndings(env: Env, s0: Shard, o: Op, steps: Steps, protocolErr: Error, fault: bool)
    requires Opened(o, s0) && Good(env, s0)
    ensures var f := Operate(env, s0, o, steps, protocolErr, fault);
      var t := Exec(env, Start(o), steps);
      && (t.op.flags.replay.Some? ==>
            (f.outcome.RolledBack? && f.failed && f.rows == s0) || f.outcome.ReplayCommitted?)
      && (f.outcome.ReplayCommitted? ==>
            && t.op.flags.replay.Some?
            && PresentedKey(env, o) in s0.creds
            && s0.creds[PresentedKey(env, o)].requestId == t.op.flags.replay.value.requestId
            && NothingIssued(s0, f.rows)
            && (ReplayHandled(s0, f.rows, t.op.flags.replay.value) <==> t.kept.audited)
            && (!t.rolledBack ==> t.kept.audited))
  {
    hide RunInv, Within, Good, ByPurpose, KeptExact, NothingIssued, FamilyRevoked, Exec, Finish;
    var t := Exec(env, Start(o), steps);
    OperationInv(env, s0, o, steps);
    InvGood(env, s0, t);
    InvFlags(env, s0, t);
    ReplayPolicy(t.op, s0, protocolErr, fault);
    if t.op.flags.replay.Some? {
      var event := Event(t.op.flags.replay.value.requestId, t.op.flags.replay.value.kind);
      assert |s0.events + [event]| != |s0.events + []|;
    }
  }
}
