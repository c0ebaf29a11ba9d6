/**
  The token pair of a grant. A well-behaved exchange consumes one code or one
  refresh token, then issues one access and one refresh token for the same
  grant; under that discipline a grant never has two live tokens of a kind.
 */
module OAuthExchange {
  import opened Prelude
  import opened RequestCodec
  import opened OAuthTables
  import opened OAuthOperation
  import opened OAuthEffects
  import opened OAuthInvariants
  import opened OAuthRuns
  import opened OAuthSafety
  import opened OAuthHistory

  /** A live credential that can be exchanged for tokens. */
  predicate LiveBaton(s: Shard, k: Key) { k in s.creds && (k.kind.Code? || k.kind.Refresh?) && Live(s.creds[k]) }

  predicate LiveAccess(s: Shard, k: Key) { k in s.creds && k.kind.Access? && Live(s.creds[k]) }

  /** At most one live code or refresh token and one live access token per grant; no access token beside a live code. */
  ghost predicate OnePair(s: Shard) {
    && (forall k, l :: LiveBaton(s, k) && LiveBaton(s, l) && s.creds[k].requestId == s.creds[l].requestId ==> k == l)
    && (forall k, l :: LiveAccess(s, k) && LiveAccess(s, l) && s.creds[k].requestId == s.creds[l].requestId ==> k == l)
    && (forall k, l :: LiveBaton(s, k) && k.kind.Code? && LiveAccess(s, l) ==> s.creds[k].requestId != s.creds[l].requestId)
  }

  ghost predicate NoBaton(s: Shard, requestId: string) {
    forall k :: LiveBaton(s, k) ==> s.creds[k].requestId != requestId
  }

  ghost predicate NoAccess(s: Shard, requestId: string) {
    forall k :: LiveAccess(s, k) ==> s.creds[k].requestId != requestId
  }

  // ---- the discipline -----------------------------------------------------------

  datatype Phase = Ready | Taken(requestId: string) | Accessed(requestId: string) | Complete | Astray

  function NextPhase(o: Op, call: Call, ok: bool, p: Phase): Phase {
    if !ok then p
    else
      match call
      case InvalidateCode(signature) =>
        if p.Ready? && Key(Code, signature) in o.tx.creds then Taken(o.tx.creds[Key(Code, signature)].requestId) else Astray
      case Rotate(requestId, _) => if p.Ready? then Taken(requestId) else Astray
      case CreateAccess(_, r, _) => if p == Taken(r.id) then Accessed(r.id) else Astray
      case CreateRefresh(_, _, r, _) => if p == Accessed(r.id) then Complete else Astray
      case RollbackSavepoint => Astray
      case _ => p
  }

  function Phases(env: Env, t: Run, steps: Steps, p: Phase): Phase
    decreases |steps|
  {
    if steps == [] then p
    else
      var ok := Step(env, t.op, steps[0].0, steps[0].1).1.err == NoError;
      Phases(env, Advance(env, t, steps[0].0, steps[0].1), steps[1..], NextPhase(t.op, steps[0].0, ok, p))
  }

  ghost predicate InPhase(s: Shard, p: Phase) {
    && OnePair(s)
    && (p.Taken? ==> NoBaton(s, p.requestId) && NoAccess(s, p.requestId))
    && (p.Accessed? ==> NoBaton(s, p.requestId))
  }

  // ---- effects -------------------------------------------------------------------

  /** Marking rows only ever takes live tokens away. */
  lemma FewerLive(s: Shard, t: Shard, p: Phase)
    requires Grows(s, t) && t.creds.Keys == s.creds.Keys && InPhase(s, p)
    ensures InPhase(t, p)
  {
    assert forall k :: LiveBaton(t, k) ==> LiveBaton(s, k) && t.creds[k].requestId == s.creds[k].requestId;
    assert forall k :: LiveAccess(t, k) ==> LiveAccess(s, k) && t.creds[k].requestId == s.creds[k].requestId;
  }

  /** Every live token of t is one of s, or the row k. */
  ghost predicate LiveBut(s: Shard, t: Shard, k: Key) {
    && (forall l :: LiveBaton(t, l) && l != k ==> LiveBaton(s, l) && t.creds[l].requestId == s.creds[l].requestId)
    && (forall l :: LiveAccess(t, l) && l != k ==> LiveAccess(s, l) && t.creds[l].requestId == s.creds[l].requestId)
    && !(LiveBaton(t, k) && LiveAccess(t, k))
    && (LiveBaton(t, k) ==> k.kind.Code? || k.kind.Refresh?)
  }

  lemma ConsumedIsLiveBut(s: Shard, k: Key)
    requires LiveBaton(s, k)
    ensures var t := ConsumeSession(s, k).0;
      LiveBut(s, t, k) && !LiveBaton(t, k) && !LiveAccess(t, k) && k in t.creds
  {
  }

  lemma BatonTaken(s: Shard, t: Shard, k: Key)
    requires OnePair(s) && LiveBaton(s, k) && LiveBut(s, t, k) && !LiveBaton(t, k) && !LiveAccess(t, k)
    ensures OnePair(t) && NoBaton(t, s.creds[k].requestId)
    ensures k.kind.Code? ==> NoAccess(t, s.creds[k].requestId)
  {
    hide LiveBaton, LiveAccess;
    assert forall l :: LiveBaton(t, l) ==> l != k;
  }

  lemma ConsumeTakesBaton(s: Shard, k: Key)
    requires OnePair(s) && LiveBaton(s, k) && k.kind.Code?
    ensures InPhase(ConsumeSession(s, k).0, Taken(s.creds[k].requestId))
  {
    hide OnePair, NoBaton, NoAccess, LiveBut, LiveBaton, LiveAccess, ConsumeSession;
    ConsumedIsLiveBut(s, k);
    BatonTaken(s, ConsumeSession(s, k).0, k);
  }

  /** Revoking the access tokens of a request leaves other live tokens as they are. */
  lemma AccessRevoked(s: Shard, requestId: string)
    ensures var t := RevokeAccessTokens(s, requestId);
      && (forall l :: LiveBaton(t, l) ==> LiveBaton(s, l) && t.creds[l].requestId == s.creds[l].requestId)
      && (forall l :: LiveAccess(t, l) ==> LiveAccess(s, l) && t.creds[l].requestId == s.creds[l].requestId)
      && NoAccess(t, requestId)
  {
  }

  lemma FewerKeepPair(s: Shard, t: Shard)
    requires OnePair(s)
    requires forall l :: LiveBaton(t, l) ==> LiveBaton(s, l) && t.creds[l].requestId == s.creds[l].requestId
    requires forall l :: LiveAccess(t, l) ==> LiveAccess(s, l) && t.creds[l].requestId == s.creds[l].requestId
    ensures OnePair(t)
    ensures forall requestId :: NoBaton(s, requestId) ==> NoBaton(t, requestId)
  {
    hide LiveBaton, LiveAccess;
  }

  lemma SwapTakesBaton(s: Shard, k: Key)
    requires OnePair(s) && LiveBaton(s, k) && k.kind.Refresh?
    ensures InPhase(RevokeAccessTokens(ConsumeSession(s, k).0, s.creds[k].requestId), Taken(s.creds[k].requestId))
  {
    var requestId, t := s.creds[k].requestId, ConsumeSession(s, k).0;
    hide OnePair, NoBaton, NoAccess, LiveBut, LiveBaton, LiveAccess, ConsumeSession, RevokeAccessTokens;
    ConsumedIsLiveBut(s, k);
    BatonTaken(s, t, k);
    AccessRevoked(t, requestId);
    FewerKeepPair(t, RevokeAccessTokens(t, requestId));
  }

  lemma InsertIsLiveBut(s: Shard, t: Shard, k: Key)
    requires k !in s.creds && t.creds.Keys == s.creds.Keys + {k}
    requires forall l :: l in s.creds ==> t.creds[l] == s.creds[l]
    ensures LiveBut(s, t, k)
    ensures LiveBaton(t, k) ==> k.kind.Code? || k.kind.Refresh?
    ensures LiveAccess(t, k) ==> k.kind.Access?
  {
  }

  lemma AccessKeepsPair(s: Shard, t: Shard, k: Key)
    requires LiveBut(s, t, k) && k in t.creds && !LiveBaton(t, k) && InPhase(s, Taken(t.creds[k].requestId))
    ensures InPhase(t, Accessed(t.creds[k].requestId))
  {
    hide LiveBaton, LiveAccess;
  }

  lemma RefreshKeepsPair(s: Shard, t: Shard, k: Key)
    requires LiveBut(s, t, k) && k in t.creds && !LiveAccess(t, k) && k.kind.Refresh?
    requires InPhase(s, Accessed(t.creds[k].requestId))
    ensures InPhase(t, Complete)
  {
    hide LiveBaton, LiveAccess;
  }

  lemma PkceKeepsPair(s: Shard, t: Shard, k: Key, p: Phase)
    requires LiveBut(s, t, k) && !LiveBaton(t, k) && !LiveAccess(t, k) && InPhase(s, p)
    ensures InPhase(t, p)
  {
    hide LiveBaton, LiveAccess;
  }

  lemma InsertKeepsPair(s: Shard, t: Shard, k: Key, p: Phase, q: Phase)
    requires k !in s.creds && t.creds.Keys == s.creds.Keys + {k}
    requires forall l :: l in s.creds ==> t.creds[l] == s.creds[l]
    requires InPhase(s, p)
    requires (k.kind.Access? && p == Taken(t.creds[k].requestId) && q == Accessed(t.creds[k].requestId))
          || (k.kind.Refresh? && p == Accessed(t.creds[k].requestId) && q.Complete?)
          || (k.kind.Pkce? && q == p)
    ensures InPhase(t, q)
  {
    hide LiveBut, LiveBaton, LiveAccess, InPhase;
    InsertIsLiveBut(s, t, k);
    match k.kind
    case Access => AccessKeepsPair(s, t, k);
    case Refresh => RefreshKeepsPair(s, t, k);
    case Pkce => PkceKeepsPair(s, t, k, p);
    case Code =>
  }

  lemma CodeKeepsPair(s: Shard, t: Shard, k: Key, p: Phase)
    requires LiveBut(s, t, k) && k in t.creds && !LiveAccess(t, k) && InPhase(s, p) && (p.Ready? || p.Complete?)
    requires NoBaton(s, t.creds[k].requestId) && NoAccess(s, t.creds[k].requestId)
    ensures InPhase(t, p)
  {
    hide LiveBaton, LiveAccess;
  }

  lemma NewGrantHasNoTokens(env: Env, s: Shard, requestId: string)
    requires Good(env, s) && requestId !in s.grants
    ensures NoBaton(s, requestId) && NoAccess(s, requestId)
  {
    hide Validate;
    forall l | l in s.creds
      ensures s.creds[l].requestId in s.grants
    {
      assert RowMatches(env, s, l, s.creds[l]);
    }
  }

  /** A new code comes with a new grant, which has no other credential. */
  lemma FamilyKeepsPair(env: Env, s: Shard, t: Shard, k: Key, p: Phase)
    requires Good(env, s) && InPhase(s, p) && (p.Ready? || p.Complete?)
    requires k !in s.creds && k.kind.Code? && t.creds.Keys == s.creds.Keys + {k} && t.creds[k].requestId !in s.grants
    requires forall l :: l in s.creds ==> t.creds[l] == s.creds[l]
    ensures InPhase(t, p)
  {
    hide Good, LiveBut, LiveBaton, LiveAccess, InPhase, NoBaton, NoAccess;
    InsertIsLiveBut(s, t, k);
    NewGrantHasNoTokens(env, s, t.creds[k].requestId);
    CodeKeepsPair(s, t, k, p);
  }

  /** Effects that neither consume a baton nor issue a token keep the pair in any phase. */
  predicate Neutral(e: Effect) {
    && !e.Back? && !e.Swap?
    && !(e.Consume? && e.key.kind.Code?)
    && !(e.NewCredential? && !e.key.kind.Pkce?)
  }

  lemma NeutralKeepsPair(env: Env, o: Op, e: Effect, p: Phase)
    requires Good(env, o.tx) && Allowed(env, o, e) && Neutral(e) && InPhase(o.tx, p)
    requires e.NewFamily? ==> p.Ready? || p.Complete?
    ensures InPhase(Apply(o, e), p)
  {
    hide Good, InPhase, Within, RowMatches, LockCredential, LockGrantForRevocation, GrantOpen, ConsentUsable, Grows;
    EffectWithin(env, o, e);
    EffectRows(env, o, e);
    if e.NewFamily? {
      FamilyKeepsPair(env, o.tx, Apply(o, e), e.key, p);
    } else if e.NewCredential? {
      InsertKeepsPair(o.tx, Apply(o, e), e.key, p, p);
    } else {
      WithinGrows(o.tx, Apply(o, e));
      FewerLive(o.tx, Apply(o, e), p);
    }
  }

  lemma WithinGrows(s: Shard, t: Shard)
    requires Within(s, t)
    ensures Grows(s, t)
  {
  }

  lemma EffectMovesPhase(env: Env, o: Op, e: Effect, call: Call, ok: bool, p: Phase)
    requires Good(env, o.tx) && Allowed(env, o, e) && Causes(call, ok, e) && InPhase(o.tx, p)
    requires o.ctx.binding.purpose.TokenExchange?
    requires !NextPhase(o, call, ok, p).Astray?
    ensures InPhase(Apply(o, e), NextPhase(o, call, ok, p))
  {
    hide Good, InPhase, RowMatches, LockCredential, LockGrantForRevocation, GrantOpen, ConsentUsable,
      RevokeFamily, ConsumeConsentRow, RevokeSession;
    if Neutral(e) {
      NeutralKeepsPair(env, o, e, p);
    } else if e.Consume? {
      PairOf(o.tx, p);
      ConsumeTakesBaton(o.tx, e.key);
    } else if e.Swap? {
      PairOf(o.tx, p);
      SwapTakesBaton(o.tx, e.key);
    } else if e.NewCredential? {
      InsertKeepsPair(o.tx, Apply(o, e), e.key, p, NextPhase(o, call, ok, p));
    }
  }

  lemma PairOf(s: Shard, p: Phase)
    requires InPhase(s, p)
    ensures OnePair(s)
  {
  }

  // ---- operations ----------------------------------------------------------------

  lemma {:induction false} AstrayStays(env: Env, t: Run, steps: Steps)
    ensures Phases(env, t, steps, Astray).Astray?
    decreases |steps|
  {
    hide Step, Advance;
    if steps != [] {
      AstrayStays(env, Advance(env, t, steps[0].0, steps[0].1), steps[1..]);
    }
  }

  /** A disciplined exchange keeps the pair at every call. */
  lemma {:induction false} ExchangeKeepsPair(env: Env, s0: Shard, t: Run, steps: Steps, p: Phase)
    requires RunInv(env, s0, t) && t.op.ctx.binding.purpose.TokenExchange? && InPhase(t.op.tx, p)
    requires !Phases(env, t, steps, p).Astray?
    ensures InPhase(Exec(env, t, steps).op.tx, Phases(env, t, steps, p))
    decreases |steps|
  {
    hide RunInv, Step, InPhase, Allowed, Apply, Good, Flagged, NextPhase, ByPurpose, KeptExact, Audit, Causes;
    if steps != [] {
      var (call, fault) := steps[0];
      var next := Advance(env, t, call, fault);
      var ok := Step(env, t.op, call, fault).1.err == NoError;
      var q := NextPhase(t.op, call, ok, p);
      var e := Classify(env, t.op, call, fault);
      InvGood(env, s0, t);
      if q.Astray? {
        AstrayStays(env, next, steps[1..]);
      }
      EffectMovesPhase(env, t.op, e, call, ok, p);
      AdvanceInv(env, s0, t, call, fault);
      SameContext(env, t, call, fault);
      ExchangeKeepsPair(env, s0, next, steps[1..], q);
    }
  }

  ghost predicate PairEverywhere(o: Op) {
    InPhase(o.tx, Ready) && (o.savepoint.Some? ==> InPhase(o.savepoint.value, Ready))
  }

  /** Any other operation keeps the pair without any discipline. */
  lemma {:induction false} OthersKeepPair(env: Env, s0: Shard, t: Run, steps: Steps)
    requires RunInv(env, s0, t) && !t.op.ctx.binding.purpose.TokenExchange? && PairEverywhere(t.op)
    ensures PairEverywhere(Exec(env, t, steps).op)
    decreases |steps|
  {
    hide RunInv, Step, PairEverywhere;
    if steps != [] {
      var (call, fault) := steps[0];
      OtherStepKeepsPair(env, s0, t, call, fault);
      AdvanceInv(env, s0, t, call, fault);
      SameContext(env, t, call, fault);
      OthersKeepPair(env, s0, Advance(env, t, call, fault), steps[1..]);
    }
  }

  lemma OtherStepKeepsPair(env: Env, s0: Shard, t: Run, call: Call, fault: bool)
    requires RunInv(env, s0, t) && !t.op.ctx.binding.purpose.TokenExchange? && PairEverywhere(t.op)
    ensures PairEverywhere(Advance(env, t, call, fault).op)
  {
    hide RunInv, Step, InPhase, Good, ByPurpose, KeptExact, Audit, Detects, Allowed;
    var e := Classify(env, t.op, call, fault);
    StepFlags(env, t.op, call, fault);
    InvGood(env, s0, t);
    if e.Back? {
      BackNeedsSavepoint(env, t.op, e);
    } else {
      OthersAreNeutral(env, t.op, e);
      NeutralKeepsPair(env, t.op, e, Ready);
    }
  }

  lemma OthersAreNeutral(env: Env, o: Op, e: Effect)
    requires Allowed(env, o, e) && !e.Back? && !o.ctx.binding.purpose.TokenExchange?
    ensures Neutral(e)
  {
    hide RowMatches, LockCredential, LockGrantForRevocation, GrantOpen, ConsentUsable;
  }

  // ---- histories -----------------------------------------------------------------

  /** A committed exchange followed the discipline. */
  predicate Disciplined(env: Env, s: Shard, tr: Transition) {
    tr.Operation? && tr.ctx.binding.purpose.TokenExchange?
    && Operate(env, s, OpenOp(tr, s), tr.steps, tr.protocolErr, tr.fault).outcome.Committed? ==>
      !Phases(env, Start(OpenOp(tr, s)), tr.steps, Ready).Astray?
  }

  predicate AllDisciplined(env: Env, s: Shard, h: seq<Transition>)
    decreases |h|
  {
    h != [] ==> AllDisciplined(env, s, h[..|h| - 1]) && Disciplined(env, After(env, s, h[..|h| - 1]), h[|h| - 1])
  }

  lemma OperationKeepsPair(env: Env, s: Shard, tr: Transition)
    requires tr.Operation? && Good(env, s) && CanTake(s, tr) && OnePair(s) && Disciplined(env, s, tr)
    ensures OnePair(Take(env, s, tr))
  {
    hide Good, Exec, Phases, OnePair, NoBaton, NoAccess, ByPurpose, KeptExact, NothingIssued, FamilyRevoked;
    var o := OpenOp(tr, s);
    var t := Exec(env, Start(o), tr.steps);
    var f := Operate(env, s, o, tr.steps, tr.protocolErr, tr.fault);
    StartInv(env, o, s);
    OperationInv(env, s, o, tr.steps);
    OperationIsAtomic(env, s, o, tr.steps, tr.protocolErr, tr.fault);
    InvGood(env, s, t);
    hide RunInv, Within;
    assert InPhase(s, Ready);
    if f.outcome.RolledBack? {
    } else if !tr.ctx.binding.purpose.TokenExchange? {
      OthersKeepPair(env, s, Start(o), tr.steps);
    } else if f.outcome.Committed? {
      ExchangeKeepsPair(env, s, Start(o), tr.steps, Ready);
    } else {
      SameRows(s, f.rows);
      FewerLive(s, f.rows, Ready);
    }
  }

  lemma SameRows(s: Shard, t: Shard)
    requires NothingIssued(s, t) && Within(s, t)
    ensures t.creds.Keys == s.creds.Keys && Grows(s, t)
  {
  }

  lemma SubsetKeepsPair(s: Shard, t: Shard)
    requires OnePair(s) && forall k :: k in t.creds ==> k in s.creds && t.creds[k] == s.creds[k]
    ensures OnePair(t)
  {
    assert forall k :: LiveBaton(t, k) ==> LiveBaton(s, k) && t.creds[k] == s.creds[k];
    assert forall k :: LiveAccess(t, k) ==> LiveAccess(s, k) && t.creds[k] == s.creds[k];
  }

  lemma TakeKeepsPair(env: Env, s: Shard, tr: Transition)
    requires Good(env, s) && CanTake(s, tr) && OnePair(s) && Disciplined(env, s, tr)
    ensures OnePair(Take(env, s, tr))
  {
    hide Good, OnePair, Operate, CanTake, Disciplined;
    if tr.Operation? {
      OperationKeepsPair(env, s, tr);
    } else {
      SubsetKeepsPair(s, Take(env, s, tr));
    }
  }

  /** Every reachable state of a disciplined history has at most one live token of each kind per grant. */
  lemma {:induction false} OnePairForever(env: Env, s: Shard, h: seq<Transition>)
    requires Good(env, s) && Valid(env, s, h) && OnePair(s) && AllDisciplined(env, s, h)
    ensures OnePair(After(env, s, h))
    decreases |h|
  {
    hide Good, Take, CanTake, OnePair, Disciplined;
    if h != [] {
      OnePairForever(env, s, h[..|h| - 1]);
      AlwaysGood(env, s, h[..|h| - 1]);
      TakeKeepsPair(env, After(env, s, h[..|h| - 1]), h[|h| - 1]);
    }
  }
}
