/**
  What every effect keeps: rows stay what the codec wrote for their grant,
  marks are never taken back, and a dead grant gets no new credential.
 */
module OAuthInvariants {
  import opened Prelude
  import opened RequestCodec
  import opened OAuthTables
  import opened OAuthOperation
  import opened OAuthEffects

  // ---- one state -------------------------------------------------------------

  predicate RefreshPaired(s: Shard, c: Credential) {
    c.access.Some? ==>
      Key(Access, c.access.value) in s.creds && s.creds[Key(Access, c.access.value)].requestId == c.requestId
  }

  /** Every stored credential agrees with its grant, and its grant is kept at least until it expires. */
  predicate Good(env: Env, s: Shard) {
    && (forall k :: k in s.creds ==>
          && RowMatches(env, s, k, s.creds[k])
          && RefreshPaired(s, s.creds[k])
          && (!k.kind.Pkce? ==> s.creds[k].expiresAt <= s.grants[s.creds[k].requestId].retainUntil))
    && (forall r :: r in s.grants ==> s.grants[r].accountEpoch <= s.epoch)
  }

  /** A grant that was revoked, or that an account block has left behind. */
  predicate Dead(s: Shard, requestId: string) {
    requestId in s.grants && (s.grants[requestId].revoked.Some? || s.grants[requestId].accountEpoch < s.epoch)
  }

  // ---- two states ------------------------------------------------------------

  predicate GrantGrows(g: Grant, h: Grant) {
    && h == g.(revoked := h.revoked, retainUntil := h.retainUntil)
    && g.retainUntil <= h.retainUntil
    && (g.revoked.Some? ==> h.revoked == g.revoked)
  }

  predicate CredentialGrows(c: Credential, d: Credential) {
    && d == c.(consumed := d.consumed, revoked := d.revoked)
    && (c.consumed ==> d.consumed) && (c.revoked ==> d.revoked)
  }

  predicate ConsentGrows(c: Consent, d: Consent) {
    d == c.(consumed := d.consumed) && (c.consumed ==> d.consumed)
  }

  predicate GrantsGrow(a: map<string, Grant>, b: map<string, Grant>) {
    forall r :: r in a ==> r in b && GrantGrows(a[r], b[r])
  }

  predicate CredentialsGrow(a: map<Key, Credential>, b: map<Key, Credential>) {
    forall k :: k in a ==> k in b && CredentialGrows(a[k], b[k])
  }

  predicate ConsentsGrow(a: map<string, Consent>, b: map<string, Consent>) {
    forall h :: h in a ==> h in b && ConsentGrows(a[h], b[h])
  }

  predicate DeadGainNothing(s: Shard, t: Shard) {
    forall k :: k in t.creds && k !in s.creds ==> !Dead(s, t.creds[k].requestId)
  }

  /** From s to t nothing is forgotten, no mark is taken back and no dead grant gains a credential. */
  predicate Grows(s: Shard, t: Shard) {
    && t.accountId == s.accountId && s.epoch <= t.epoch && s.events <= t.events
    && GrantsGrow(s.grants, t.grants) && CredentialsGrow(s.creds, t.creds) && ConsentsGrow(s.consents, t.consents)
    && DeadGainNothing(s, t)
  }

  /** Inside one operation the account row, the web sessions and the set of consents stand still. */
  predicate SameAccount(s: Shard, t: Shard) {
    && t.accountId == s.accountId && t.active == s.active && t.epoch == s.epoch
    && t.webSessions == s.webSessions && t.consents.Keys == s.consents.Keys
  }

  lemma GrowsTransitive(s: Shard, t: Shard, u: Shard)
    requires Grows(s, t) && Grows(t, u)
    ensures Grows(s, u)
  {
    forall k | k in u.creds && k !in s.creds
      ensures !Dead(s, u.creds[k].requestId)
    {
      if Dead(s, u.creds[k].requestId) {
        assert Dead(t, u.creds[k].requestId);
      }
    }
  }

  /** Dead grants stay dead. */
  lemma DeadForever(s: Shard, t: Shard, requestId: string)
    requires Grows(s, t) && Dead(s, requestId)
    ensures Dead(t, requestId)
  {
  }

  // ---- effects ---------------------------------------------------------------

  predicate OwnAccount(o: Op) {
    o.ctx.binding.purpose.Authorize? ==> o.ctx.binding.accountId == o.tx.accountId && o.ctx.authorizeEpoch == o.tx.epoch
  }

  // Each query on its own; composed effects follow by transitivity.

  predicate Within(s: Shard, t: Shard) { Grows(s, t) && SameAccount(s, t) }

  lemma WithinTransitive(s: Shard, t: Shard, u: Shard)
    requires Within(s, t) && Within(t, u)
    ensures Within(s, u)
  {
    GrowsTransitive(s, t, u);
  }

  lemma SameGrows(s: Shard)
    ensures GrantsGrow(s.grants, s.grants) && CredentialsGrow(s.creds, s.creds) && ConsentsGrow(s.consents, s.consents)
  {
  }

  lemma NoNewRows(s: Shard, t: Shard)
    requires t.creds.Keys == s.creds.Keys
    ensures DeadGainNothing(s, t)
  {
    hide Dead;
  }

  lemma InsertWithin(s: Shard, key: Key, c: Credential)
    requires key !in s.creds && !Dead(s, c.requestId)
    ensures Within(s, s.(creds := s.creds[key := c]))
  {
    SameGrows(s);
    assert CredentialsGrow(s.creds, s.creds[key := c]);
    hide Dead, GrantsGrow, ConsentsGrow, CredentialsGrow;
  }

  lemma GrantWithin(s: Shard, requestId: string, g: Grant)
    requires requestId !in s.grants
    ensures Within(s, s.(grants := s.grants[requestId := g]))
  {
    SameGrows(s);
    NoNewRows(s, s.(grants := s.grants[requestId := g]));
    assert GrantsGrow(s.grants, s.grants[requestId := g]);
    hide GrantsGrow, ConsentsGrow, CredentialsGrow, DeadGainNothing;
  }

  lemma ExtendWithin(s: Shard, requestId: string, until: int)
    ensures Within(s, ExtendRetention(s, requestId, until))
  {
    SameGrows(s);
    NoNewRows(s, ExtendRetention(s, requestId, until));
    assert GrantsGrow(s.grants, ExtendRetention(s, requestId, until).grants);
    hide GrantsGrow, ConsentsGrow, CredentialsGrow, DeadGainNothing;
  }

  lemma ConsumeWithin(s: Shard, key: Key)
    ensures Within(s, ConsumeSession(s, key).0)
  {
    var t := ConsumeSession(s, key).0;
    SameGrows(s);
    NoNewRows(s, t);
    assert CredentialsGrow(s.creds, t.creds);
    hide GrantsGrow, ConsentsGrow, CredentialsGrow, DeadGainNothing;
  }

  lemma RevokeSessionWithin(s: Shard, key: Key)
    ensures Within(s, RevokeSession(s, key))
  {
    var t := RevokeSession(s, key);
    SameGrows(s);
    NoNewRows(s, t);
    assert CredentialsGrow(s.creds, t.creds);
    hide GrantsGrow, ConsentsGrow, CredentialsGrow, DeadGainNothing;
  }

  lemma RevokeAccessWithin(s: Shard, requestId: string)
    ensures Within(s, RevokeAccessTokens(s, requestId))
  {
    var t := RevokeAccessTokens(s, requestId);
    SameGrows(s);
    NoNewRows(s, t);
    assert CredentialsGrow(s.creds, t.creds);
    hide GrantsGrow, ConsentsGrow, CredentialsGrow, DeadGainNothing;
  }

  lemma FamilyCredentialsGrow(s: Shard, requestId: string, reason: Reason)
    ensures CredentialsGrow(s.creds, RevokeFamily(s, requestId, reason).creds)
    ensures RevokeFamily(s, requestId, reason).creds.Keys == s.creds.Keys
  {
  }

  lemma FamilyGrantGrows(s: Shard, requestId: string, reason: Reason)
    ensures GrantsGrow(s.grants, RevokeFamily(s, requestId, reason).grants)
  {
  }

  lemma RevokeFamilyWithin(s: Shard, requestId: string, reason: Reason)
    ensures Within(s, RevokeFamily(s, requestId, reason))
  {
    var t := RevokeFamily(s, requestId, reason);
    SameGrows(s);
    FamilyCredentialsGrow(s, requestId, reason);
    FamilyGrantGrows(s, requestId, reason);
    NoNewRows(s, t);
    hide GrantsGrow, ConsentsGrow, CredentialsGrow, DeadGainNothing;
  }

  lemma EventWithin(s: Shard, event: Event)
    ensures Within(s, s.(events := s.events + [event]))
  {
    SameGrows(s);
    NoNewRows(s, s.(events := s.events + [event]));
    hide GrantsGrow, ConsentsGrow, CredentialsGrow, DeadGainNothing;
  }

  lemma SpendWithin(s: Shard, handle: string, session: string)
    ensures Within(s, ConsumeConsentRow(s, handle, session).0)
  {
    var t := ConsumeConsentRow(s, handle, session).0;
    SameGrows(s);
    NoNewRows(s, t);
    assert ConsentsGrow(s.consents, t.consents);
    hide GrantsGrow, ConsentsGrow, CredentialsGrow, DeadGainNothing;
  }

  lemma EffectWithin(env: Env, o: Op, e: Effect)
    requires Allowed(env, o, e) && !e.Back?
    ensures Within(o.tx, Apply(o, e))
  {
    hide Within, RowMatches, LockCredential, ConsentUsable, LockGrantForRevocation, ExtendRetention, ConsumeSession,
      RevokeSession, RevokeAccessTokens, RevokeFamily, ConsumeConsentRow;
    var s := o.tx;
    match e
    case Nothing => SameWithin(s);
    case NewFamily(requestId, grant, key, cred, _) =>
      var inserted := s.(creds := s.creds[key := cred]);
      InsertWithin(s, key, cred);
      GrantWithin(inserted, requestId, grant);
      WithinTransitive(s, inserted, Apply(o, e));
    case NewCredential(key, cred, _) =>
      var inserted := s.(creds := s.creds[key := cred]);
      InsertWithin(s, key, cred);
      ExtendWithin(inserted, cred.requestId, cred.expiresAt);
      WithinTransitive(s, inserted, ExtendRetention(inserted, cred.requestId, cred.expiresAt));
    case Consume(key) => ConsumeWithin(s, key);
    case Swap(key, requestId) =>
      ConsumeWithin(s, key);
      RevokeAccessWithin(ConsumeSession(s, key).0, requestId);
      WithinTransitive(s, ConsumeSession(s, key).0, Apply(o, e));
    case Drop(key) => RevokeSessionWithin(s, key);
    case Kill(requestId, reason, audited) =>
      var killed := RevokeFamily(s, requestId, reason);
      RevokeFamilyWithin(s, requestId, reason);
      EventWithin(killed, Event(requestId, reason));
      WithinTransitive(s, killed, killed.(events := killed.events + [Event(requestId, reason)]));
    case Spend(handle, session, _) => SpendWithin(s, handle, session);
  }

  lemma SameWithin(s: Shard)
    ensures Within(s, s)
  {
  }

  /** A row keeps matching when its grant keeps its identity. */
  lemma RowStillMatches(env: Env, s: Shard, t: Shard, k: Key, c: Credential, d: Credential)
    requires RowMatches(env, s, k, c) && CredentialGrows(c, d) && t.accountId == s.accountId
    requires c.requestId in t.grants && GrantGrows(s.grants[c.requestId], t.grants[c.requestId])
    ensures RowMatches(env, t, k, d)
  {
    hide Validate;
  }

  /** Growth keeps every old row good, so only new rows have to be looked at. */
  lemma GrowthKeepsGood(env: Env, s: Shard, t: Shard)
    requires Good(env, s) && Grows(s, t) && t.epoch == s.epoch
    requires forall r :: r in t.grants && r !in s.grants ==> t.grants[r].accountEpoch <= t.epoch
    requires forall k :: k in t.creds && k !in s.creds ==>
      && RowMatches(env, t, k, t.creds[k]) && RefreshPaired(t, t.creds[k])
      && (!k.kind.Pkce? ==> t.creds[k].expiresAt <= t.grants[t.creds[k].requestId].retainUntil)
    ensures Good(env, t)
  {
    hide RowMatches;
    forall k | k in s.creds
      ensures RowMatches(env, t, k, t.creds[k]) && RefreshPaired(t, t.creds[k]) && t.creds[k].requestId in t.grants
      ensures !k.kind.Pkce? ==> t.creds[k].expiresAt <= t.grants[t.creds[k].requestId].retainUntil
    {
      RowHasGrant(env, s, k);
      RowStillMatches(env, s, t, k, s.creds[k], t.creds[k]);
    }
  }

  lemma RowHasGrant(env: Env, s: Shard, k: Key)
    requires k in s.creds && RowMatches(env, s, k, s.creds[k])
    ensures s.creds[k].requestId in s.grants
  {
    hide Validate;
  }

  /** A row that an effect adds is what the codec wrote for its grant, and the grant is kept until it expires. */
  predicate NewRowIsGood(env: Env, t: Shard, key: Key) {
    && key in t.creds && RowMatches(env, t, key, t.creds[key]) && RefreshPaired(t, t.creds[key])
    && (!key.kind.Pkce? ==> t.creds[key].expiresAt <= t.grants[t.creds[key].requestId].retainUntil)
  }

  lemma FamilyIsGood(env: Env, o: Op, e: Effect)
    requires e.NewFamily? && OwnAccount(o) && Allowed(env, o, e)
    ensures NewRowIsGood(env, Apply(o, e), e.key)
    ensures e.grant.accountEpoch == o.tx.epoch
  {
    hide Validate;
  }

  lemma CredentialIsGood(env: Env, o: Op, e: Effect)
    requires e.NewCredential? && Allowed(env, o, e)
    ensures NewRowIsGood(env, Apply(o, e), e.key)
  {
    hide Validate, GrantOpen;
  }

  /** What an effect adds: at most one credential, and at most one grant. */
  lemma EffectAdds(env: Env, o: Op, e: Effect)
    requires Allowed(env, o, e) && !e.Back?
    ensures forall k :: k in Apply(o, e).creds && k !in o.tx.creds ==> (e.NewFamily? || e.NewCredential?) && k == e.key
    ensures forall r :: r in Apply(o, e).grants && r !in o.tx.grants ==>
      e.NewFamily? && r == e.requestId && Apply(o, e).grants[r] == e.grant
  {
    hide RowMatches, GrantOpen, LockCredential, LockGrantForRevocation, ConsentUsable;
  }

  lemma EffectKeepsGood(env: Env, o: Op, e: Effect)
    requires Good(env, o.tx) && OwnAccount(o) && Allowed(env, o, e) && !e.Back?
    ensures Good(env, Apply(o, e))
  {
    var t := Apply(o, e);
    EffectWithin(env, o, e);
    EffectAdds(env, o, e);
    if e.NewFamily? { FamilyIsGood(env, o, e); }
    if e.NewCredential? { CredentialIsGood(env, o, e); }
    hide Allowed, Apply, Good, Grows, RowMatches, RefreshPaired;
    GrowthKeepsGood(env, o.tx, t);
  }
}
