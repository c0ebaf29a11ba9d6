/**
  The authorization tables of one account, and the contract of every query
  that the store runs on them. Rows of different accounts never share a lock,
  so an operation works on one such shard. A grant's request id is unique and
  never changes; it stands for the grant key.
 */
module OAuthTables {
  import opened Prelude
  import opened RequestCodec

  datatype Kind = Code | Pkce | Access | Refresh
  datatype Key = Key(kind: Kind, signature: string)

  datatype Reason = ClientRevoked | CodeReplay | RefreshReplay | AccountBlocked

  datatype Grant = Grant(
    accountEpoch: int, clientId: string, resource: string,
    revoked: Option<Reason>, retainUntil: int)

  datatype Credential = Credential(
    requestId: string, payload: StoredRequest, expiresAt: int, access: Option<string>,
    consumed: bool, revoked: bool)

  datatype Event = Event(requestId: string, kind: Reason)

  datatype WebSession = WebSession(accountEpoch: int, expiresAt: Time, revoked: bool)

  // A pending consent that is bound to a web session of the account.
  datatype Consent = Consent(ciphertext: string, expiresAt: Time, session: string, consumed: bool)

  datatype Shard = Shard(
    accountId: int, active: bool, epoch: int,
    grants: map<string, Grant>, creds: map<Key, Credential>, events: seq<Event>,
    webSessions: map<string, WebSession>, consents: map<string, Consent>)

  /** The column value of a time: whole microseconds, rounded down. */
  function Micros(t: Time): int { t / 1000 }

  function Max(a: int, b: int): int { if a < b then b else a }

  /** The expiry of the session snapshot that governs a credential of this kind. */
  function ExpiryType(kind: Kind): TokenType {
    match kind
    case Code => AuthorizeCode
    case Pkce => AuthorizeCode
    case Access => AccessToken
    case Refresh => RefreshToken
  }

  predicate Live(c: Credential) { !c.consumed && !c.revoked }

  function Revoked(c: Credential): Credential { c.(revoked := true) }

  // ---- queries -------------------------------------------------------------

  /** Fails on a used request id. */
  function InsertGrant(s: Shard, requestId: string, g: Grant): Option<Shard> {
    if requestId in s.grants then None else Some(s.(grants := s.grants[requestId := g]))
  }

  /** Fails on a used (kind, signature) and on an expiry that is not after the creation time. */
  function InsertSession(s: Shard, key: Key, c: Credential, now: Time): Option<Shard> {
    if key in s.creds || c.expiresAt <= Micros(now) then None
    else Some(s.(creds := s.creds[key := c]))
  }

  function ExtendRetention(s: Shard, requestId: string, until: int): Shard {
    if requestId !in s.grants then s
    else
      var g := s.grants[requestId];
      s.(grants := s.grants[requestId := g.(retainUntil := Max(g.retainUntil, until))])
  }

  /** The guarded update that marks a credential consumed, with its row count. */
  function ConsumeSession(s: Shard, key: Key): (Shard, nat) {
    if key in s.creds && Live(s.creds[key]) then
      (s.(creds := s.creds[key := s.creds[key].(consumed := true)]), 1)
    else (s, 0)
  }

  function RevokeSession(s: Shard, key: Key): Shard {
    if key in s.creds then s.(creds := s.creds[key := Revoked(s.creds[key])]) else s
  }

  function RevokeAccessTokens(s: Shard, requestId: string): Shard {
    s.(creds := map k | k in s.creds ::
      if k.kind.Access? && s.creds[k].requestId == requestId then Revoked(s.creds[k]) else s.creds[k])
  }

  /** Marks the grant with the first reason given and revokes its whole credential family. */
  function RevokeFamily(s: Shard, requestId: string, reason: Reason): Shard {
    if requestId !in s.grants then s
    else
      var g := s.grants[requestId];
      s.(grants := s.grants[requestId := g.(revoked := if g.revoked.Some? then g.revoked else Some(reason))],
         creds := map k | k in s.creds ::
           if s.creds[k].requestId == requestId then Revoked(s.creds[k]) else s.creds[k])
  }

  /** The audit function: unknown kinds, unknown grants and unrevoked grants are refused. */
  function RecordEvent(s: Shard, requestId: string, kind: Reason): Option<Shard> {
    if kind !in {CodeReplay, RefreshReplay} || requestId !in s.grants || s.grants[requestId].revoked.None? then None
    else Some(s.(events := s.events + [Event(requestId, kind)]))
  }

  function ConsumeConsentRow(s: Shard, handle: string, session: string): (Shard, nat) {
    if handle in s.consents && s.consents[handle].session == session && !s.consents[handle].consumed then
      (s.(consents := s.consents[handle := s.consents[handle].(consumed := true)]), 1)
    else (s, 0)
  }

  // ---- transitions outside an operation ---------------------------------------

  /** `auth.block_user_account`: a new epoch, no live web session, every grant revoked. */
  function Block(s: Shard): Shard {
    s.(active := false, epoch := s.epoch + 1,
       webSessions := map w | w in s.webSessions :: s.webSessions[w].(revoked := true),
       grants := map r | r in s.grants ::
         if s.grants[r].revoked.Some? then s.grants[r] else s.grants[r].(revoked := Some(AccountBlocked)))
  }

  function Unblock(s: Shard): Shard { s.(active := true, epoch := s.epoch + 1) }

  /** Cleanup of one grant family, once its retention has passed. */
  function DeleteFamily(s: Shard, requestId: string, now: int): Shard {
    if requestId !in s.grants || s.grants[requestId].retainUntil > now then s
    else
      s.(grants := s.grants - {requestId},
         creds := map k | k in s.creds && s.creds[k].requestId != requestId :: s.creds[k])
  }

  // These three take no account lock.

  function LogOut(s: Shard, session: string): Shard {
    if session in s.webSessions then
      s.(webSessions := s.webSessions[session := s.webSessions[session].(revoked := true)])
    else s
  }

  /** The web sessions of the batch that have expired; the others are left out of it. */
  function ExpiredSessions(s: Shard, sessions: set<string>, now: Time): set<string> {
    set w | w in s.webSessions && w in sessions && s.webSessions[w].expiresAt <= now
  }

  function ExpiredConsents(s: Shard, handles: set<string>, now: Time): set<string> {
    set h | h in s.consents && h in handles && s.consents[h].expiresAt <= now
  }

  /** The consents bound to sessions that go. */
  function BoundTo(s: Shard, sessions: set<string>): set<string> {
    set h | h in s.consents && s.consents[h].session in sessions
  }

  /** One batch of the consent cleanup, as it touches this account. */
  function DeleteConsents(s: Shard, handles: set<string>, now: Time): Shard {
    s.(consents := s.consents - ExpiredConsents(s, handles, now))
  }

  /** One batch of the session cleanup; the foreign key takes bound consents with it. */
  function DeleteSessions(s: Shard, sessions: set<string>, now: Time): Shard {
    var gone := ExpiredSessions(s, sessions, now);
    s.(webSessions := s.webSessions - gone, consents := s.consents - BoundTo(s, gone))
  }
}
