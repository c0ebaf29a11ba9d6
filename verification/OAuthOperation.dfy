/**
  What each store call does to an open operation, as a function of the state
  before it. The class in OAuthStore is proved against these functions.
 */
module OAuthOperation {
  import opened Prelude
  import opened RequestCodec
  import opened OAuthTables

  datatype Purpose = Authorize | TokenExchange | Revocation | Introspection

  datatype CredentialKind =
    NoCredential | CodeCredential | RefreshCredential | AccessCredential | AccessOrRefresh

  datatype Binding = Binding(purpose: Purpose, clientId: string, resource: string, accountId: int)

  datatype Decision = Approve | Deny

  datatype Replay = Replay(requestId: string, kind: Reason)

  datatype Error =
    NoError | NotFound | AccessDenied | InactiveToken | InvalidatedCode | InvalidGrant |
    OperationRequired | StorageFailure | SavepointMisuse | OtherError

  datatype Answer = Answer(request: Option<Request>, err: Error)

  datatype Outcome = Committed | RolledBack | ReplayCommitted | DeniedCommitted

  /** The credential strategy of the library: signatures and full validation. */
  datatype Strategy = Strategy(
    codeSignature: string -> string, refreshSignature: string -> string, accessSignature: string -> string,
    validCode: (Request, string) -> bool, validRefresh: (Request, string) -> bool,
    validAccess: (Request, string) -> bool)

  datatype Env = Env(registry: Registry, strategy: Strategy)

  /** One open operation; `tx` is its private copy of the account's tables. */
  datatype Op = Op(ctx: Context, flags: Flags, savepoint: Option<Shard>, tx: Shard)

  datatype Context = Context(binding: Binding, kind: CredentialKind, presented: string, authorizeEpoch: int)

  datatype Flags = Flags(
    storageFailed: bool, issuanceAttempted: bool, codeCreated: bool, pkceCreated: bool,
    decision: Option<Decision>, replay: Option<Replay>, replayComplete: bool)

  // ---- begin ---------------------------------------------------------------

  predicate BindingAccepted(env: Env, b: Binding, kind: CredentialKind, presented: string) {
    && b.resource == env.registry.resource
    && match b.purpose {
         case Authorize => kind.NoCredential? && presented == "" && b.accountId > 0 && b.clientId != ""
         case TokenExchange =>
           (kind.CodeCredential? || kind.RefreshCredential?) && presented != "" && b.accountId == 0 && b.clientId != ""
         case Revocation => kind.AccessOrRefresh? && presented != "" && b.accountId == 0 && b.clientId != ""
         case Introspection => kind.AccessCredential? && presented != "" && b.accountId == 0 && b.clientId == ""
       }
    && (b.clientId != "" ==> b.clientId in env.registry.clients)
  }

  function NewOp(b: Binding, kind: CredentialKind, presented: string, s: Shard): Op {
    Op(Context(b, kind, presented, if b.purpose.Authorize? then s.epoch else 0),
       Flags(false, false, false, false, None, None, false), None, s)
  }

  function Begin(env: Env, b: Binding, kind: CredentialKind, presented: string, s: Shard, fault: bool)
    : Result<Op, Error>
  {
    if !BindingAccepted(env, b, kind, presented) then Err(AccessDenied)
    else if fault then Err(StorageFailure)
    else if b.purpose.Authorize? && !s.active then Err(AccessDenied)
    else Ok(NewOp(b, kind, presented, s))
  }

  // ---- shared checks -------------------------------------------------------

  function Fail(o: Op): (Op, Answer) { (o.(flags := o.flags.(storageFailed := true)), Answer(None, StorageFailure)) }

  function Refuse(o: Op, err: Error): (Op, Answer) { (o, Answer(None, err)) }

  function Done(o: Op): (Op, Answer) { (o, Answer(None, NoError)) }

  predicate GrantOpen(env: Env, b: Binding, s: Shard, g: Grant) {
    && s.active
    && s.epoch == g.accountEpoch
    && g.revoked.None?
    && g.resource == env.registry.resource == b.resource
    && (b.purpose.Introspection? || b.clientId == g.clientId)
    && g.clientId in env.registry.clients
  }

  function LockCredential(env: Env, o: Op, key: Key): Option<Credential> {
    if key !in o.tx.creds || o.tx.creds[key].requestId !in o.tx.grants then None
    else if !GrantOpen(env, o.ctx.binding, o.tx, o.tx.grants[o.tx.creds[key].requestId]) then None
    else Some(o.tx.creds[key])
  }

  predicate LockGrant(env: Env, o: Op, requestId: string) {
    requestId in o.tx.grants && GrantOpen(env, o.ctx.binding, o.tx, o.tx.grants[requestId])
  }

  predicate LockGrantForRevocation(env: Env, o: Op, requestId: string) {
    && requestId in o.tx.grants
    && var g := o.tx.grants[requestId];
       && o.tx.active
       && o.tx.epoch == g.accountEpoch
       && g.resource == env.registry.resource == o.ctx.binding.resource
       && o.ctx.binding.clientId == g.clientId
       && g.clientId in env.registry.clients
  }

  /** The written request names the grant, account, epoch, client and resource of its row. */
  predicate WriteSnapshotMatches(s: Shard, requestId: string, r: Request)
    requires requestId in s.grants
  {
    && r.id == requestId
    && r.session.accountId == s.accountId
    && r.session.accountEpoch == s.grants[requestId].accountEpoch
    && r.clientId == s.grants[requestId].clientId
    && r.session.resource == s.grants[requestId].resource
  }

  predicate CredentialSnapshotMatches(s: Shard, c: Credential, r: Request, kind: Kind)
    requires c.requestId in s.grants
  {
    && WriteSnapshotMatches(s, c.requestId, r)
    && c.expiresAt != 0
    && Micros(ExpiresAt(r.session.expiresAt, ExpiryType(kind))) == c.expiresAt
  }

  /** Decodes a locked row and compares it with its columns; None is a storage failure. */
  function Hydrate(env: Env, s: Shard, c: Credential, kind: Kind, target: Option<Expirations>): Option<Request>
    requires c.requestId in s.grants
  {
    match Decode(env.registry, c.payload, target)
    case None => None
    case Some(r) => if CredentialSnapshotMatches(s, c, r, kind) then Some(r) else None
  }

  predicate ProveCode(env: Env, o: Op, r: Request, signature: string) {
    o.ctx.presented != "" && signature == env.strategy.codeSignature(o.ctx.presented) && env.strategy.validCode(r, o.ctx.presented)
  }

  predicate ProveRefresh(env: Env, o: Op, r: Request, signature: string) {
    o.ctx.presented != "" && signature == env.strategy.refreshSignature(o.ctx.presented) && env.strategy.validRefresh(r, o.ctx.presented)
  }

  predicate ProveAccess(env: Env, o: Op, r: Request, signature: string) {
    o.ctx.presented != "" && signature == env.strategy.accessSignature(o.ctx.presented) && env.strategy.validAccess(r, o.ctx.presented)
  }

  // ---- calls -----------------------------------------------------------------
  // `fault` says that one of the call's statements fails in the database.

  datatype Call =
    | CreateCode(signature: string, request: Request, now: nat)
    | GetCode(signature: string, target: Option<Expirations>)
    | InvalidateCode(signature: string)
    | CreateAccess(signature: string, request: Request, now: nat)
    | GetAccess(signature: string, target: Option<Expirations>)
    | DeleteAccess(signature: string)
    | CreateRefresh(signature: string, accessSignature: string, request: Request, now: nat)
    | GetRefresh(signature: string, target: Option<Expirations>)
    | DeleteRefresh(signature: string)
    | Rotate(requestId: string, signature: string)
    | Revoke(requestId: string)
    | CreatePkce(signature: string, request: Request, now: nat)
    | GetPkce(signature: string, target: Option<Expirations>)
    | DeletePkce(signature: string)
    | ConsumeConsent(handle: string, session: string, at: Time, decision: Decision)
    | BeginSavepoint
    | CommitSavepoint
    | RollbackSavepoint

  function StepCreateCode(env: Env, o: Op, signature: string, r: Request, now: nat, fault: bool): (Op, Answer) {
    if !o.ctx.binding.purpose.Authorize? then Refuse(o, OperationRequired) else
    var o := o.(flags := o.flags.(issuanceAttempted := true));
    var encoded := Encode(env.registry, r);
    if encoded.None? then Fail(o)
    else if r.session.accountId != o.ctx.binding.accountId || r.session.accountEpoch != o.ctx.authorizeEpoch
         || r.session.resource != o.ctx.binding.resource || r.clientId != o.ctx.binding.clientId then Refuse(o, AccessDenied)
    else if ExpiresAt(r.session.expiresAt, AuthorizeCode) == 0 || fault then Fail(o)
    else
      var expiresAt := Micros(ExpiresAt(r.session.expiresAt, AuthorizeCode));
      var grant := Grant(r.session.accountEpoch, r.clientId, r.session.resource, None, expiresAt);
      var granted := InsertGrant(o.tx, r.id, grant);
      if granted.None? then Fail(o)
      else
        var inserted := InsertSession(granted.value, Key(Code, signature),
                                      Credential(r.id, encoded.value, expiresAt, None, false, false), now);
        if inserted.None? then Fail(o) else Done(o.(tx := inserted.value, flags := o.flags.(codeCreated := true)))
  }

  function StepGetCode(env: Env, o: Op, signature: string, target: Option<Expirations>, fault: bool): (Op, Answer) {
    if !o.ctx.binding.purpose.TokenExchange? then Refuse(o, OperationRequired)
    else if !o.ctx.kind.CodeCredential? then Refuse(o, NotFound)
    else if fault then Fail(o)
    else
      match LockCredential(env, o, Key(Code, signature))
      case None => Refuse(o, NotFound)
      case Some(c) =>
        match Hydrate(env, o.tx, c, Code, target)
        case None => Fail(o)
        case Some(r) =>
          if c.consumed then
            if !ProveCode(env, o, r, signature) then Refuse(o, NotFound)
            else (o.(flags := o.flags.(replay := Some(Replay(c.requestId, CodeReplay)))), Answer(Some(r), InvalidatedCode))
          else if c.revoked then Refuse(o, NotFound)
          else (o, Answer(Some(r), NoError))
  }

  /** The locks and checks before a credential row is changed. */
  function LockForMutation(env: Env, o: Op, key: Key, fault: bool): Result<Credential, Error> {
    if fault then Err(StorageFailure)
    else
      match LockCredential(env, o, key)
      case None => Err(NotFound)
      case Some(c) => if Hydrate(env, o.tx, c, key.kind, None).None? then Err(StorageFailure) else Ok(c)
  }

  function Stop(o: Op, err: Error): (Op, Answer) {
    if err == StorageFailure then Fail(o) else Refuse(o, err)
  }

  /** Shared body of the one-use consumptions of a code and of its PKCE row. */
  function StepConsume(env: Env, o: Op, key: Key, fault: bool): (Op, Answer) {
    if !o.ctx.binding.purpose.TokenExchange? then Refuse(o, OperationRequired)
    else
      match LockForMutation(env, o, key, fault)
      case Err(e) => Stop(o, e)
      case Ok(_) =>
        var (tx, rows) := ConsumeSession(o.tx, key);
        if rows != 1 then Refuse(o, NotFound) else Done(o.(tx := tx))
  }

  function StepCreateAccess(env: Env, o: Op, signature: string, r: Request, now: nat, fault: bool): (Op, Answer) {
    if !o.ctx.binding.purpose.TokenExchange? then Refuse(o, OperationRequired) else
    var o := o.(flags := o.flags.(issuanceAttempted := true));
    var encoded := Encode(env.registry, r);
    if encoded.None? || fault then Fail(o)
    else if !LockGrant(env, o, r.id) then Refuse(o, NotFound)
    else if !WriteSnapshotMatches(o.tx, r.id, r) || ExpiresAt(r.session.expiresAt, AccessToken) == 0 then Fail(o)
    else
      var expiresAt := Micros(ExpiresAt(r.session.expiresAt, AccessToken));
      var inserted := InsertSession(o.tx, Key(Access, signature),
                                    Credential(r.id, encoded.value, expiresAt, None, false, false), now);
      if inserted.None? then Fail(o) else Done(o.(tx := ExtendRetention(inserted.value, r.id, expiresAt)))
  }

  function StepGetAccess(env: Env, o: Op, signature: string, target: Option<Expirations>, fault: bool): (Op, Answer) {
    if !o.ctx.kind.AccessCredential? && !o.ctx.kind.AccessOrRefresh? then Refuse(o, NotFound)
    else if fault then Fail(o)
    else
      match LockCredential(env, o, Key(Access, signature))
      case None => Refuse(o, NotFound)
      case Some(c) =>
        if c.consumed || c.revoked then Refuse(o, NotFound)
        else
          match Hydrate(env, o.tx, c, Access, target)
          case None => Fail(o)
          case Some(r) =>
            if o.ctx.binding.purpose.Revocation? && !ProveAccess(env, o, r, signature) then Refuse(o, NotFound)
            else (o, Answer(Some(r), NoError))
  }

  /** Shared body of the two single-token deletions. */
  function StepDelete(env: Env, o: Op, key: Key, fault: bool): (Op, Answer) {
    if o.ctx.binding.purpose.Introspection? then Refuse(o, OperationRequired)
    else
      match LockForMutation(env, o, key, fault)
      case Err(e) => Stop(o, e)
      case Ok(_) => Done(o.(tx := RevokeSession(o.tx, key)))
  }

  function StepCreateRefresh(env: Env, o: Op, signature: string, accessSignature: string, r: Request, now: nat, fault: bool)
    : (Op, Answer)
  {
    if !o.ctx.binding.purpose.TokenExchange? then Refuse(o, OperationRequired) else
    var o := o.(flags := o.flags.(issuanceAttempted := true));
    var encoded := Encode(env.registry, r);
    if encoded.None? || fault then Fail(o)
    else if !LockGrant(env, o, r.id) then Refuse(o, NotFound)
    else if !WriteSnapshotMatches(o.tx, r.id, r) then Fail(o)
    else
      var accessKey := Key(Access, accessSignature);
      if accessKey !in o.tx.creds then Refuse(o, NotFound)
      else
        var access := o.tx.creds[accessKey];
        if access.requestId != r.id || access.revoked || Hydrate(env, o.tx, access, Access, None).None?
           || ExpiresAt(r.session.expiresAt, RefreshToken) == 0 then Fail(o)
        else
          var expiresAt := Micros(ExpiresAt(r.session.expiresAt, RefreshToken));
          var inserted := InsertSession(o.tx, Key(Refresh, signature),
                                        Credential(r.id, encoded.value, expiresAt, Some(accessSignature), false, false), now);
          if inserted.None? then Fail(o) else Done(o.(tx := ExtendRetention(inserted.value, r.id, expiresAt)))
  }

  function StepGetRefresh(env: Env, o: Op, signature: string, target: Option<Expirations>, fault: bool): (Op, Answer) {
    if !o.ctx.kind.RefreshCredential? && !o.ctx.kind.AccessOrRefresh? then Refuse(o, NotFound)
    else if fault then Fail(o)
    else
      match LockCredential(env, o, Key(Refresh, signature))
      case None => Refuse(o, NotFound)
      case Some(c) =>
        match Hydrate(env, o.tx, c, Refresh, target)
        case None => Fail(o)
        case Some(r) =>
          if c.consumed then
            if !o.ctx.binding.purpose.TokenExchange? || !o.ctx.kind.RefreshCredential? then Refuse(o, InactiveToken)
            else if !ProveRefresh(env, o, r, signature) then Refuse(o, NotFound)
            else (o.(flags := o.flags.(replay := Some(Replay(c.requestId, RefreshReplay)))), Answer(Some(r), InactiveToken))
          else if c.revoked then Refuse(o, NotFound)
          else if o.ctx.binding.purpose.Revocation? && !ProveRefresh(env, o, r, signature) then Refuse(o, NotFound)
          else (o, Answer(Some(r), NoError))
  }

  function StepRotate(env: Env, o: Op, requestId: string, signature: string, fault: bool): (Op, Answer) {
    if !o.ctx.binding.purpose.TokenExchange? then Refuse(o, OperationRequired)
    else
      match LockForMutation(env, o, Key(Refresh, signature), fault)
      case Err(e) => Stop(o, e)
      case Ok(c) =>
        if c.requestId != requestId then Refuse(o, NotFound)
        else
          var (tx, rows) := ConsumeSession(o.tx, Key(Refresh, signature));
          if rows != 1 then Refuse(o, InactiveToken)
          else Done(o.(tx := RevokeAccessTokens(tx, requestId)))
  }

  function RevocationReason(o: Op): Reason {
    if o.flags.replay.Some? then o.flags.replay.value.kind else ClientRevoked
  }

  function StepRevoke(env: Env, o: Op, requestId: string, fault: bool): (Op, Answer) {
    if !o.ctx.binding.purpose.TokenExchange? && !o.ctx.binding.purpose.Revocation? then Refuse(o, OperationRequired)
    else if fault then Fail(o)
    else if !LockGrantForRevocation(env, o, requestId) then Refuse(o, NotFound)
    else if o.flags.replay.Some? && o.flags.replay.value.requestId != requestId then Fail(o)
    else
      var revoked := RevokeFamily(o.tx, requestId, RevocationReason(o));
      if o.flags.replay.Some? && !o.flags.replayComplete then
        match RecordEvent(revoked, requestId, o.flags.replay.value.kind)
        case None => Fail(o)
        case Some(tx) => Done(o.(tx := tx, flags := o.flags.(replayComplete := true)))
      else Done(o.(tx := revoked))
  }

  function StepCreatePkce(env: Env, o: Op, signature: string, r: Request, now: nat, fault: bool): (Op, Answer) {
    if !o.ctx.binding.purpose.Authorize? then Refuse(o, OperationRequired) else
    var o := o.(flags := o.flags.(issuanceAttempted := true));
    var encoded := Encode(env.registry, r);
    if encoded.None? || fault then Fail(o)
    else if !LockGrant(env, o, r.id) then Refuse(o, NotFound)
    else if !WriteSnapshotMatches(o.tx, r.id, r) || ExpiresAt(r.session.expiresAt, AuthorizeCode) == 0 then Fail(o)
    else
      var expiresAt := Micros(ExpiresAt(r.session.expiresAt, AuthorizeCode));
      var inserted := InsertSession(o.tx, Key(Pkce, signature),
                                    Credential(r.id, encoded.value, expiresAt, None, false, false), now);
      if inserted.None? then Fail(o) else Done(o.(tx := inserted.value, flags := o.flags.(pkceCreated := true)))
  }

  function StepGetPkce(env: Env, o: Op, signature: string, target: Option<Expirations>, fault: bool): (Op, Answer) {
    if !o.ctx.binding.purpose.TokenExchange? then Refuse(o, OperationRequired)
    else if fault then Fail(o)
    else
      match LockCredential(env, o, Key(Pkce, signature))
      case None => Refuse(o, NotFound)
      case Some(c) =>
        if c.consumed || c.revoked then Refuse(o, NotFound)
        else
          match Hydrate(env, o.tx, c, Pkce, target)
          case None => Fail(o)
          case Some(r) => (o, Answer(Some(r), NoError))
  }

  /** A consent may be used: bound to this live session of an active account at its current epoch. */
  predicate ConsentUsable(s: Shard, handle: string, session: string, at: Time) {
    && handle in s.consents && session in s.webSessions
    && s.active
    && s.epoch == s.webSessions[session].accountEpoch
    && !s.webSessions[session].revoked
    && at < s.webSessions[session].expiresAt
    && !s.consents[handle].consumed
    && at < s.consents[handle].expiresAt
    && s.consents[handle].session == session
  }

  function StepConsumeConsent(o: Op, handle: string, session: string, at: Time, decision: Decision, fault: bool): (Op, Answer) {
    if !o.ctx.binding.purpose.Authorize? then Refuse(o, OperationRequired)
    else if handle == "" || session == "" || at == 0 then Refuse(o, AccessDenied)
    else if fault then Fail(o)
    else if !ConsentUsable(o.tx, handle, session, at) then Refuse(o, AccessDenied)
    else
      var (tx, rows) := ConsumeConsentRow(o.tx, handle, session);
      if rows != 1 then Refuse(o, AccessDenied)
      else Done(o.(tx := tx, flags := o.flags.(decision := Some(decision))))
  }

  function StepBeginSavepoint(o: Op, fault: bool): (Op, Answer) {
    if o.savepoint.Some? then Refuse(o, SavepointMisuse)
    else if fault then Fail(o)
    else Done(o.(savepoint := Some(o.tx)))
  }

  function StepCommitSavepoint(o: Op, fault: bool): (Op, Answer) {
    if o.savepoint.None? then Refuse(o, SavepointMisuse)
    else if fault then Fail(o)
    else Done(o.(savepoint := None))
  }

  /** Rolls the tables back to the savepoint. The flags of the operation stay as they are. */
  function StepRollbackSavepoint(o: Op, fault: bool): (Op, Answer) {
    if o.savepoint.None? then Refuse(o, SavepointMisuse)
    else if fault then Fail(o)
    else Done(o.(tx := o.savepoint.value, savepoint := None))
  }

  function Step(env: Env, o: Op, call: Call, fault: bool): (Op, Answer) {
    match call
    case CreateCode(signature, r, now) => StepCreateCode(env, o, signature, r, now, fault)
    case GetCode(signature, target) => StepGetCode(env, o, signature, target, fault)
    case InvalidateCode(signature) => StepConsume(env, o, Key(Code, signature), fault)
    case CreateAccess(signature, r, now) => StepCreateAccess(env, o, signature, r, now, fault)
    case GetAccess(signature, target) => StepGetAccess(env, o, signature, target, fault)
    case DeleteAccess(signature) => StepDelete(env, o, Key(Access, signature), fault)
    case CreateRefresh(signature, access, r, now) => StepCreateRefresh(env, o, signature, access, r, now, fault)
    case GetRefresh(signature, target) => StepGetRefresh(env, o, signature, target, fault)
    case DeleteRefresh(signature) => StepDelete(env, o, Key(Refresh, signature), fault)
    case Rotate(requestId, signature) => StepRotate(env, o, requestId, signature, fault)
    case Revoke(requestId) => StepRevoke(env, o, requestId, fault)
    case CreatePkce(signature, r, now) => StepCreatePkce(env, o, signature, r, now, fault)
    case GetPkce(signature, target) => StepGetPkce(env, o, signature, target, fault)
    case DeletePkce(signature) => StepConsume(env, o, Key(Pkce, signature), fault)
    case ConsumeConsent(handle, session, at, decision) => StepConsumeConsent(o, handle, session, at, decision, fault)
    case BeginSavepoint => StepBeginSavepoint(o, fault)
    case CommitSavepoint => StepCommitSavepoint(o, fault)
    case RollbackSavepoint => StepRollbackSavepoint(o, fault)
  }

  // ---- finish ----------------------------------------------------------------

  predicate ApprovalComplete(o: Op) {
    !o.ctx.binding.purpose.Authorize? || (o.flags.decision == Some(Approve) && o.flags.codeCreated && o.flags.pkceCreated)
  }

  /** The commit policy: the outcome to commit with, or whether the rollback is a failure to report. */
  function Policy(o: Op, protocolErr: Error): Result<Outcome, bool> {
    if o.flags.storageFailed || o.savepoint.Some? then Err(true)
    else if o.flags.replayComplete && o.flags.replay.Some? && !o.flags.issuanceAttempted && protocolErr == InvalidGrant then
      Ok(ReplayCommitted)
    else if o.flags.decision == Some(Deny) && !o.flags.issuanceAttempted && protocolErr == AccessDenied then
      Ok(DeniedCommitted)
    else if protocolErr == NoError && o.flags.replay.None? && ApprovalComplete(o) then Ok(Committed)
    else Err(o.flags.replay.Some? || o.flags.replayComplete || o.flags.decision.Some? || protocolErr == NoError)
  }

  datatype Finished = Finished(outcome: Outcome, failed: bool, rows: Shard)

  /** Ends the outer transaction on top of the committed rows. `fault` breaks its commit or rollback. */
  function Finish(o: Op, rows: Shard, protocolErr: Error, fault: bool): Finished {
    match Policy(o, protocolErr)
    case Ok(outcome) => if fault then Finished(RolledBack, true, rows) else Finished(outcome, false, o.tx)
    case Err(report) => Finished(RolledBack, fault || report, rows)
  }
}
