/**
  The store as the program has it: an operation object whose methods change
  its private tables and flags in place, and a database that only `Finish`
  writes. Every method is proved to do what OAuthOperation says.
 */
module OAuthStore {
  import opened Prelude
  import opened RequestCodec
  import opened OAuthTables
  import opened OAuthOperation

  /** The committed tables of the account. */
  class Database {
    var rows: Shard

    constructor (rows: Shard)
      ensures this.rows == rows
    {
      this.rows := rows;
    }
  }

  class Operation {
    const env: Env
    const database: Database
    const binding: Binding
    const kind: CredentialKind
    const authorizeEpoch: int
    var presented: string
    var finished: bool
    var storageFailed: bool
    var issuanceAttempted: bool
    var codeCreated: bool
    var pkceCreated: bool
    var consentDecision: Option<Decision>
    var replay: Option<Replay>
    var replayComplete: bool
    var openSavepoints: nat
    var savepoint: Shard
    var tx: Shard
    // How often the outer transaction was committed or rolled back.
    ghost var closings: nat

    ghost predicate Valid()
      reads this
    {
      openSavepoints <= 1 && closings == if finished then 1 else 0
    }

    function State(): Op
      reads this
    {
      Op(Context(binding, kind, presented, authorizeEpoch),
         Flags(storageFailed, issuanceAttempted, codeCreated, pkceCreated, consentDecision, replay, replayComplete),
         if openSavepoints == 0 then None else Some(savepoint), tx)
    }

    /** The operation took exactly the specified step; a finished one refuses and stays as it is. */
    twostate predicate Performed(step: (Op, Answer), answer: Answer)
      reads this
    {
      && Valid() && finished == old(finished)
      && (State(), answer) == if old(finished) then (old(State()), Answer(None, OperationRequired)) else step
    }

    constructor (env: Env, database: Database, binding: Binding, kind: CredentialKind, presented: string)
      ensures Valid() && !finished && this.env == env && this.database == database
      ensures State() == NewOp(binding, kind, presented, database.rows)
    {
      this.env, this.database, this.binding, this.kind, this.presented := env, database, binding, kind, presented;
      authorizeEpoch := if binding.purpose.Authorize? then database.rows.epoch else 0;
      finished, storageFailed, issuanceAttempted, codeCreated, pkceCreated := false, false, false, false, false;
      consentDecision, replay, replayComplete := None, None, false;
      openSavepoints, savepoint, tx, closings := 0, database.rows, database.rows, 0;
    }

    // ---- helpers ---------------------------------------------------------------

    method Fail() returns (err: Error)
      modifies this`storageFailed
      ensures storageFailed && err == StorageFailure
      ensures (State(), Answer(None, err)) == OAuthOperation.Fail(old(State()))
    {
      storageFailed := true;
      err := StorageFailure;
    }

    method RequirePurpose(purpose: Purpose) returns (err: Error)
      ensures err == if finished || binding.purpose != purpose then OperationRequired else NoError
    {
      err := if finished || binding.purpose != purpose then OperationRequired else NoError;
    }

    /** Finds the owner, locks account, grant and credential, then validates what the locks show. */
    method FetchCredential(key: Key, fault: bool) returns (err: Error, c: Option<Credential>)
      modifies this`storageFailed
      ensures storageFailed == (old(storageFailed) || fault)
      ensures c == if fault then None else LockCredential(env, State(), key)
      ensures err == if fault then StorageFailure else if c.None? then NotFound else NoError
      ensures c.Some? ==> key in tx.creds && c == Some(tx.creds[key]) && c.value.requestId in tx.grants
    {
      c := None;
      if fault {
        err := Fail();
        return;
      }
      err := NotFound;
      if key !in tx.creds {
        return;
      }
      var credential := tx.creds[key];
      if credential.requestId !in tx.grants {
        return;
      }
      var grant := tx.grants[credential.requestId];
      if !GrantOpen(env, binding, tx, grant) {
        return;
      }
      err, c := NoError, Some(credential);
    }

    method FetchForMutation(key: Key, fault: bool) returns (err: Error, c: Option<Credential>)
      modifies this`storageFailed
      ensures err == NoError <==> LockForMutation(env, old(State()), key, fault).Ok?
      ensures match LockForMutation(env, old(State()), key, fault)
              case Ok(credential) => err == NoError && c == Some(credential) && storageFailed == old(storageFailed)
              case Err(e) => err == e && c == None && storageFailed == (old(storageFailed) || e == StorageFailure)
    {
      err, c := FetchCredential(key, fault);
      if err != NoError {
        return;
      }
      if Hydrate(env, tx, c.value, key.kind, None).None? {
        err := Fail();
        c := None;
      }
    }

    // ---- authorization -----------------------------------------------------------

    method CreateAuthorizeCodeSession(signature: string, request: Request, now: nat, fault: bool) returns (err: Error)
      requires Valid()
      modifies this
      ensures Performed(StepCreateCode(env, old(State()), signature, request, now, fault), Answer(None, err))
    {
      hide GrantOpen, Encode, WriteSnapshotMatches, InsertSession, InsertGrant, ExpiresAt, Micros;
      err := RequirePurpose(Authorize);
      if err != NoError {
        return;
      }
      issuanceAttempted := true;
      var encoded := Encode(env.registry, request);
      if encoded.None? {
        err := Fail();
        return;
      }
      var session := request.session;
      if session.accountId != binding.accountId || session.accountEpoch != authorizeEpoch
         || session.resource != binding.resource || request.clientId != binding.clientId {
        err := AccessDenied;
        return;
      }
      var expiry := ExpiresAt(session.expiresAt, AuthorizeCode);
      if expiry == 0 || fault {
        err := Fail();
        return;
      }
      var granted := InsertGrant(tx, request.id,
                                 Grant(session.accountEpoch, request.clientId, session.resource, None, Micros(expiry)));
      if granted.None? {
        err := Fail();
        return;
      }
      var inserted := InsertSession(granted.value, Key(Code, signature),
                                    Credential(request.id, encoded.value, Micros(expiry), None, false, false), now);
      if inserted.None? {
        err := Fail();
        return;
      }
      tx := inserted.value;
      codeCreated := true;
    }

    method CreatePKCERequestSession(signature: string, request: Request, now: nat, fault: bool) returns (err: Error)
      requires Valid()
      modifies this
      ensures Performed(StepCreatePkce(env, old(State()), signature, request, now, fault), Answer(None, err))
    {
      hide GrantOpen, Encode, WriteSnapshotMatches, InsertSession, InsertGrant, ExpiresAt, Micros;
      err := RequirePurpose(Authorize);
      if err != NoError {
        return;
      }
      issuanceAttempted := true;
      var encoded := Encode(env.registry, request);
      if encoded.None? || fault {
        err := Fail();
        return;
      }
      if request.id !in tx.grants || !GrantOpen(env, binding, tx, tx.grants[request.id]) {
        err := NotFound;
        return;
      }
      var expiry := ExpiresAt(request.session.expiresAt, AuthorizeCode);
      if !WriteSnapshotMatches(tx, request.id, request) || expiry == 0 {
        err := Fail();
        return;
      }
      var inserted := InsertSession(tx, Key(Pkce, signature),
                                    Credential(request.id, encoded.value, Micros(expiry), None, false, false), now);
      if inserted.None? {
        err := Fail();
        return;
      }
      tx := inserted.value;
      pkceCreated := true;
    }

    /** Success hands back the consent as it was, for its request to be opened again. */
    method ConsumePendingConsent(handle: string, session: string, at: Time, decision: Decision, fault: bool)
      returns (err: Error, stored: Option<Consent>)
      requires Valid()
      modifies this
      ensures Performed(StepConsumeConsent(old(State()), handle, session, at, decision, fault), Answer(None, err))
      ensures stored == if err == NoError && handle in old(tx.consents) then Some(old(tx.consents)[handle]) else None
    {
      stored := None;
      err := RequirePurpose(Authorize);
      if err != NoError {
        return;
      }
      if handle == "" || session == "" || at == 0 {
        err := AccessDenied;
        return;
      }
      if fault {
        err := Fail();
        return;
      }
      err := AccessDenied;
      if handle !in tx.consents || session !in tx.webSessions {
        return;
      }
      var webSession, consent := tx.webSessions[session], tx.consents[handle];
      if !tx.active || tx.epoch != webSession.accountEpoch || webSession.revoked || at >= webSession.expiresAt
         || consent.consumed || at >= consent.expiresAt {
        return;
      }
      if consent.session != session {
        return;
      }
      var (rows, count) := ConsumeConsentRow(tx, handle, session);
      if count != 1 {
        return;
      }
      tx := rows;
      consentDecision := Some(decision);
      err, stored := NoError, Some(consent);
    }

    // ---- token exchange ------------------------------------------------------------

    method GetAuthorizeCodeSession(signature: string, target: Option<Expirations>, fault: bool)
      returns (request: Option<Request>, err: Error)
      requires Valid()
      modifies this
      ensures Performed(StepGetCode(env, old(State()), signature, target, fault), Answer(request, err))
    {
      hide GrantOpen, Hydrate;
      request := None;
      err := RequirePurpose(TokenExchange);
      if err != NoError {
        return;
      }
      if !kind.CodeCredential? {
        err := NotFound;
        return;
      }
      var c: Option<Credential>;
      err, c := FetchCredential(Key(Code, signature), fault);
      if err != NoError {
        return;
      }
      var r := Hydrate(env, tx, c.value, Code, target);
      if r.None? {
        err := Fail();
        return;
      }
      if c.value.consumed {
        if !ProveCode(env, State(), r.value, signature) {
          err := NotFound;
          return;
        }
        replay := Some(Replay(c.value.requestId, CodeReplay));
        request, err := r, InvalidatedCode;
        return;
      }
      if c.value.revoked {
        err := NotFound;
        return;
      }
      request := r;
    }

    method InvalidateAuthorizeCodeSession(signature: string, fault: bool) returns (err: Error)
      requires Valid()
      modifies this
      ensures Performed(StepConsume(env, old(State()), Key(Code, signature), fault), Answer(None, err))
    {
      hide LockForMutation, ConsumeSession;
      err := RequirePurpose(TokenExchange);
      if err != NoError {
        return;
      }
      var key := Key(Code, signature);
      var c: Option<Credential>;
      err, c := FetchForMutation(key, fault);
      if err != NoError {
        return;
      }
      var (rows, count) := ConsumeSession(tx, key);
      if count != 1 {
        err := NotFound;
        return;
      }
      tx := rows;
    }

    method GetPKCERequestSession(signature: string, target: Option<Expirations>, fault: bool)
      returns (request: Option<Request>, err: Error)
      requires Valid()
      modifies this
      ensures Performed(StepGetPkce(env, old(State()), signature, target, fault), Answer(request, err))
    {
      hide GrantOpen, Hydrate;
      request := None;
      err := RequirePurpose(TokenExchange);
      if err != NoError {
        return;
      }
      var c: Option<Credential>;
      err, c := FetchCredential(Key(Pkce, signature), fault);
      if err != NoError {
        return;
      }
      if c.value.consumed || c.value.revoked {
        err := NotFound;
        return;
      }
      var r := Hydrate(env, tx, c.value, Pkce, target);
      if r.None? {
        err := Fail();
        return;
      }
      request := r;
    }

    method DeletePKCERequestSession(signature: string, fault: bool) returns (err: Error)
      requires Valid()
      modifies this
      ensures Performed(StepConsume(env, old(State()), Key(Pkce, signature), fault), Answer(None, err))
    {
      hide LockForMutation, ConsumeSession;
      err := RequirePurpose(TokenExchange);
      if err != NoError {
        return;
      }
      var key := Key(Pkce, signature);
      var c: Option<Credential>;
      err, c := FetchForMutation(key, fault);
      if err != NoError {
        return;
      }
      var (rows, count) := ConsumeSession(tx, key);
      if count != 1 {
        err := NotFound;
        return;
      }
      tx := rows;
    }

    method CreateAccessTokenSession(signature: string, request: Request, now: nat, fault: bool) returns (err: Error)
      requires Valid()
      modifies this
      ensures Performed(StepCreateAccess(env, old(State()), signature, request, now, fault), Answer(None, err))
    {
      hide GrantOpen, Encode, WriteSnapshotMatches, InsertSession, ExtendRetention, ExpiresAt, Micros;
      err := RequirePurpose(TokenExchange);
      if err != NoError {
        return;
      }
      issuanceAttempted := true;
      var encoded := Encode(env.registry, request);
      if encoded.None? || fault {
        err := Fail();
        return;
      }
      if request.id !in tx.grants || !GrantOpen(env, binding, tx, tx.grants[request.id]) {
        err := NotFound;
        return;
      }
      var expiry := ExpiresAt(request.session.expiresAt, AccessToken);
      if !WriteSnapshotMatches(tx, request.id, request) || expiry == 0 {
        err := Fail();
        return;
      }
      var inserted := InsertSession(tx, Key(Access, signature),
                                    Credential(request.id, encoded.value, Micros(expiry), None, false, false), now);
      if inserted.None? {
        err := Fail();
        return;
      }
      tx := ExtendRetention(inserted.value, request.id, Micros(expiry));
    }

    method CreateRefreshTokenSession(signature: string, accessSignature: string, request: Request, now: nat, fault: bool)
      returns (err: Error)
      requires Valid()
      modifies this
      ensures Performed(StepCreateRefresh(env, old(State()), signature, accessSignature, request, now, fault),
                        Answer(None, err))
    {
      hide GrantOpen, Encode, WriteSnapshotMatches, InsertSession, ExtendRetention, Hydrate, ExpiresAt, Micros;
      err := RequirePurpose(TokenExchange);
      if err != NoError {
        return;
      }
      issuanceAttempted := true;
      var encoded := Encode(env.registry, request);
      if encoded.None? || fault {
        err := Fail();
        return;
      }
      if request.id !in tx.grants || !GrantOpen(env, binding, tx, tx.grants[request.id]) {
        err := NotFound;
        return;
      }
      if !WriteSnapshotMatches(tx, request.id, request) {
        err := Fail();
        return;
      }
      if Key(Access, accessSignature) !in tx.creds {
        err := NotFound;
        return;
      }
      var access := tx.creds[Key(Access, accessSignature)];
      var expiry := ExpiresAt(request.session.expiresAt, RefreshToken);
      if access.requestId != request.id || access.revoked || Hydrate(env, tx, access, Access, None).None? || expiry == 0 {
        err := Fail();
        return;
      }
      var inserted := InsertSession(tx, Key(Refresh, signature),
        Credential(request.id, encoded.value, Micros(expiry), Some(accessSignature), false, false), now);
      if inserted.None? {
        err := Fail();
        return;
      }
      tx := ExtendRetention(inserted.value, request.id, Micros(expiry));
    }

    method GetRefreshTokenSession(signature: string, target: Option<Expirations>, fault: bool)
      returns (request: Option<Request>, err: Error)
      requires Valid()
      modifies this
      ensures Performed(StepGetRefresh(env, old(State()), signature, target, fault), Answer(request, err))
    {
      hide GrantOpen, Hydrate;
      request, err := None, NotFound;
      if finished {
        err := OperationRequired;
        return;
      }
      if !kind.RefreshCredential? && !kind.AccessOrRefresh? {
        return;
      }
      var c: Option<Credential>;
      err, c := FetchCredential(Key(Refresh, signature), fault);
      if err != NoError {
        return;
      }
      var r := Hydrate(env, tx, c.value, Refresh, target);
      if r.None? {
        err := Fail();
        return;
      }
      if c.value.consumed {
        if !binding.purpose.TokenExchange? || !kind.RefreshCredential? {
          err := InactiveToken;
          return;
        }
        if !ProveRefresh(env, State(), r.value, signature) {
          err := NotFound;
          return;
        }
        replay := Some(Replay(c.value.requestId, RefreshReplay));
        request, err := r, InactiveToken;
        return;
      }
      if c.value.revoked || (binding.purpose.Revocation? && !ProveRefresh(env, State(), r.value, signature)) {
        err := NotFound;
        return;
      }
      request := r;
    }

    method RotateRefreshToken(requestId: string, signature: string, fault: bool) returns (err: Error)
      requires Valid()
      modifies this
      ensures Performed(StepRotate(env, old(State()), requestId, signature, fault), Answer(None, err))
    {
      hide LockForMutation, ConsumeSession, RevokeAccessTokens;
      err := RequirePurpose(TokenExchange);
      if err != NoError {
        return;
      }
      var c: Option<Credential>;
      err, c := FetchForMutation(Key(Refresh, signature), fault);
      if err != NoError {
        return;
      }
      if c.value.requestId != requestId {
        err := NotFound;
        return;
      }
      var (rows, count) := ConsumeSession(tx, Key(Refresh, signature));
      if count != 1 {
        err := InactiveToken;
        return;
      }
      tx := rows;
      tx := RevokeAccessTokens(tx, requestId);
    }

    // ---- reads and revocation of single tokens -----------------------------------------

    method GetAccessTokenSession(signature: string, target: Option<Expirations>, fault: bool)
      returns (request: Option<Request>, err: Error)
      requires Valid()
      modifies this
      ensures Performed(StepGetAccess(env, old(State()), signature, target, fault), Answer(request, err))
    {
      hide GrantOpen, Hydrate;
      request, err := None, NotFound;
      if finished {
        err := OperationRequired;
        return;
      }
      if !kind.AccessCredential? && !kind.AccessOrRefresh? {
        return;
      }
      var c: Option<Credential>;
      err, c := FetchCredential(Key(Access, signature), fault);
      if err != NoError {
        return;
      }
      if c.value.consumed || c.value.revoked {
        err := NotFound;
        return;
      }
      var r := Hydrate(env, tx, c.value, Access, target);
      if r.None? {
        err := Fail();
        return;
      }
      if binding.purpose.Revocation? && !ProveAccess(env, State(), r.value, signature) {
        err := NotFound;
        return;
      }
      request := r;
    }

    method DeleteTokenSession(key: Key, fault: bool) returns (err: Error)
      requires Valid()
      modifies this
      ensures Performed(StepDelete(env, old(State()), key, fault), Answer(None, err))
    {
      hide LockForMutation, RevokeSession;
      if finished || binding.purpose.Introspection? {
        err := OperationRequired;
        return;
      }
      var c: Option<Credential>;
      err, c := FetchForMutation(key, fault);
      if err == NoError {
        tx := RevokeSession(tx, key);
      }
    }

    method RevokeGrant(requestId: string, fault: bool) returns (err: Error)
      requires Valid()
      modifies this
      ensures Performed(StepRevoke(env, old(State()), requestId, fault), Answer(None, err))
    {
      hide RevokeFamily, RecordEvent;
      if finished || (!binding.purpose.TokenExchange? && !binding.purpose.Revocation?) {
        err := OperationRequired;
        return;
      }
      if fault {
        err := Fail();
        return;
      }
      if !LockGrantForRevocation(env, State(), requestId) {
        err := NotFound;
        return;
      }
      if replay.Some? && replay.value.requestId != requestId {
        err := Fail();
        return;
      }
      var rows := RevokeFamily(tx, requestId, if replay.Some? then replay.value.kind else ClientRevoked);
      if replay.Some? && !replayComplete {
        var recorded := RecordEvent(rows, requestId, replay.value.kind);
        if recorded.None? {
          err := Fail();
          return;
        }
        rows := recorded.value;
        replayComplete := true;
      }
      tx := rows;
      err := NoError;
    }

    // ---- savepoints ------------------------------------------------------------------

    method BeginTX(fault: bool) returns (err: Error)
      requires Valid()
      modifies this
      ensures Performed(StepBeginSavepoint(old(State()), fault), Answer(None, err))
    {
      if finished {
        err := OperationRequired;
        return;
      }
      if openSavepoints != 0 {
        err := SavepointMisuse;
        return;
      }
      if fault {
        err := Fail();
        return;
      }
      savepoint := tx;
      openSavepoints := openSavepoints + 1;
      err := NoError;
    }

    method Commit(fault: bool) returns (err: Error)
      requires Valid()
      modifies this
      ensures Performed(StepCommitSavepoint(old(State()), fault), Answer(None, err))
    {
      if finished {
        err := OperationRequired;
        return;
      }
      if openSavepoints == 0 {
        err := SavepointMisuse;
        return;
      }
      if fault {
        err := Fail();
        return;
      }
      openSavepoints := openSavepoints - 1;
      err := NoError;
    }

    method RollbackSavepoint(fault: bool) returns (err: Error)
      requires Valid()
      modifies this
      ensures Performed(StepRollbackSavepoint(old(State()), fault), Answer(None, err))
    {
      if finished {
        err := OperationRequired;
        return;
      }
      if openSavepoints == 0 {
        err := SavepointMisuse;
        return;
      }
      if fault {
        err := Fail();
        return;
      }
      tx := savepoint;
      openSavepoints := openSavepoints - 1;
      err := NoError;
    }

    // ---- the end -----------------------------------------------------------------------

    /** Closes the outer transaction once: installs the private tables, or drops them. */
    method Finish(protocolErr: Error, fault: bool) returns (outcome: Outcome, failed: bool)
      requires Valid()
      modifies this, database
      ensures Valid() && finished && tx == old(tx)
      ensures closings == old(closings) + if old(finished) then 0 else 1
      ensures old(finished) ==> outcome == RolledBack && failed && database.rows == old(database.rows)
      ensures !old(finished) ==>
        Finished(outcome, failed, database.rows) ==
        OAuthOperation.Finish(old(State()), old(database.rows), protocolErr, fault)
    {
      if finished {
        return RolledBack, true;
      }
      finished := true;
      presented := "";
      outcome := RolledBack;
      var commit, inconsistent := false, false;
      if storageFailed || openSavepoints != 0 {
        inconsistent := true;
      } else if replayComplete && replay.Some? && !issuanceAttempted && protocolErr == InvalidGrant {
        commit, outcome := true, ReplayCommitted;
      } else if consentDecision == Some(Deny) && !issuanceAttempted && protocolErr == AccessDenied {
        commit, outcome := true, DeniedCommitted;
      } else if protocolErr == NoError && replay.None? && ApprovalCompleteNow() {
        commit, outcome := true, Committed;
      } else if replay.Some? || replayComplete || consentDecision.Some? || protocolErr == NoError {
        inconsistent := true;
      }
      ghost var policy := Policy(old(State()), protocolErr);
      assert commit ==> policy == Ok(outcome);
      assert !commit ==> policy == Err(inconsistent);
      hide Policy;
      closings := closings + 1;
      if !commit {
        return RolledBack, fault || inconsistent;
      }
      if fault {
        return RolledBack, true;
      }
      database.rows := tx;
      return outcome, false;
    }

    predicate ApprovalCompleteNow()
      reads this
    {
      !binding.purpose.Authorize? || (consentDecision == Some(Approve) && codeCreated && pkceCreated)
    }

    /** Releases an unfinished operation; after `Finish` it does nothing. */
    method Release(fault: bool) returns (failed: bool)
      requires Valid()
      modifies this`presented, this`finished, this`closings
      ensures Valid() && finished && presented == "" && database.rows == old(database.rows)
      ensures closings == old(closings) + if old(finished) then 0 else 1
      ensures failed == (!old(finished) && fault)
    {
      presented := "";
      failed := !finished && fault;
      closings := if finished then closings else closings + 1;
      finished := true;
    }

    /** Any store call of a driver. */
    method Perform(call: Call, fault: bool) returns (answer: Answer)
      requires Valid()
      modifies this
      ensures Performed(Step(env, old(State()), call, fault), answer)
    {
      hide StepCreateCode, StepCreateAccess, StepCreateRefresh, StepCreatePkce, StepConsume, StepRotate, StepDelete,
        StepRevoke, StepGetCode, StepGetAccess, StepGetRefresh, StepGetPkce, StepConsumeConsent, StepBeginSavepoint,
        StepCommitSavepoint, StepRollbackSavepoint, Performed, State;
      var request: Option<Request> := None;
      var err: Error;
      match call {
        case CreateCode(signature, r, now) => err := CreateAuthorizeCodeSession(signature, r, now, fault);
        case GetCode(signature, target) => request, err := GetAuthorizeCodeSession(signature, target, fault);
        case InvalidateCode(signature) => err := InvalidateAuthorizeCodeSession(signature, fault);
        case CreateAccess(signature, r, now) => err := CreateAccessTokenSession(signature, r, now, fault);
        case GetAccess(signature, target) => request, err := GetAccessTokenSession(signature, target, fault);
        case DeleteAccess(signature) => err := DeleteTokenSession(Key(Access, signature), fault);
        case CreateRefresh(signature, access, r, now) => err := CreateRefreshTokenSession(signature, access, r, now, fault);
        case GetRefresh(signature, target) => request, err := GetRefreshTokenSession(signature, target, fault);
        case DeleteRefresh(signature) => err := DeleteTokenSession(Key(Refresh, signature), fault);
        case Rotate(requestId, signature) => err := RotateRefreshToken(requestId, signature, fault);
        case Revoke(requestId) => err := RevokeGrant(requestId, fault);
        case CreatePkce(signature, r, now) => err := CreatePKCERequestSession(signature, r, now, fault);
        case GetPkce(signature, target) => request, err := GetPKCERequestSession(signature, target, fault);
        case DeletePkce(signature) => err := DeletePKCERequestSession(signature, fault);
        case ConsumeConsent(handle, session, at, decision) =>
          var consumed: Option<Consent>;
          err, consumed := ConsumePendingConsent(handle, session, at, decision, fault);
        case BeginSavepoint => err := BeginTX(fault);
        case CommitSavepoint => err := Commit(fault);
        case RollbackSavepoint => err := RollbackSavepoint(fault);
      }
      answer := Answer(request, err);
    }
  }

  /** Opens an operation after checking the trusted binding; an authorization also needs an active account. */
  method Begin(env: Env, database: Database, binding: Binding, kind: CredentialKind, presented: string, fault: bool)
    returns (op: Operation?, err: Error)
    ensures match OAuthOperation.Begin(env, binding, kind, presented, database.rows, fault)
            case Ok(o) => op != null && fresh(op) && err == NoError && op.State() == o && op.Valid() && !op.finished
                          && op.database == database && op.env == env
            case Err(e) => op == null && err == e
  {
    op := null;
    if !BindingAccepted(env, binding, kind, presented) {
      err := AccessDenied;
      return;
    }
    if fault {
      err := StorageFailure;
      return;
    }
    if binding.purpose.Authorize? && !database.rows.active {
      err := AccessDenied;
      return;
    }
    op := new Operation(env, database, binding, kind, presented);
    err := NoError;
  }
}
