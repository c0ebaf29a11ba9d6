/**
  Row locks. Store operations, consent calls, logins, grant cleanup and account
  blocking all take the account row first and then only rows of that account and
  at most one pending consent, after its session; a logout takes one web session
  row and nothing else. The short cleanups skip rows that are locked, but deleting
  a web session still waits for the consents bound to it. Under that discipline
  the waits-for relation has no cycle.
 */
module LockOrder {
  import opened Prelude

  datatype Resource =
    | Account(account: int)
    | WebSession(account: int, session: string)
    | Consent(handle: string)
    | GrantRow(account: int, requestId: string)
    | CredentialRow(account: int, signature: string)

  // ---- what each path locks, in its order ------------------------------------------

  datatype Action =
    | BeginAuthorize
    | UseConsent(session: string, handle: string)
    | LockCredential(requestId: string, signature: string)
    | LockGrant(requestId: string)
    | CreateCode(requestId: string, signature: string)
    | CreatePkce(requestId: string, signature: string)
    | CreateAccess(requestId: string, signature: string)
    | CreateRefresh(requestId: string, access: string, signature: string)
    | Rotate(requestId: string, signature: string, accessSignatures: seq<string>)
    | Login(session: string)
    | RevokeFamily(requestId: string, signatures: seq<string>)
    | DeleteFamily(requestId: string, signatures: seq<string>)
    | BlockAccount(sessions: seq<string>, requestIds: seq<string>)

  function CredentialRows(a: int, signatures: seq<string>): seq<Resource> {
    seq(|signatures|, i requires 0 <= i < |signatures| => CredentialRow(a, signatures[i]))
  }

  function Locks(a: int, action: Action): seq<Resource> {
    match action
    case BeginAuthorize => [Account(a)]
    case UseConsent(session, handle) => [Account(a), WebSession(a, session), Consent(handle)]
    case LockCredential(requestId, signature) =>
      [Account(a), GrantRow(a, requestId), CredentialRow(a, signature)]
    case LockGrant(requestId) => [Account(a), GrantRow(a, requestId)]
    case CreateCode(requestId, signature) => [GrantRow(a, requestId), CredentialRow(a, signature)]
    case CreatePkce(requestId, signature) =>
      [Account(a), GrantRow(a, requestId), CredentialRow(a, signature)]
    case CreateAccess(requestId, signature) =>
      [Account(a), GrantRow(a, requestId), CredentialRow(a, signature)]
    case CreateRefresh(requestId, access, signature) =>
      [Account(a), GrantRow(a, requestId), CredentialRow(a, access), CredentialRow(a, signature)]
    case Rotate(requestId, signature, accessSignatures) =>
      [Account(a), GrantRow(a, requestId), CredentialRow(a, signature)] + CredentialRows(a, accessSignatures)
    case Login(session) => [Account(a), WebSession(a, session)]
    case RevokeFamily(requestId, signatures) =>
      [Account(a), GrantRow(a, requestId)] + CredentialRows(a, signatures)
    case DeleteFamily(requestId, signatures) =>
      [Account(a), GrantRow(a, requestId)] + CredentialRows(a, signatures) + [GrantRow(a, requestId)]
    case BlockAccount(sessions, requestIds) =>
      [Account(a)]
      + seq(|sessions|, i requires 0 <= i < |sessions| => WebSession(a, sessions[i]))
      + seq(|requestIds|, i requires 0 <= i < |requestIds| => GrantRow(a, requestIds[i]))
  }

  function Script(a: int, actions: seq<Action>): seq<Resource> {
    if actions == [] then [] else Locks(a, actions[0]) + Script(a, actions[1..])
  }

  // ---- the discipline ----------------------------------------------------------------

  /** A resource of account a, or the one consent of the transaction. */
  predicate Own(r: Resource, a: int, handle: string) {
    match r
    case Account(b) => b == a
    case WebSession(b, _) => b == a
    case Consent(h) => h == handle
    case GrantRow(b, _) => b == a
    case CredentialRow(b, _) => b == a
  }

  /** After its consent a transaction locks no further web session. */
  predicate SessionsFirst(script: seq<Resource>) {
    forall n, m :: 0 <= n < m < |script| && script[n].Consent? && script[m].WebSession? ==> script[m] in script[..n]
  }

  predicate Disciplined(script: seq<Resource>, a: int, handle: string) {
    && script != [] && script[0] == Account(a)
    && (forall r :: r in script ==> Own(r, a, handle))
    && SessionsFirst(script)
  }

  /** All consent calls of a transaction name one consent and one session; blocking and login are on their own. */
  predicate OneConsent(actions: seq<Action>, session: string, handle: string) {
    && (forall i :: 0 <= i < |actions| && actions[i].UseConsent? ==>
          actions[i].handle == handle && actions[i].session == session)
    && (forall i :: 0 <= i < |actions| && (actions[i].BlockAccount? || actions[i].Login?) ==> |actions| == 1)
  }

  lemma {:induction false} ScriptIsOwn(a: int, actions: seq<Action>, handle: string)
    requires forall i :: 0 <= i < |actions| && actions[i].UseConsent? ==> actions[i].handle == handle
    ensures forall r :: r in Script(a, actions) ==> Own(r, a, handle)
  {
    if actions != [] {
      assert forall i :: 0 <= i < |actions[1..]| ==> actions[1..][i] == actions[i + 1];
      ScriptIsOwn(a, actions[1..], handle);
      assert forall r :: r in Locks(a, actions[0]) ==> Own(r, a, handle);
    }
  }

  /** Every web session of the script is the one session, locked before any consent. */
  predicate OneSession(script: seq<Resource>, r: Resource) {
    && (forall m :: 0 <= m < |script| && script[m].WebSession? ==> script[m] == r)
    && (forall n :: 0 <= n < |script| && script[n].Consent? ==> r in script[..n])
  }

  lemma OneSessionJoins(s: seq<Resource>, t: seq<Resource>, r: Resource)
    requires OneSession(s, r) && OneSession(t, r)
    ensures OneSession(s + t, r)
  {
    forall n | 0 <= n < |s + t| && (s + t)[n].Consent?
      ensures r in (s + t)[..n]
    {
      if n < |s| {
        assert (s + t)[..n] == s[..n];
      } else {
        assert (s + t)[..n] == s + t[..n - |s|];
      }
    }
  }

  lemma {:induction false} ScriptHasOneSession(a: int, actions: seq<Action>, session: string, handle: string)
    requires OneConsent(actions, session, handle)
    requires forall i :: 0 <= i < |actions| ==> !actions[i].BlockAccount? && !actions[i].Login?
    ensures OneSession(Script(a, actions), WebSession(a, session))
  {
    if actions != [] {
      assert forall i :: 0 <= i < |actions[1..]| ==> actions[1..][i] == actions[i + 1];
      ScriptHasOneSession(a, actions[1..], session, handle);
      ActionHasOneSession(a, actions[0], session);
      OneSessionJoins(Locks(a, actions[0]), Script(a, actions[1..]), WebSession(a, session));
    }
  }

  lemma ActionHasOneSession(a: int, action: Action, session: string)
    requires !action.BlockAccount? && !action.Login? && (action.UseConsent? ==> action.session == session)
    ensures OneSession(Locks(a, action), WebSession(a, session))
  {
    if action.UseConsent? {
      var locks := Locks(a, action);
      assert locks[..2] == [Account(a), WebSession(a, session)];
    }
  }

  /**
    Whatever calls a transaction makes on one account, with one consent at most,
    its locks follow the discipline. A code is created only after the account was locked.
   */
  lemma EveryPathIsDisciplined(a: int, actions: seq<Action>, session: string, handle: string)
    requires actions != [] && !actions[0].CreateCode? && OneConsent(actions, session, handle)
    ensures Disciplined(Script(a, actions), a, handle)
  {
    ScriptIsOwn(a, actions, handle);
    var script := Script(a, actions);
    if |actions| == 1 && (actions[0].BlockAccount? || actions[0].Login?) {
      assert actions[1..] == [] && Script(a, actions[1..]) == [];
      assert script == Locks(a, actions[0]) + [] == Locks(a, actions[0]);
    } else {
      ScriptHasOneSession(a, actions, session, handle);
      SessionIsFirst(script, WebSession(a, session));
    }
  }

  lemma SessionIsFirst(script: seq<Resource>, r: Resource)
    requires OneSession(script, r)
    ensures SessionsFirst(script)
  {
  }

  lemma {:induction false} ScriptJoins(a: int, first: seq<Action>, rest: seq<Action>)
    ensures Script(a, first + rest) == Script(a, first) + Script(a, rest)
  {
    if first == [] {
      assert first + rest == rest;
    } else {
      assert (first + rest)[0] == first[0] && (first + rest)[1..] == first[1..] + rest;
      ScriptJoins(a, first[1..], rest);
    }
  }

  /** Whatever calls follow a rollback to the savepoint after the `kept` calls, the locks stay disciplined. */
  lemma RolledBackPathIsDisciplined(a: int, kept: seq<Action>, rest: seq<Action>, session: string, handle: string)
    requires kept + rest != [] && !(kept + rest)[0].CreateCode? && OneConsent(kept + rest, session, handle)
    ensures Disciplined(Script(a, kept) + Script(a, rest), a, handle)
  {
    ScriptJoins(a, kept, rest);
    EveryPathIsDisciplined(a, kept + rest, session, handle);
  }

  // ---- running transactions ------------------------------------------------------------

  datatype Kind = Member | Logout | SessionCleanup | ConsentCleanup

  // A transaction has taken the locks before pc and asks for the one at pc.
  datatype Tx = Tx(kind: Kind, script: seq<Resource>, pc: nat, account: int, handle: string) {
    predicate Holds(r: Resource) requires pc <= |script| { r in script[..pc] }

    predicate Waiting() requires pc <= |script| { pc < |script| && !Holds(script[pc]) }
  }

  /**
    `bound` gives the web session that a consent is bound to. A cleanup takes the rows of
    its batch at once, leaving out those that are locked; then the session cleanup goes on
    to the consents of the sessions it holds.
   */
  ghost predicate WellFormed(bound: string -> Resource, t: Tx) {
    && t.pc <= |t.script|
    && match t.kind
       case Member => Disciplined(t.script, t.account, t.handle)
       case Logout => |t.script| == 1 && t.script[0].WebSession?
       case ConsentCleanup => t.pc == |t.script| && forall r :: r in t.script ==> r.Consent?
       case SessionCleanup =>
         && (forall r :: r in t.script[..t.pc] ==> r.WebSession? || r.Consent?)
         && (forall r :: r in t.script && r.Consent? ==> bound(r.handle).WebSession? && bound(r.handle) in t.script[..t.pc])
         && (forall n :: t.pc <= n < |t.script| ==> t.script[n].Consent?)
  }

  ghost predicate LocksInv(bound: string -> Resource, txs: map<int, Tx>) {
    && (forall i :: i in txs ==> WellFormed(bound, txs[i]))
    && (forall i, j, n, m :: i in txs && j in txs && i != j && 0 <= n < txs[i].pc && 0 <= m < txs[j].pc ==>
          txs[i].script[n] != txs[j].script[m])
  }

  ghost predicate BlockedBy(bound: string -> Resource, txs: map<int, Tx>, i: int, j: int)
    requires LocksInv(bound, txs)
  {
    i in txs && j in txs && i != j && txs[i].pc < |txs[i].script| && txs[j].Holds(txs[i].script[txs[i].pc])
  }

  ghost predicate Runnable(bound: string -> Resource, txs: map<int, Tx>, i: int)
    requires LocksInv(bound, txs)
  {
    i in txs && forall j :: j in txs ==> !BlockedBy(bound, txs, i, j)
  }

  /** One transaction takes its next lock, or ends and releases all of them. */
  ghost function Advance(bound: string -> Resource, txs: map<int, Tx>, i: int): map<int, Tx>
    requires LocksInv(bound, txs) && Runnable(bound, txs, i)
  {
    var t := txs[i];
    if t.pc == |t.script| then txs - {i} else txs[i := t.(pc := t.pc + 1)]
  }

  lemma NextStaysWellFormed(bound: string -> Resource, t: Tx)
    requires WellFormed(bound, t) && t.pc < |t.script|
    ensures WellFormed(bound, t.(pc := t.pc + 1))
  {
    assert t.script[..t.pc + 1] == t.script[..t.pc] + [t.script[t.pc]];
  }

  lemma AdvanceKeepsExclusive(bound: string -> Resource, txs: map<int, Tx>, i: int)
    requires LocksInv(bound, txs) && Runnable(bound, txs, i)
    ensures LocksInv(bound, Advance(bound, txs, i))
  {
    var t := txs[i];
    if t.pc < |t.script| {
      NextStaysWellFormed(bound, t);
      forall j, m | j in txs && j != i && 0 <= m < txs[j].pc
        ensures t.script[t.pc] != txs[j].script[m]
      {
        assert !BlockedBy(bound, txs, i, j);
        assert txs[j].script[m] == txs[j].script[..txs[j].pc][m];
      }
    }
    hide WellFormed;
  }

  /**
    A transaction rolls back to a savepoint: it keeps the locks it held there, gives up
    the later ones and goes on with other calls, which lock `rest`. If it kept no lock
    and takes no other, it is gone from the tables of locks.
   */
  predicate CanRollBack(t: Tx, kept: nat, rest: seq<Resource>, account: int, handle: string) {
    && t.kind.Member? && kept <= t.pc <= |t.script|
    && (t.script[..kept] + rest != [] ==> Disciplined(t.script[..kept] + rest, account, handle))
  }

  ghost function RollBack(
    bound: string -> Resource, txs: map<int, Tx>, i: int, kept: nat, rest: seq<Resource>, account: int, handle: string)
    : map<int, Tx>
    requires LocksInv(bound, txs) && i in txs && CanRollBack(txs[i], kept, rest, account, handle)
  {
    var script := txs[i].script[..kept] + rest;
    if script == [] then txs - {i} else txs[i := Tx(Member, script, kept, account, handle)]
  }

  lemma RollBackKeepsExclusive(
    bound: string -> Resource, txs: map<int, Tx>, i: int, kept: nat, rest: seq<Resource>, account: int, handle: string)
    requires LocksInv(bound, txs) && i in txs && CanRollBack(txs[i], kept, rest, account, handle)
    ensures LocksInv(bound, RollBack(bound, txs, i, kept, rest, account, handle))
  {
    hide Disciplined;
    var script := txs[i].script[..kept] + rest;
    assert forall n :: 0 <= n < kept ==> script[n] == txs[i].script[n];
  }

  /** How far a request is from running; what is already held or uncontended ranks lowest. */
  function Rank(t: Tx): nat
    requires t.pc <= |t.script|
  {
    if !t.Waiting() then 0
    else match t.kind
         case Logout => 4
         case SessionCleanup => 1
         case ConsentCleanup => 0
         case Member =>
           match t.script[t.pc]
           case Account(_) => 4
           case WebSession(_, _) => 3
           case Consent(_) => 2
           case _ => 0
  }

  ghost function RankOf(bound: string -> Resource, txs: map<int, Tx>, i: int): nat
    requires LocksInv(bound, txs) && i in txs
  {
    Rank(txs[i])
  }

  lemma Exclusive(bound: string -> Resource, txs: map<int, Tx>, i: int, j: int, r: Resource)
    requires LocksInv(bound, txs) && i in txs && j in txs && i != j
    requires r in txs[i].script[..txs[i].pc]
    ensures r !in txs[j].script[..txs[j].pc]
  {
    var n :| 0 <= n < txs[i].pc && txs[i].script[n] == r;
    hide WellFormed;
  }

  /** A member that holds its consent asks for nothing that anyone else could hold. */
  lemma PastItsConsent(u: Tx, handle: string)
    requires u.kind.Member? && u.pc <= |u.script| && Disciplined(u.script, u.account, u.handle)
    requires Consent(handle) in u.script[..u.pc]
    ensures Rank(u) == 0
  {
    var n :| 0 <= n < u.pc && u.script[n] == Consent(handle);
    assert Own(u.script[n], u.account, u.handle);
    assert u.script[0] in u.script[..u.pc];
    if u.pc < |u.script| {
      var r := u.script[u.pc];
      assert Own(r, u.account, u.handle);
      if r.WebSession? {
        assert r in u.script[..n];
        assert u.script[..n] <= u.script[..u.pc];
      }
    }
  }

  /** A member that holds any lock holds its account, so it does not ask for one. */
  lemma PastItsAccount(u: Tx)
    requires u.kind.Member? && 0 < u.pc <= |u.script| && Disciplined(u.script, u.account, u.handle)
    ensures Rank(u) <= 3 && Account(u.account) in u.script[..u.pc]
  {
    assert u.script[0] in u.script[..u.pc];
    if u.pc < |u.script| { assert Own(u.script[u.pc], u.account, u.handle); }
  }

  /** Only account rows, consents and web sessions are ever contended, and waiting leads down the rank. */
  lemma WaitingGoesDown(bound: string -> Resource, txs: map<int, Tx>, i: int, j: int)
    requires LocksInv(bound, txs) && BlockedBy(bound, txs, i, j)
    ensures RankOf(bound, txs, j) < RankOf(bound, txs, i)
  {
    var t, u := txs[i], txs[j];
    var r := t.script[t.pc];
    assert WellFormed(bound, t) && WellFormed(bound, u);
    if t.Holds(r) { Exclusive(bound, txs, i, j, r); }
    hide LocksInv;
    match t.kind {
      case ConsentCleanup =>
      case Logout => LogoutGoesDown(bound, t, u);
      case SessionCleanup => CleanupGoesDown(bound, txs, i, j);
      case Member => MemberGoesDown(bound, txs, i, j);
    }
  }

  lemma LogoutGoesDown(bound: string -> Resource, t: Tx, u: Tx)
    requires WellFormed(bound, t) && WellFormed(bound, u) && t.kind.Logout? && t.Waiting() && u.Holds(t.script[t.pc])
    ensures Rank(u) < Rank(t)
  {
    if u.kind.Member? { PastItsAccount(u); }
  }

  lemma CleanupGoesDown(bound: string -> Resource, txs: map<int, Tx>, i: int, j: int)
    requires LocksInv(bound, txs) && BlockedBy(bound, txs, i, j) && txs[i].kind.SessionCleanup? && txs[i].Waiting()
    ensures Rank(txs[j]) < Rank(txs[i])
  {
    var t, u := txs[i], txs[j];
    var r := t.script[t.pc];
    assert WellFormed(bound, t) && WellFormed(bound, u);
    assert r.Consent? && r in t.script && r in u.script[..u.pc];
    var n :| 0 <= n < u.pc && u.script[n] == r;
    assert r in u.script;
    var session := bound(r.handle);
    if u.kind.Member? {
      PastItsConsent(u, r.handle);
    } else if u.kind.SessionCleanup? {
      Exclusive(bound, txs, i, j, session);
      assert false;
    }
  }

  lemma MemberGoesDown(bound: string -> Resource, txs: map<int, Tx>, i: int, j: int)
    requires LocksInv(bound, txs) && BlockedBy(bound, txs, i, j) && txs[i].kind.Member? && txs[i].Waiting()
    ensures Rank(txs[j]) < Rank(txs[i])
  {
    var t, u := txs[i], txs[j];
    var r := t.script[t.pc];
    assert WellFormed(bound, t) && WellFormed(bound, u);
    assert Own(r, t.account, t.handle) && r in u.script[..u.pc];
    if u.kind.Member? {
      PastItsAccount(u);
      var m :| 0 <= m < u.pc && u.script[m] == r;
      assert Own(r, u.account, u.handle);
      if r.Consent? {
        PastItsConsent(u, r.handle);
      } else if t.pc > 0 {
        PastItsAccount(t);
        Exclusive(bound, txs, i, j, Account(t.account));
        assert false;
      }
    }
  }

  /** Following who blocks whom always ends at a transaction that can run: no deadlock. */
  lemma {:induction false} NoDeadlock(bound: string -> Resource, txs: map<int, Tx>, i: int) returns (k: int)
    requires LocksInv(bound, txs) && i in txs
    ensures Runnable(bound, txs, k)
    decreases RankOf(bound, txs, i)
  {
    if Runnable(bound, txs, i) {
      k := i;
    } else {
      var j :| j in txs && BlockedBy(bound, txs, i, j);
      WaitingGoesDown(bound, txs, i, j);
      k := NoDeadlock(bound, txs, j);
    }
  }

  /** In particular no chain of waiting transactions closes into a cycle. */
  lemma {:induction false} NoWaitCycle(bound: string -> Resource, txs: map<int, Tx>, chain: seq<int>)
    requires LocksInv(bound, txs) && |chain| >= 2
    requires forall n :: 0 <= n < |chain| - 1 ==> BlockedBy(bound, txs, chain[n], chain[n + 1])
    ensures chain[|chain| - 1] in txs && chain[0] in txs
    ensures RankOf(bound, txs, chain[|chain| - 1]) < RankOf(bound, txs, chain[0]) && chain[0] != chain[|chain| - 1]
  {
    hide LocksInv, Rank;
    assert BlockedBy(bound, txs, chain[0], chain[1]);
    WaitingGoesDown(bound, txs, chain[0], chain[1]);
    if |chain| > 2 {
      var rest := chain[1..];
      forall n | 0 <= n < |rest| - 1
        ensures BlockedBy(bound, txs, rest[n], rest[n + 1])
      {
        assert BlockedBy(bound, txs, chain[n + 1], chain[n + 2]);
      }
      NoWaitCycle(bound, txs, rest);
    }
  }
}
