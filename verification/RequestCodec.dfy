/**
  The bounded request snapshot kept in every credential row: what is written
  (`Encode`), what is accepted (`Validate`) and what is read back (`Decode`).
  A JSON document is identified with the record it carries.
 */
module RequestCodec {
  import opened Prelude
  import opened Strings

  type Time = int  // nanoseconds since the zero time; 0 is the zero time

  const STORED_REQUEST_VERSION := 1
  const SCOPE := "mcp:read"
  const STORED_FORM_KEYS: set<string> :=
    {"grant_type", "response_type", "scope", "client_id", "redirect_uri", "resource",
     "code_challenge", "code_challenge_method"}

  datatype TokenType = AuthorizeCode | AccessToken | RefreshToken | OtherToken(name: string)

  type Expirations = map<TokenType, Time>
  type Form = map<string, seq<string>>

  datatype Client = Client(redirectUris: set<string>)
  datatype Registry = Registry(resource: string, clients: map<string, Client>)

  datatype Session = Session(
    expiresAt: Expirations, subject: string, username: string, extra: set<string>,
    accountId: int, accountEpoch: int, resource: string)

  datatype Request = Request(
    id: string, requestedAt: Time, clientId: string,
    requestedScopes: seq<string>, grantedScopes: seq<string>,
    requestedAudience: seq<string>, grantedAudience: seq<string>,
    form: Form, session: Session)

  datatype StoredSession = StoredSession(
    expiresAt: Expirations, subject: string, accountId: int, accountEpoch: int, resource: string)

  datatype StoredRequest = StoredRequest(
    version: int, id: string, requestedAt: Time, clientId: string,
    requestedScopes: seq<string>, grantedScopes: seq<string>,
    requestedAudience: seq<string>, grantedAudience: seq<string>,
    form: Form, session: StoredSession)

  function FormatInt(n: int): string {
    if n < 0 then "-" + Itoa(-n) else Itoa(n)
  }

  function Join(parts: seq<string>, separator: string): string {
    if |parts| == 0 then "" else if |parts| == 1 then parts[0]
    else parts[0] + separator + Join(parts[1..], separator)
  }

  function FormGet(form: Form, key: string): string {
    if key in form && |form[key]| > 0 then form[key][0] else ""
  }

  function FilterStoredForm(form: Form): Form {
    map k | k in form && k in STORED_FORM_KEYS :: form[k]
  }

  /** The expiry recorded for a token type; the zero time when there is none. */
  function ExpiresAt(expiresAt: Expirations, t: TokenType): Time {
    if t in expiresAt then expiresAt[t] else 0
  }

  predicate ValidSession(s: StoredSession, resource: string) {
    && s.accountId > 0
    && s.accountEpoch >= 1
    && s.subject == FormatInt(s.accountId)
    && s.resource == resource
    && forall t :: t in s.expiresAt ==> !t.OtherToken? && s.expiresAt[t] != 0
  }

  predicate ValidForm(form: Form, stored: StoredRequest, client: Client) {
    && (forall k :: k in form ==> k in STORED_FORM_KEYS && |form[k]| == 1 && form[k][0] != "")
    && FormGet(form, "client_id") in {"", stored.clientId}
    && FormGet(form, "scope") in {"", Join(stored.requestedScopes, " ")}
    && FormGet(form, "resource") in {"", stored.session.resource}
    && FormGet(form, "redirect_uri") in {""} + client.redirectUris
    && FormGet(form, "grant_type") in {"", "authorization_code", "refresh_token"}
    && FormGet(form, "response_type") in {"", "code"}
    && FormGet(form, "code_challenge_method") ==
         (if FormGet(form, "code_challenge") == "" then "" else "S256")
  }

  predicate Validate(reg: Registry, s: StoredRequest) {
    && s.version == STORED_REQUEST_VERSION
    && !Blank(s.id)
    && s.requestedAt != 0
    && !Blank(s.clientId)
    && s.clientId in reg.clients
    && s.requestedScopes == [SCOPE]
    && (s.grantedScopes == [] || s.grantedScopes == [SCOPE])
    && s.requestedAudience == [reg.resource]
    && (s.grantedAudience == [] || s.grantedAudience == [reg.resource])
    && ValidSession(s.session, reg.resource)
    && ValidForm(s.form, s, reg.clients[s.clientId])
  }

  /** The snapshot of a request, before validation. */
  function Snapshot(r: Request): StoredRequest {
    StoredRequest(STORED_REQUEST_VERSION, r.id, r.requestedAt, r.clientId,
                  r.requestedScopes, r.grantedScopes, r.requestedAudience, r.grantedAudience,
                  FilterStoredForm(r.form),
                  StoredSession(r.session.expiresAt, r.session.subject, r.session.accountId,
                                r.session.accountEpoch, r.session.resource))
  }

  function Encode(reg: Registry, r: Request): Option<StoredRequest> {
    if r.clientId !in reg.clients || r.session.username != "" || r.session.extra != {} then None
    else if Validate(reg, Snapshot(r)) then Some(Snapshot(r))
    else None
  }

  /** An expiry already on the target session survives only where the snapshot has none. */
  function PreserveDerived(destination: Expirations, target: Expirations, t: TokenType): Expirations {
    if t in destination then destination
    else if ExpiresAt(target, t) != 0 then destination[t := ExpiresAt(target, t)]
    else destination
  }

  function HydratedExpirations(stored: Expirations, target: Option<Expirations>): Expirations {
    match target
    case None => stored
    case Some(derived) =>
      PreserveDerived(PreserveDerived(stored, derived, AccessToken), derived, RefreshToken)
  }

  function Hydrated(stored: StoredSession, target: Option<Expirations>): Session {
    Session(HydratedExpirations(stored.expiresAt, target), stored.subject, "", {},
            stored.accountId, stored.accountEpoch, stored.resource)
  }

  /** `target` is the expiry map of the session object passed in, if it has one. */
  function Decode(reg: Registry, s: StoredRequest, target: Option<Expirations>): Option<Request> {
    if !Validate(reg, s) then None
    else Some(Request(s.id, s.requestedAt, s.clientId, s.requestedScopes, s.grantedScopes,
                      s.requestedAudience, s.grantedAudience, s.form, Hydrated(s.session, target)))
  }

  /** The expiries a session object may add: those of tokens derived from the request. */
  predicate Derivable(t: TokenType) { t.AccessToken? || t.RefreshToken? }

  predicate Derives(target: Option<Expirations>, t: TokenType) {
    Derivable(t) && target.Some? && ExpiresAt(target.value, t) != 0
  }

  /**
    Key by key: a stored expiry stays, an access or refresh expiry of the target fills
    a gap, and nothing else appears.
   */
  lemma HydrationFillsGaps(stored: Expirations, target: Option<Expirations>, t: TokenType)
    ensures var r := HydratedExpirations(stored, target);
      && (t in r <==> t in stored || Derives(target, t))
      && (t in stored ==> r[t] == stored[t])
      && (t !in stored && Derives(target, t) ==> r[t] == target.value[t])
  {
  }

  /**
    Reading back a written snapshot gives the request again, its form cut down to the
    stored keys; into a session object with expiries of its own, only gaps are filled.
   */
  lemma DecodeAfterEncode(reg: Registry, r: Request, target: Option<Expirations>)
    requires Encode(reg, r).Some?
    ensures var read := Decode(reg, Encode(reg, r).value, target);
      && read.Some?
      && read.value == r.(form := FilterStoredForm(r.form), session := read.value.session)
      && read.value.session == r.session.(expiresAt := read.value.session.expiresAt)
      && (forall t :: t in read.value.session.expiresAt <==> t in r.session.expiresAt || Derives(target, t))
      && (forall t :: t in r.session.expiresAt ==> read.value.session.expiresAt[t] == r.session.expiresAt[t])
  {
    forall t
      ensures var e := HydratedExpirations(r.session.expiresAt, target);
        && (t in e <==> t in r.session.expiresAt || Derives(target, t))
        && (t in r.session.expiresAt ==> e[t] == r.session.expiresAt[t])
    {
      HydrationFillsGaps(r.session.expiresAt, target, t);
    }
    hide ValidForm, FormatInt;
  }

  /**
    A request that was read back is written again, as the very same snapshot exactly
    when the session object had nothing to add.
   */
  lemma EncodeAfterDecode(reg: Registry, s: StoredRequest, target: Option<Expirations>)
    requires Validate(reg, s)
    ensures var again := Encode(reg, Decode(reg, s, target).value);
      && again.Some? && again.value == s.(session := again.value.session)
      && (again == Some(s) <==> forall t :: Derives(target, t) ==> t in s.session.expiresAt)
  {
    assert FilterStoredForm(s.form) == s.form;
    var e := HydratedExpirations(s.session.expiresAt, target);
    forall t
      ensures (t in e <==> t in s.session.expiresAt || Derives(target, t))
      ensures t in e ==> !t.OtherToken? && e[t] != 0
      ensures t in s.session.expiresAt ==> e[t] == s.session.expiresAt[t]
    {
      HydrationFillsGaps(s.session.expiresAt, target, t);
    }
    assert (forall t :: Derives(target, t) ==> t in s.session.expiresAt) ==> e == s.session.expiresAt;
    hide ValidForm, FormatInt, HydratedExpirations;
  }

  /** Every other form field, the code verifier included, is gone from what is stored. */
  lemma StoredFormIsBounded(reg: Registry, r: Request, key: string)
    requires Encode(reg, r).Some? && key in Encode(reg, r).value.form
    ensures key in STORED_FORM_KEYS && key in r.form && r.form[key] == [FormGet(r.form, key)]
    ensures FormGet(r.form, key) != "" && "code_verifier" !in Encode(reg, r).value.form
  {
    assert "code_verifier"[5] == 'v' && |"code_challenge"| == 14;
  }

  /** A derived expiry on the target never replaces one that the snapshot carries. */
  lemma HydrationKeepsStored(stored: Expirations, target: Option<Expirations>, t: TokenType)
    requires t in stored || t == AuthorizeCode
    ensures ExpiresAt(HydratedExpirations(stored, target), t) == ExpiresAt(stored, t)
  {
  }

  /** The session object that the library hands in and the store fills. */
  class SessionObject {
    var defaults: Option<(Expirations, string)>  // expiry map and subject; None is a nil default session
    var accountId: int
    var accountEpoch: int
    var resource: string

    constructor (defaults: Option<(Expirations, string)>)
      ensures this.defaults == defaults
    {
      this.defaults := defaults;
      accountId, accountEpoch, resource := 0, 0, "";
    }

    function Derived(): Option<Expirations>
      reads this
    {
      if defaults.None? then None else Some(defaults.value.0)
    }

    predicate Holds(s: Session)
      reads this
    {
      && defaults == Some((s.expiresAt, s.subject))
      && s.username == "" && s.extra == {}
      && accountId == s.accountId && accountEpoch == s.accountEpoch && resource == s.resource
    }
  }

  method PreserveDerivedExpiration(destination: Expirations, target: Expirations, t: TokenType)
    returns (r: Expirations)
    ensures r == PreserveDerived(destination, target, t)
    ensures forall u :: u in destination ==> u in r && r[u] == destination[u]
    ensures forall u :: u in r && u !in destination ==> u == t && r[u] == ExpiresAt(target, t) != 0
    ensures ExpiresAt(target, t) != 0 ==> t in r
  {
    r := destination;
    if t in destination {
      return;
    }
    var expiration := ExpiresAt(target, t);
    if expiration != 0 {
      r := r[t := expiration];
    }
  }

  /** Fills the caller's session object in place, or a fresh one when there is none. */
  method HydrateSession(target: SessionObject?, stored: StoredSession) returns (session: SessionObject)
    modifies if target == null then {} else {target}
    ensures target == null ==> fresh(session) && session.Holds(Hydrated(stored, None))
    ensures target != null ==> session == target && session.Holds(Hydrated(stored, old(target.Derived())))
  {
    var expiresAt := stored.expiresAt;
    if target == null {
      session := new SessionObject(None);
    } else {
      session := target;
      if session.defaults.Some? {
        var derived := session.defaults.value.0;
        expiresAt := PreserveDerivedExpiration(expiresAt, derived, AccessToken);
        expiresAt := PreserveDerivedExpiration(expiresAt, derived, RefreshToken);
      }
    }
    session.defaults := Some((expiresAt, stored.subject));
    session.accountId := stored.accountId;
    session.accountEpoch := stored.accountEpoch;
    session.resource := stored.resource;
  }

  /** The form of a request, as far as it is stored: one value each, and those that must agree do. */
  predicate FormFits(r: Request, client: Client) {
    && (forall k :: k in r.form && k in STORED_FORM_KEYS ==> |r.form[k]| == 1 && r.form[k][0] != "")
    && ("client_id" in r.form ==> r.form["client_id"][0] == r.clientId)
    && ("scope" in r.form ==> r.form["scope"][0] == SCOPE)
    && ("resource" in r.form ==> r.form["resource"][0] == r.session.resource)
    && ("redirect_uri" in r.form ==> r.form["redirect_uri"][0] in client.redirectUris)
    && ("grant_type" in r.form ==> r.form["grant_type"][0] in {"authorization_code", "refresh_token"})
    && ("response_type" in r.form ==> r.form["response_type"][0] == "code")
    && ("code_challenge" in r.form <==> "code_challenge_method" in r.form)
    && ("code_challenge_method" in r.form ==> r.form["code_challenge_method"][0] == "S256")
  }

  /**
    What may be stored, read off the request itself: one scope and one audience, no more
    granted than asked, a registered client with its own redirect URI, the account named by
    its number, known expiries, and a challenge only with its method.
   */
  lemma EncodeIff(reg: Registry, r: Request)
    ensures Encode(reg, r).Some? <==>
      && !Blank(r.id) && r.requestedAt != 0 && !Blank(r.clientId) && r.clientId in reg.clients
      && r.requestedScopes == [SCOPE] && (r.grantedScopes == [] || r.grantedScopes == r.requestedScopes)
      && r.requestedAudience == [reg.resource] && (r.grantedAudience == [] || r.grantedAudience == r.requestedAudience)
      && r.session.username == "" && r.session.extra == {}
      && r.session.accountId > 0 && r.session.accountEpoch >= 1 && r.session.subject == FormatInt(r.session.accountId)
      && r.session.resource == reg.resource
      && (forall t :: t in r.session.expiresAt ==> !t.OtherToken? && r.session.expiresAt[t] != 0)
      && FormFits(r, reg.clients[r.clientId])
  {
    hide FormatInt, Blank;
    if r.clientId in reg.clients && r.requestedScopes == [SCOPE] {
      StoredFormFits(r, reg.clients[r.clientId]);
      hide FormFits, ValidForm;
    }
  }

  lemma StoredFormFits(r: Request, client: Client)
    requires r.requestedScopes == [SCOPE]
    ensures ValidForm(FilterStoredForm(r.form), Snapshot(r), client) <==> FormFits(r, client)
  {
    assert Join([SCOPE], " ") == SCOPE;
  }
}
