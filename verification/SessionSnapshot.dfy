/** The stored console session: what sessionStorage may hold, and how it is read and written. */
module SessionSnapshot {
  import opened Prelude

  /** The object keys the code looks at; every other key is Named. */
  datatype Key =
    | KSessionId | KTenantId | KAuthenticationState | KStatusView | KIssuedAt | KExpiresAt | KRefreshExpiresAt
    | KPrincipal | KTokenSet | KAccessToken | KRefreshToken | KExpiresIn | KRefreshExpiresIn | KScope | KTokenType
    | Named(name: string)

  datatype Json =
    | JNull | JBool(b: bool) | JNum(n: real) | JStr(s: string) | JArr(items: seq<Json>) | JObj(fields: map<Key, Json>)

  /** Reading a property of a value that is not null; absent properties are `undefined`. */
  function Field(j: Json, key: Key): Option<Json> {
    if j.JObj? && key in j.fields then Some(j.fields[key]) else None
  }

  predicate Truthy(v: Option<Json>) {
    match v
    case None => false
    case Some(JNull) => false
    case Some(JBool(b)) => b
    case Some(JNum(n)) => n != 0.0
    case Some(JStr(s)) => s != ""
    case Some(_) => true
  }

  predicate IsText(v: Option<Json>) { v.Some? && v.value.JStr? }

  predicate IsNumber(v: Option<Json>) { v.Some? && v.value.JNum? }

  datatype TokenSet = TokenSet(accessToken: string, refreshToken: string, expiresAt: string, refreshExpiresAt: string,
                               expiresIn: real, refreshExpiresIn: real, scope: string)

  datatype Session = Session(sessionId: string, tenantId: Option<string>, authenticationState: string,
                             statusView: string, issuedAt: string, expiresAt: string, refreshExpiresAt: string,
                             principal: Option<Json>, tokenSet: Option<TokenSet>)

  /** The content of the session key in sessionStorage. */
  datatype Stored = Missing | Unparsable | Parsed(json: Json)

  predicate ValidAuthenticationState(s: string) {
    s == "active" || s == "pending_activation" || s == "suspended" || s == "credentials_expired"
  }

  predicate ValidStatusView(s: string) {
    || s == "active" || s == "login" || s == "signup" || s == "pending_activation" || s == "account_suspended"
    || s == "credentials_expired" || s == "password_recovery"
  }

  predicate ValidTokenSet(j: Json) {
    && IsText(Field(j, KAccessToken)) && IsText(Field(j, KRefreshToken))
    && IsText(Field(j, KExpiresAt)) && IsText(Field(j, KRefreshExpiresAt))
    && IsNumber(Field(j, KExpiresIn)) && IsNumber(Field(j, KRefreshExpiresIn))
    && IsText(Field(j, KScope)) && Field(j, KTokenType) == Some(JStr("Bearer"))
  }

  function DecodeTokenSet(j: Json): TokenSet
    requires ValidTokenSet(j)
  {
    TokenSet(Field(j, KAccessToken).value.s, Field(j, KRefreshToken).value.s,
             Field(j, KExpiresAt).value.s, Field(j, KRefreshExpiresAt).value.s,
             Field(j, KExpiresIn).value.n, Field(j, KRefreshExpiresIn).value.n, Field(j, KScope).value.s)
  }

  /** What the three validation steps of readConsoleShellSession ask of an object with a textual session id. */
  predicate Acceptable(j: Json) {
    && IsText(Field(j, KAuthenticationState)) && ValidAuthenticationState(Field(j, KAuthenticationState).value.s)
    && IsText(Field(j, KStatusView)) && ValidStatusView(Field(j, KStatusView).value.s)
    && IsText(Field(j, KIssuedAt)) && IsText(Field(j, KExpiresAt)) && IsText(Field(j, KRefreshExpiresAt))
    && (Truthy(Field(j, KTokenSet)) ==> ValidTokenSet(Field(j, KTokenSet).value))
  }

  /** A non-empty text, as kept by `typeof x === 'string' && x`. */
  function NonEmptyText(v: Option<Json>): Option<string> {
    if IsText(v) && v.value.s != "" then Some(v.value.s) else None
  }

  function Decode(j: Json): Session
    requires IsText(Field(j, KSessionId)) && Acceptable(j)
  {
    Session(Field(j, KSessionId).value.s, NonEmptyText(Field(j, KTenantId)),
            Field(j, KAuthenticationState).value.s, Field(j, KStatusView).value.s, Field(j, KIssuedAt).value.s,
            Field(j, KExpiresAt).value.s, Field(j, KRefreshExpiresAt).value.s, Field(j, KPrincipal),
            if Truthy(Field(j, KTokenSet)) then Some(DecodeTokenSet(Field(j, KTokenSet).value)) else None)
  }

  /** readConsoleShellSession: the session found and the storage it leaves behind. */
  function Read(c: Stored): (Option<Session>, Stored) {
    match c
    case Missing => (None, Missing)
    case Unparsable => (None, Missing)
    case Parsed(j) =>
      if !IsText(Field(j, KSessionId)) then (None, c)
      else if !Acceptable(j) then (None, Missing)
      else (Some(Decode(j)), c)
  }

  /** The keys persistConsoleShellSession copies from the login response. */
  const COPIED: set<Key> :=
    {KSessionId, KAuthenticationState, KStatusView, KIssuedAt, KExpiresAt, KRefreshExpiresAt, KPrincipal, KTokenSet}

  /** The object persistConsoleShellSession writes; JSON.stringify drops the undefined members. */
  function Snapshot(login: Json, tenantId: Option<string>): Json {
    var copied := map k | k in COPIED && Field(login, k).Some? :: Field(login, k).value;
    JObj(if tenantId.Some? && tenantId.value != "" then copied[KTenantId := JStr(tenantId.value)] else copied)
  }

  /** The session type as the code declares it. */
  predicate WellTyped(s: Session) {
    && s.authenticationState in {"active", "pending_activation", "suspended", "credentials_expired"}
    && s.statusView in {"active", "login", "signup", "pending_activation", "account_suspended", "credentials_expired",
                        "password_recovery"}
    && (s.tenantId.Some? ==> s.tenantId.value != "")
  }

  /** A login response carrying exactly the members of s, plus any others in `extra`. */
  function LoginResponse(s: Session, extra: map<Key, Json>): Json {
    JObj((extra - COPIED)
         + map[KSessionId := JStr(s.sessionId), KAuthenticationState := JStr(s.authenticationState),
               KStatusView := JStr(s.statusView), KIssuedAt := JStr(s.issuedAt), KExpiresAt := JStr(s.expiresAt),
               KRefreshExpiresAt := JStr(s.refreshExpiresAt)]
         + (if s.principal.Some? then map[KPrincipal := s.principal.value] else map[])
         + (if s.tokenSet.Some? then map[KTokenSet := EncodeTokenSet(s.tokenSet.value)] else map[]))
  }

  function EncodeTokenSet(t: TokenSet): Json {
    JObj(map[KAccessToken := JStr(t.accessToken), KRefreshToken := JStr(t.refreshToken),
             KExpiresAt := JStr(t.expiresAt), KRefreshExpiresAt := JStr(t.refreshExpiresAt),
             KExpiresIn := JNum(t.expiresIn), KRefreshExpiresIn := JNum(t.refreshExpiresIn),
             KScope := JStr(t.scope), KTokenType := JStr("Bearer")])
  }

  /** Whatever is stored, reading yields nothing or a well-typed session, and a second read changes nothing. */
  lemma ReadIsSoundAndIdempotent(c: Stored)
    ensures Read(c).0.Some? ==> WellTyped(Read(c).0.value) && Read(c).1 == c
    ensures Read(c).1 == c || Read(c).1 == Missing
    ensures Read(Read(c).1) == Read(c)
    ensures Read(Missing) == (None, Missing)
  {
    if c.Parsed? && IsText(Field(c.json, KSessionId)) && Acceptable(c.json) {
      assert Read(c).1 == c;
    }
  }

  lemma SnapshotFields(login: Json, tenantId: Option<string>, k: Key)
    ensures k in COPIED ==> Field(Snapshot(login, tenantId), k) == Field(login, k)
    ensures k == KTenantId ==>
      Field(Snapshot(login, tenantId), k) ==
      (if tenantId.Some? && tenantId.value != "" then Some(JStr(tenantId.value)) else None)
  {}

  /** Persisting any response and reading it back succeeds exactly for acceptable responses, and takes the tenant
      only from the argument, never from the response. */
  lemma PersistThenRead(login: Json, tenantId: Option<string>)
    ensures var r := Read(Parsed(Snapshot(login, tenantId))).0;
      && (r.Some? <==> IsText(Field(login, KSessionId)) && Acceptable(login))
      && (r.Some? ==> r.value == Decode(login).(tenantId := if tenantId == Some("") then None else tenantId))
  {
    forall k | k in COPIED ensures Field(Snapshot(login, tenantId), k) == Field(login, k) {
      SnapshotFields(login, tenantId, k);
    }
    SnapshotFields(login, tenantId, KTenantId);
  }

  lemma TokenSetRoundTrip(t: TokenSet)
    ensures ValidTokenSet(EncodeTokenSet(t)) && DecodeTokenSet(EncodeTokenSet(t)) == t
  {
    var j := EncodeTokenSet(t);
    assert Field(j, KAccessToken) == Some(JStr(t.accessToken));
    assert Field(j, KRefreshToken) == Some(JStr(t.refreshToken));
    assert Field(j, KExpiresAt) == Some(JStr(t.expiresAt));
    assert Field(j, KRefreshExpiresAt) == Some(JStr(t.refreshExpiresAt));
  }

  /** The response carries exactly the members of s (its tenant is not read from a response). */
  predicate Carries(j: Json, s: Session) {
    && Field(j, KSessionId) == Some(JStr(s.sessionId))
    && Field(j, KAuthenticationState) == Some(JStr(s.authenticationState))
    && Field(j, KStatusView) == Some(JStr(s.statusView))
    && Field(j, KIssuedAt) == Some(JStr(s.issuedAt))
    && Field(j, KExpiresAt) == Some(JStr(s.expiresAt))
    && Field(j, KRefreshExpiresAt) == Some(JStr(s.refreshExpiresAt))
    && Field(j, KPrincipal) == s.principal
    && Field(j, KTokenSet) == (if s.tokenSet.Some? then Some(EncodeTokenSet(s.tokenSet.value)) else None)
  }

  /** A session that is read is the stored object member by member; one that is missing was never stored, and storage is
      emptied exactly when it cannot be parsed or has a session id but is not acceptable. */
  lemma ReadGivesWhatIsStored(c: Stored)
    ensures Read(c).0.Some? ==>
      && c.Parsed?
      && var s := Read(c).0.value;
         && Field(c.json, KSessionId) == Some(JStr(s.sessionId))
         && Field(c.json, KAuthenticationState) == Some(JStr(s.authenticationState))
         && Field(c.json, KStatusView) == Some(JStr(s.statusView)) && Field(c.json, KIssuedAt) == Some(JStr(s.issuedAt))
         && Field(c.json, KExpiresAt) == Some(JStr(s.expiresAt))
         && Field(c.json, KRefreshExpiresAt) == Some(JStr(s.refreshExpiresAt))
         && Field(c.json, KPrincipal) == s.principal
         && (s.tenantId.Some? ==> Field(c.json, KTenantId) == Some(JStr(s.tenantId.value)))
         && (s.tenantId.None? ==> !IsText(Field(c.json, KTenantId)) || Field(c.json, KTenantId) == Some(JStr("")))
         && (s.tokenSet.None? <==>
               Field(c.json, KTokenSet) in {None, Some(JNull), Some(JBool(false)), Some(JNum(0.0)), Some(JStr(""))})
         && (s.tokenSet.Some? ==> HoldsTokens(Field(c.json, KTokenSet).value, s.tokenSet.value))
    ensures Read(c).0.None? && c.Parsed? && IsText(Field(c.json, KSessionId)) ==> !Acceptable(c.json)
    ensures Read(c).1 == if c.Unparsable? || (c.Parsed? && IsText(Field(c.json, KSessionId)) && Read(c).0.None?)
                         then Missing else c
  {}

  /** The object has every member of t, with its type, and the bearer type. */
  predicate HoldsTokens(j: Json, t: TokenSet) {
    && Field(j, KAccessToken) == Some(JStr(t.accessToken)) && Field(j, KRefreshToken) == Some(JStr(t.refreshToken))
    && Field(j, KExpiresAt) == Some(JStr(t.expiresAt)) && Field(j, KRefreshExpiresAt) == Some(JStr(t.refreshExpiresAt))
    && Field(j, KExpiresIn) == Some(JNum(t.expiresIn)) && Field(j, KRefreshExpiresIn) == Some(JNum(t.refreshExpiresIn))
    && Field(j, KScope) == Some(JStr(t.scope)) && Field(j, KTokenType) == Some(JStr("Bearer"))
  }

  lemma LoginResponseCarries(s: Session, extra: map<Key, Json>)
    ensures Carries(LoginResponse(s, extra), s)
  {}

  /** Persisting a response that carries a well-typed session, and reading it back, returns that session unchanged. */
  lemma RoundTrip(login: Json, s: Session)
    requires WellTyped(s) && Carries(login, s)
    ensures Read(Parsed(Snapshot(login, s.tenantId))).0 == Some(s)
  {
    PersistThenRead(login, s.tenantId);
    if s.tokenSet.Some? {
      TokenSetRoundTrip(s.tokenSet.value);
    }
  }
}
