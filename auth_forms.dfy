/**
 * What the login and register pages share, expression for expression:
 * the e-mail pattern `^[^\s@]+@[^\s@]+\.[^\s@]+$` of app/login/page.tsx and
 * app/register/page.tsx, the token lookup `res.data?.data?.token ||
 * res.data?.token` of all four auth pages, and the failure message
 * `response?.data?.message || message || "Login failed"` of
 * pages/register.tsx and pages/login.js.
 */
module AuthForms {
  import opened Wrappers
  import opened JsText
  import opened Api

  // ---------------------------------------------------------------------------
  // The e-mail pattern
  // ---------------------------------------------------------------------------

  /** A character of the class `[^\s@]`. */
  predicate IsPlain(c: char) {
    !IsWhitespace(c) && c != '@'
  }

  predicate AllPlain(s: string) {
    forall k | 0 <= k < |s| :: IsPlain(s[k])
  }

  /**
   * The strings the anchored pattern matches: a non-empty run of `[^\s@]`,
   * an `@`, a non-empty run, a `.`, and a non-empty run.
   */
  ghost predicate MatchesEmailPattern(s: string) {
    exists local, domain, tld ::
      && local != [] && domain != [] && tld != []
      && AllPlain(local) && AllPlain(domain) && AllPlain(tld)
      && s == local + "@" + domain + "." + tld
  }

  /** The index of the first `@`, or `|s|` when there is none. */
  function FirstAt(s: string): (a: nat)
    ensures a <= |s|
    ensures a < |s| ==> s[a] == '@'
    ensures forall k | 0 <= k < a :: s[k] != '@'
  {
    if s == [] || s[0] == '@' then 0 else 1 + FirstAt(s[1..])
  }

  /** A `.` that is neither the first nor the last character. */
  predicate HasInnerDot(d: string) {
    exists k | 0 < k < |d| - 1 :: d[k] == '.'
  }

  /**
   * The pattern test as a scan: an `@` that is not the first character,
   * no whitespace or further `@` on either side of it, and a `.` strictly
   * inside the part after it.
   */
  function IsValidEmail(s: string): (ok: bool)
    ensures ok ==> 5 <= |s| && FirstAt(s) < |s|
  {
    var a := FirstAt(s);
    && 0 < a < |s|
    && AllPlain(s[..a])
    && AllPlain(s[a + 1..])
    && HasInnerDot(s[a + 1..])
  }

  /** The scan accepts exactly the strings the pattern matches. */
  lemma EmailScanMatchesPattern(s: string)
    ensures IsValidEmail(s) <==> MatchesEmailPattern(s)
  {
    if IsValidEmail(s) {
      ScanFindsPattern(s);
    }
    if MatchesEmailPattern(s) {
      var local, domain, tld :|
        && local != [] && domain != [] && tld != []
        && AllPlain(local) && AllPlain(domain) && AllPlain(tld)
        && s == local + "@" + domain + "." + tld;
      PatternPassesScan(s, local, domain, tld);
    }
  }

  lemma ScanFindsPattern(s: string)
    requires IsValidEmail(s)
    ensures MatchesEmailPattern(s)
  {
    var a := FirstAt(s);
    var d := s[a + 1..];
    var k :| 0 < k < |d| - 1 && d[k] == '.';
    var local, domain, tld := s[..a], d[..k], d[k + 1..];
    assert AllPlain(domain) && AllPlain(tld) by {
      assert forall j | 0 <= j < |domain| :: domain[j] == d[j];
      assert forall j | 0 <= j < |tld| :: tld[j] == d[k + 1 + j];
    }
    assert d == domain + "." + tld;
    assert s == local + "@" + d;
    assert s == local + "@" + domain + "." + tld;
  }

  lemma PatternPassesScan(s: string, local: string, domain: string, tld: string)
    requires local != [] && domain != [] && tld != []
    requires AllPlain(local) && AllPlain(domain) && AllPlain(tld)
    requires s == local + "@" + domain + "." + tld
    ensures IsValidEmail(s)
  {
    var a := |local|;
    var d := domain + "." + tld;
    assert s == local + "@" + d;
    assert s[a] == '@';
    assert forall k | 0 <= k < a :: s[k] == local[k];
    assert FirstAt(s) == a;
    assert s[..a] == local;
    assert s[a + 1..] == d;
    assert d[|domain|] == '.';
    DotJoinIsPlain(domain, tld);
  }

  /** Two runs of `[^\s@]` joined by a `.` form one. */
  lemma DotJoinIsPlain(domain: string, tld: string)
    requires AllPlain(domain) && AllPlain(tld)
    ensures AllPlain(domain + "." + tld)
  {
    var d := domain + "." + tld;
    forall j | 0 <= j < |d| ensures IsPlain(d[j]) {
      if j < |domain| {
        assert d[j] == domain[j];
      } else if j > |domain| {
        assert d[j] == tld[j - |domain| - 1];
      }
    }
  }

  /**
   * An address the pattern accepts has no whitespace at either end, so the
   * `email.trim()` the pages send is the address as typed; conversely an
   * address typed with surrounding whitespace is always rejected.
   */
  lemma ValidEmailIsTrimmed(s: string)
    ensures IsValidEmail(s) ==> Trim(s) == s
    ensures |s| > 0 && (IsWhitespace(s[0]) || IsWhitespace(s[|s| - 1])) ==> !IsValidEmail(s)
  {
    if IsValidEmail(s) {
      var a := FirstAt(s);
      assert IsPlain(s[..a][0]);
      assert IsPlain(s[a + 1..][|s| - a - 2]);
    }
  }

  // ---------------------------------------------------------------------------
  // The token in a successful login or registration
  // ---------------------------------------------------------------------------

  /** `res.data.data`: the envelope's token and user (the user in the form `JSON.stringify` gives it). */
  datatype AuthData = AuthData(token: Option<string>, user: Option<string>)

  /** `res.data`: an optional envelope and an optional top-level token. */
  datatype AuthResponse = AuthResponse(data: Option<AuthData>, token: Option<string>)

  /** `res.data?.data?.token`. */
  function NestedToken(r: AuthResponse): (t: Option<string>)
    ensures r.data.None? ==> t.None?
    ensures r.data.Some? ==> t == r.data.value.token
  {
    if r.data.Some? then r.data.value.token else None
  }

  /** `res.data?.data?.user`. */
  function UserOf(r: AuthResponse): (u: Option<string>)
    ensures r.data.None? ==> u.None?
    ensures r.data.Some? ==> u == r.data.value.user
  {
    if r.data.Some? then r.data.value.user else None
  }

  /**
   * `res.data?.data?.token || res.data?.token`, kept only when non-empty (the
   * pages go on to test `if (token)`): the enveloped token wins; the
   * top-level one is the fallback; an empty string counts as missing.
   */
  function ExtractToken(r: AuthResponse): (t: Option<string>)
    ensures t.Some? <==> NonEmpty(NestedToken(r)) || NonEmpty(r.token)
    ensures t.Some? ==> t.value != "" && (t == NestedToken(r) || t == r.token)
    ensures NonEmpty(NestedToken(r)) ==> t == NestedToken(r)
  {
    var nested := NestedToken(r);
    if NonEmpty(nested) then nested
    else if NonEmpty(r.token) then r.token
    else None
  }

  /** `{ token: t }` and `{ data: { token: t } }` are accepted alike. */
  lemma TokenShapesAgree(t: string, user: Option<string>)
    requires t != ""
    ensures ExtractToken(AuthResponse(None, Some(t))) == Some(t)
    ensures ExtractToken(AuthResponse(Some(AuthData(Some(t), user)), None)) == Some(t)
  {
  }

  /**
   * The client after a page saved a session: the token set through
   * `setAuthToken` and, when given, the serialised user stored under "user".
   */
  function SaveSession(c: ClientState, token: string, user: Option<string>): (d: ClientState)
    requires token != ""
    ensures d.authHeader == Some("Bearer " + token)
    ensures TokenKey in d.storage && d.storage[TokenKey] == token
    ensures user.Some? ==> UserKey in d.storage && d.storage[UserKey] == user.value
    ensures forall k | k != TokenKey && (user.Some? ==> k != UserKey) ::
              (k in d.storage <==> k in c.storage) && (k in d.storage ==> d.storage[k] == c.storage[k])
    ensures d.navigatedTo == c.navigatedTo
    ensures Synced(d)
  {
    var d := WithToken(c, Some(token));
    if user.Some? then WithItem(d, UserKey, user.value) else d
  }

  /**
   * The client once a page has read the answer to a login or registration:
   * the answer first passes the response interceptor; then, on a success
   * carrying a token, the session is saved (with the user when `keepUser`).
   * A success without a token and any failure but 401 leave it as it was.
   */
  function ClientAfterAuth(c: ClientState, server: Outcome<AuthResponse>, keepUser: bool): (d: ClientState)
    ensures server.Ok? && ExtractToken(server.body).Some? ==>
              d == SaveSession(c, ExtractToken(server.body).value, if keepUser then UserOf(server.body) else None)
    ensures server.Ok? && ExtractToken(server.body).None? ==> d == c
    ensures server.Fail? ==> d == AfterResponse(c, server)
    ensures Coherent(c) ==> Coherent(d)
  {
    var after := AfterResponse(c, server);
    if server.Ok? && ExtractToken(server.body).Some? then
      SaveSession(after, ExtractToken(server.body).value, if keepUser then UserOf(server.body) else None)
    else after
  }

  /** After a successful sign-in every request carries the new token. */
  lemma SignedInRequestsCarryToken(c: ClientState, server: Outcome<AuthResponse>, keepUser: bool, e: Endpoint)
    requires server.Ok? && ExtractToken(server.body).Some?
    ensures AuthorizationOf(Send(ClientAfterAuth(c, server, keepUser), e, [], None))
            == Some("Bearer " + ExtractToken(server.body).value)
  {
  }

  // ---------------------------------------------------------------------------
  // The failure message of the two minimal login forms
  // ---------------------------------------------------------------------------

  /**
   * `response?.data?.message || message || "Login failed"`: the server's
   * message, else the error's own, else the fixed text; never empty.
   */
  function FallbackMessage(e: HttpError): (m: string)
    ensures m != ""
    ensures NonEmpty(ServerMessage(e)) ==> m == ServerMessage(e).value
    ensures !NonEmpty(ServerMessage(e)) && NonEmpty(e.message) ==> m == e.message.value
    ensures !NonEmpty(ServerMessage(e)) && !NonEmpty(e.message) ==> m == "Login failed"
  {
    if NonEmpty(ServerMessage(e)) then ServerMessage(e).value
    else if NonEmpty(e.message) then e.message.value
    else "Login failed"
  }
}
