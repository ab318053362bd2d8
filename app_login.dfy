/**
 * The login page of app/login/page.tsx: its two-step validation, the
 * request it sends, and how it reads the answer.
 */
module AppLogin {
  import opened Wrappers
  import opened JsText
  import opened Json
  import opened Api
  import opened AuthForms

  // ---------------------------------------------------------------------------
  // Validation
  // ---------------------------------------------------------------------------

  const FillAllFields := "Veuillez remplir tous les champs."
  const InvalidEmail := "Veuillez entrer une adresse email valide."

  /**
   * The message the validation stops with, or `None` when the form may be
   * sent: both fields must be filled, then the e-mail (as typed, untrimmed)
   * must match the pattern.
   */
  function LoginError(email: string, password: string): (r: Option<string>)
    ensures r.None? <==> email != "" && password != "" && MatchesEmailPattern(email)
    ensures r.Some? ==> r.value == (if email == "" || password == "" then FillAllFields else InvalidEmail)
    ensures r.None? ==> Trim(email) == email
  {
    EmailScanMatchesPattern(email);
    ValidEmailIsTrimmed(email);
    if email == "" || password == "" then Some(FillAllFields)
    else if !IsValidEmail(email) then Some(InvalidEmail)
    else None
  }

  /** The body of `POST /login`: the e-mail trimmed, the password as typed; an address without whitespace around it is sent as typed. */
  function LoginBody(email: string, password: string): (b: Json)
    ensures NoEdgeWhitespace(email) ==> b == JObject([("email", JString(email)), ("password", JString(password))])
  {
    JObject([("email", JString(Trim(email))), ("password", JString(password))])
  }

  /** An address that passes validation is sent exactly as typed. */
  lemma AcceptedEmailSentAsTyped(email: string, password: string)
    requires LoginError(email, password).None?
    ensures LoginBody(email, password) == JObject([("email", JString(email)), ("password", JString(password))])
  {
  }

  // ---------------------------------------------------------------------------
  // Reading a failure
  // ---------------------------------------------------------------------------

  const WrongCredentials := "Email ou mot de passe incorrect."
  const InvalidData := "Données invalides."
  const TooManyAttempts := "Trop de tentatives. Veuillez réessayer plus tard."
  const ConnectionFailed := "Erreur de connexion. Vérifiez votre connexion."

  /** `Object.values(errors)[0]?.[0]`: the first message of the first field, if both exist. */
  function FirstFieldMessage(errors: seq<(string, seq<string>)>): (r: Option<string>)
    ensures r.Some? <==> |errors| > 0 && |errors[0].1| > 0
    ensures r.Some? ==> r.value == errors[0].1[0]
  {
    if |errors| > 0 && |errors[0].1| > 0 then Some(errors[0].1[0]) else None
  }

  /**
   * The message for a failed login, by status: 401 the wrong-credentials
   * text, 422 the server's first field message (or the invalid-data text),
   * 429 the rate-limit text, anything else the server's message or the
   * connection text. Never empty.
   */
  function LoginFailureMessage(e: HttpError): (m: string)
    ensures m != ""
    ensures StatusOf(e) == Some(401) ==> m == WrongCredentials
    ensures StatusOf(e) == Some(422) ==>
              var errors := e.response.value.errors;
              if errors.Some? && NonEmpty(FirstFieldMessage(errors.value))
              then m == errors.value[0].1[0]
              else m == InvalidData
    ensures StatusOf(e) == Some(429) ==> m == TooManyAttempts
    ensures StatusOf(e) !in {Some(401), Some(422), Some(429)} ==>
              if NonEmpty(ServerMessage(e)) then m == ServerMessage(e).value else m == ConnectionFailed
  {
    var status := StatusOf(e);
    if status == Some(401) then WrongCredentials
    else if status == Some(422) then
      var errors := e.response.value.errors;
      if errors.Some? then
        var first := FirstFieldMessage(errors.value);
        if NonEmpty(first) then first.value else InvalidData
      else InvalidData
    else if status == Some(429) then TooManyAttempts
    else if NonEmpty(ServerMessage(e)) then ServerMessage(e).value
    else ConnectionFailed
  }

  /**
   * Only the first message of the first field is shown: whatever follows
   * it, in that field or in later ones, changes nothing.
   */
  lemma OnlyFirstValidationMessageShown(
    axios: bool, message: Option<string>, own: Option<string>,
    field: string, first: string, rest: seq<string>, later: seq<(string, seq<string>)>)
    requires first != ""
    ensures LoginFailureMessage(HttpError(axios, Some(ErrorResponse(Some(422), message, Some([(field, [first] + rest)] + later))), own))
            == first
  {
  }

  /** A 422 whose first field carries no message falls back to the invalid-data text, even when a later field has one. */
  lemma EmptyFirstFieldFallsBack(
    axios: bool, message: Option<string>, own: Option<string>,
    field: string, later: seq<(string, seq<string>)>)
    ensures LoginFailureMessage(HttpError(axios, Some(ErrorResponse(Some(422), message, Some([(field, [])] + later))), own))
            == InvalidData
  {
  }

  // ---------------------------------------------------------------------------
  // The page
  // ---------------------------------------------------------------------------

  const TokenMissing := "Connexion réussie mais le token est manquant."
  const LoggedInRedirecting := "Connexion réussie ! Redirection..."

  /** The `Login` component's state. */
  class LoginPage {
    var email: string
    var password: string
    var isLoading: bool
    var error: Option<string>
    var success: Option<string>
    /** Where `router.push` is scheduled to go (the 1 s delay is not modelled). */
    var redirectTo: Option<string>

    constructor ()
      ensures email == "" && password == ""
      ensures !isLoading && error == None && success == None && redirectTo == None
    {
      email, password := "", "";
      isLoading, error, success, redirectTo := false, None, None, None;
    }

    /**
     * The page once the answer to a sent login has been read, given where it
     * was headed before: a token takes it towards `/` with its success text;
     * an answer without a token is reported as an error; a failure leaves its
     * message. Loading is over in every case.
     */
    predicate Answered(server: Outcome<AuthResponse>, before: Option<string>)
      reads this
    {
      && !isLoading
      && match server
         case Ok(body) =>
           && (ExtractToken(body).Some? ==>
                 error == None && success == Some(LoggedInRedirecting) && redirectTo == Some("/"))
           && (ExtractToken(body).None? ==>
                 error == Some(TokenMissing) && success == None && redirectTo == before)
         case Fail(e) =>
           && error == Some(LoginFailureMessage(e)) && success == None
           && redirectTo == before
    }

    /**
     * `handleLogin`. Both messages end up cleared on every path (the page
     * clears them before validating); a failing check leaves its message and
     * nothing is sent, nor is `isLoading` or the client touched. Otherwise
     * one `POST /login` goes out through the client, and the client and the
     * page end as the answer dictates: the session (token and user) saved on
     * a success with a token.
     */
    method HandleLogin(api: ApiClient, server: Outcome<AuthResponse>) returns (sent: Option<Request>)
      modifies this, api
      ensures Coherent(old(api.State())) ==> Coherent(api.State())
      ensures email == old(email) && password == old(password)
      ensures var invalid := LoginError(email, password);
              invalid.Some? ==>
                && sent == None && error == invalid && success == None
                && isLoading == old(isLoading) && redirectTo == old(redirectTo)
                && api.State() == old(api.State())
      ensures LoginError(email, password).None? ==>
                && sent == Some(Send(old(api.State()), AuthLogin, [], Some(LoginBody(email, password))))
                && api.State() == ClientAfterAuth(old(api.State()), server, true)
                && Answered(server, old(redirectTo))
    {
      var invalid := LoginError(email, password);
      if email == "" || password == "" {
        assert invalid == Some(FillAllFields);
        error, success := Some(FillAllFields), None;
        return None;
      }
      if !IsValidEmail(email) {
        assert invalid == Some(InvalidEmail);
        error, success := Some(InvalidEmail), None;
        return None;
      }
      assert invalid == None;
      sent := Submit(api, server, LoginBody(email, password));
    }

    /** The part of `handleLogin` after validation: messages cleared, `body` sent and the answer read. */
    method Submit(api: ApiClient, server: Outcome<AuthResponse>, body: Json) returns (sent: Option<Request>)
      modifies this, api
      ensures Coherent(old(api.State())) ==> Coherent(api.State())
      ensures email == old(email) && password == old(password)
      ensures sent == Some(Send(old(api.State()), AuthLogin, [], Some(body)))
      ensures api.State() == ClientAfterAuth(old(api.State()), server, true)
      ensures Answered(server, old(redirectTo))
    {
      error, success := None, None;
      isLoading := true;
      sent := Some(Send(api.State(), AuthLogin, [], Some(body)));
      var answer := api.Dispatch(server);
      match answer {
        case Ok(res) =>
          var token := ExtractToken(res);
          if token.None? {
            error := Some(TokenMissing);
            isLoading := false;
            return;
          }
          api.SetAuthToken(token);
          var user := UserOf(res);
          if user.Some? {
            api.SetItem(UserKey, user.value);
          }
          success := Some(LoggedInRedirecting);
          redirectTo := Some("/");
        case Fail(e) =>
          error := Some(LoginFailureMessage(e));
      }
      isLoading := false;
    }
  }
}
