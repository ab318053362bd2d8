/**
 * The bare login form of pages/login.js: the same flow as the form in
 * pages/register.tsx, with every message also raised as an `alert`, and the
 * token written to localStorage a second time after `setAuthToken`.
 */
module PagesLogin {
  import opened Wrappers
  import opened Json
  import opened Api
  import opened AuthForms
  import PagesRegister

  /**
   * Writing the token to localStorage again after `setAuthToken` stored it
   * leaves the client exactly as the saved session.
   */
  lemma SecondTokenWriteChangesNothing(c: ClientState, token: string)
    requires token != ""
    ensures WithItem(SaveSession(c, token, None), TokenKey, token) == SaveSession(c, token, None)
  {
    var d := SaveSession(c, token, None);
    assert d.storage[TokenKey := token] == d.storage;
  }

  /** The form's state; `alerts` lists the messages `alert` has shown, oldest first. */
  class LoginForm {
    var email: string
    var password: string
    var isLoading: bool
    var error: Option<string>
    var alerts: seq<string>
    /** Where `router.push` went. */
    var redirectTo: Option<string>

    constructor ()
      ensures email == "" && password == "" && !isLoading && error == None
      ensures alerts == [] && redirectTo == None
    {
      email, password, isLoading, error := "", "", false, None;
      alerts, redirectTo := [], None;
    }

    /**
     * The form once the answer to a sent login has been read, given where it
     * was headed before and the alerts shown so far. A token takes it to `/`
     * with no alert; an answer without a token is reported and alerted; a
     * failure's message is shown and alerted. Loading is over in every case.
     */
    predicate Answered(server: Outcome<AuthResponse>, before: Option<string>, shown: seq<string>)
      reads this
    {
      && !isLoading
      && match server
         case Ok(body) =>
           && (ExtractToken(body).Some? ==>
                 error == None && alerts == shown && redirectTo == Some("/"))
           && (ExtractToken(body).None? ==>
                 && error == Some(PagesRegister.TokenMissing)
                 && alerts == shown + [PagesRegister.TokenMissing]
                 && redirectTo == before)
         case Fail(e) =>
           && error == Some(FallbackMessage(e))
           && alerts == shown + [FallbackMessage(e)]
           && redirectTo == before
    }

    /**
     * `handleLogin`. An empty field leaves the prompt, alerts it, and nothing
     * else happens. Otherwise one `POST /login` with the fields as typed goes
     * out through the client; a token in the answer is saved (no user is
     * stored), its second write changing nothing.
     */
    method HandleLogin(api: ApiClient, server: Outcome<AuthResponse>) returns (sent: Option<Request>)
      modifies this, api
      ensures Coherent(old(api.State())) ==> Coherent(api.State())
      ensures email == old(email) && password == old(password)
      ensures email == "" || password == "" ==>
                && sent == None && error == Some(PagesRegister.EnterBoth)
                && alerts == old(alerts) + [PagesRegister.EnterBoth]
                && isLoading == old(isLoading) && redirectTo == old(redirectTo)
                && api.State() == old(api.State())
      ensures email != "" && password != "" ==>
                && sent == Some(Send(old(api.State()), AuthLogin, [], Some(PagesRegister.PlainLoginBody(email, password))))
                && api.State() == ClientAfterAuth(old(api.State()), server, false)
                && Answered(server, old(redirectTo), old(alerts))
    {
      if email == "" || password == "" {
        error := Some(PagesRegister.EnterBoth);
        alerts := alerts + [PagesRegister.EnterBoth];
        return None;
      }
      sent := Submit(api, server, PagesRegister.PlainLoginBody(email, password));
    }

    /** The part of `handleLogin` after the check: loading raised, the error cleared, `body` sent and the answer read. */
    method Submit(api: ApiClient, server: Outcome<AuthResponse>, body: Json) returns (sent: Option<Request>)
      modifies this, api
      ensures Coherent(old(api.State())) ==> Coherent(api.State())
      ensures email == old(email) && password == old(password)
      ensures sent == Some(Send(old(api.State()), AuthLogin, [], Some(body)))
      ensures api.State() == ClientAfterAuth(old(api.State()), server, false)
      ensures Answered(server, old(redirectTo), old(alerts))
    {
      isLoading := true;
      error := None;
      sent := Some(Send(api.State(), AuthLogin, [], Some(body)));
      var answer := api.Dispatch(server);
      match answer {
        case Ok(res) =>
          var token := ExtractToken(res);
          if token.None? {
            error := Some(PagesRegister.TokenMissing);
            alerts := alerts + [PagesRegister.TokenMissing];
            isLoading := false;
            return;
          }
          api.SetAuthToken(token);
          api.SetItem(TokenKey, token.value);
          SecondTokenWriteChangesNothing(old(api.State()), token.value);
          redirectTo := Some("/");
        case Fail(e) =>
          var message := FallbackMessage(e);
          error := Some(message);
          alerts := alerts + [message];
      }
      isLoading := false;
    }
  }
}
