/**
 * The minimal sign-in form that pages/register.tsx holds (its component is a
 * login form, despite the file's name): a filled-fields check, one
 * `POST /login` with the fields as typed, and the token saved on success.
 */
module PagesRegister {
  import opened Wrappers
  import opened Json
  import opened Api
  import opened AuthForms

  const EnterBoth := "Please enter both email and password."
  const TokenMissing := "Login succeeded but token is missing in the response."

  /** The body of `POST /login`: both fields exactly as typed. */
  function PlainLoginBody(email: string, password: string): (j: Json)
    ensures j.JObject? && Lookup(j.fields, "email") == Some(JString(email))
    ensures Lookup(j.fields, "password") == Some(JString(password))
  {
    JObject([("email", JString(email)), ("password", JString(password))])
  }

  /** The form's state. */
  class LoginForm {
    var email: string
    var password: string
    var isLoading: bool
    var error: Option<string>
    /** Where `router.push` went. */
    var redirectTo: Option<string>

    constructor ()
      ensures email == "" && password == "" && !isLoading && error == None && redirectTo == None
    {
      email, password, isLoading, error, redirectTo := "", "", false, None, None;
    }

    /**
     * The form once the answer to a sent login has been read, given where it
     * was headed before: a token takes it to `/`; an answer without a token
     * is reported; a failure leaves the server's message, the error's own,
     * or "Login failed". Loading is over in every case.
     */
    predicate Answered(server: Outcome<AuthResponse>, before: Option<string>)
      reads this
    {
      && !isLoading
      && match server
         case Ok(body) =>
           && (ExtractToken(body).Some? ==> error == None && redirectTo == Some("/"))
           && (ExtractToken(body).None? ==> error == Some(TokenMissing) && redirectTo == before)
         case Fail(e) =>
           error == Some(FallbackMessage(e)) && redirectTo == before
    }

    /**
     * `handleLogin`. An empty field leaves the prompt and nothing else
     * happens: no request, `isLoading` and the client untouched. Otherwise
     * one `POST /login` goes out through the client; a token in the answer
     * is saved (no user is stored).
     */
    method HandleLogin(api: ApiClient, server: Outcome<AuthResponse>) returns (sent: Option<Request>)
      modifies this, api
      ensures Coherent(old(api.State())) ==> Coherent(api.State())
      ensures email == old(email) && password == old(password)
      ensures email == "" || password == "" ==>
                && sent == None && error == Some(EnterBoth)
                && isLoading == old(isLoading) && redirectTo == old(redirectTo)
                && api.State() == old(api.State())
      ensures email != "" && password != "" ==>
                && sent == Some(Send(old(api.State()), AuthLogin, [], Some(PlainLoginBody(email, password))))
                && api.State() == ClientAfterAuth(old(api.State()), server, false)
                && Answered(server, old(redirectTo))
    {
      if email == "" || password == "" {
        error := Some(EnterBoth);
        return None;
      }
      sent := Submit(api, server, PlainLoginBody(email, password));
    }

    /** The part of `handleLogin` after the check: loading raised, the error cleared, `body` sent and the answer read. */
    method Submit(api: ApiClient, server: Outcome<AuthResponse>, body: Json) returns (sent: Option<Request>)
      modifies this, api
      ensures Coherent(old(api.State())) ==> Coherent(api.State())
      ensures email == old(email) && password == old(password)
      ensures sent == Some(Send(old(api.State()), AuthLogin, [], Some(body)))
      ensures api.State() == ClientAfterAuth(old(api.State()), server, false)
      ensures Answered(server, old(redirectTo))
    {
      isLoading := true;
      error := None;
      sent := Some(Send(api.State(), AuthLogin, [], Some(body)));
      var answer := api.Dispatch(server);
      match answer {
        case Ok(res) =>
          var token := ExtractToken(res);
          if token.None? {
            error := Some(TokenMissing);
            isLoading := false;
            return;
          }
          api.SetAuthToken(token);
          redirectTo := Some("/");
        case Fail(e) =>
          error := Some(FallbackMessage(e));
      }
      isLoading := false;
    }
  }
}
