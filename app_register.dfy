/**
 * The registration page of app/register/page.tsx: the password-strength
 * indicator, the client-side validation chain, the request it sends, and how
 * it reads the answer.
 */
module AppRegister {
  import opened Wrappers
  import opened JsText
  import opened Json
  import opened Api
  import opened AuthForms

  // ---------------------------------------------------------------------------
  // Password strength
  // ---------------------------------------------------------------------------

  const Weak := "Faible"
  const Medium := "Moyen"
  const Strong := "Fort"

  /** `/[A-Z]/.test(pwd)`. */
  predicate HasAsciiUpper(s: string) {
    exists k | 0 <= k < |s| :: 'A' <= s[k] <= 'Z'
  }

  /** `/[0-9]/.test(pwd)`. */
  predicate HasAsciiDigit(s: string) {
    exists k | 0 <= k < |s| :: IsDigit(s[k])
  }

  /**
   * `checkPasswordStrength`: no label for an empty password, "Faible" below
   * six UTF-16 units, "Fort" from eight units with an upper-case letter and a
   * digit, "Moyen" for everything else.
   */
  function CheckPasswordStrength(pwd: string): (r: string)
    ensures r == "" <==> pwd == ""
    ensures r == Weak <==> 0 < Utf16Length(pwd) < 6
    ensures r == Strong <==> Utf16Length(pwd) >= 8 && HasAsciiUpper(pwd) && HasAsciiDigit(pwd)
    ensures r == Medium <==> Utf16Length(pwd) >= 6 && !(Utf16Length(pwd) >= 8 && HasAsciiUpper(pwd) && HasAsciiDigit(pwd))
  {
    var n := Utf16Length(pwd);
    if n == 0 then ""
    else if n < 6 then Weak
    else if n < 8 then Medium
    else if n >= 8 && HasAsciiUpper(pwd) && HasAsciiDigit(pwd) then Strong
    else Medium
  }

  /** The order of the labels, from none to strong. */
  function StrengthRank(tag: string): nat {
    if tag == Strong then 3 else if tag == Medium then 2 else if tag == Weak then 1 else 0
  }

  /** Typing more characters never lowers the indicator. */
  lemma {:induction false} StrengthNeverDropsWhileTyping(p: string, q: string)
    ensures StrengthRank(CheckPasswordStrength(p)) <= StrengthRank(CheckPasswordStrength(p + q))
  {
    Utf16LengthAppend(p, q);
    if HasAsciiUpper(p) {
      var k :| 0 <= k < |p| && 'A' <= p[k] <= 'Z';
      assert (p + q)[k] == p[k];
    }
    if HasAsciiDigit(p) {
      var k :| 0 <= k < |p| && IsDigit(p[k]);
      assert (p + q)[k] == p[k];
    }
  }

  // ---------------------------------------------------------------------------
  // Validation
  // ---------------------------------------------------------------------------

  const FillAllFields := "Veuillez remplir tous les champs."
  const NameTooShort := "Le nom doit contenir au moins 2 caractères."
  const InvalidEmail := "Veuillez entrer une adresse email valide."
  const PasswordTooShort := "Le mot de passe doit contenir au moins 6 caractères."
  const PasswordMismatch := "Les mots de passe ne correspondent pas."

  /** The checks of `handleRegister`, in the order it runs them: whether each passes, and its message. */
  function RegistrationChecks(name: string, email: string, password: string, confirm: string): (checks: seq<(bool, string)>)
    ensures |checks| == 5
  {
    [ (name != "" && email != "" && password != "" && confirm != "", FillAllFields),
      (Utf16Length(Trim(name)) >= 2, NameTooShort),
      (IsValidEmail(email), InvalidEmail),
      (Utf16Length(password) >= 6, PasswordTooShort),
      (password == confirm, PasswordMismatch) ]
  }

  /** The position of the first failing check, or the number of checks when all pass. */
  function FirstFailing(checks: seq<(bool, string)>): (i: nat)
    ensures i <= |checks|
    ensures forall j | 0 <= j < i :: checks[j].0
    ensures i < |checks| ==> !checks[i].0
  {
    if |checks| == 0 || !checks[0].0 then 0 else 1 + FirstFailing(checks[1..])
  }

  /** A position preceded only by passing checks, and failing or past the end, is the first failing one. */
  lemma {:induction false} FirstFailingIs(checks: seq<(bool, string)>, i: nat)
    requires i <= |checks|
    requires forall j | 0 <= j < i :: checks[j].0
    requires i < |checks| ==> !checks[i].0
    ensures FirstFailing(checks) == i
  {
    if i > 0 {
      FirstFailingIs(checks[1..], i - 1);
    }
  }

  /**
   * The message the validation chain stops with, or `None` when the form may
   * be sent: the message of the first check, in the chain's order, that
   * fails.
   */
  function RegistrationError(name: string, email: string, password: string, confirm: string): (r: Option<string>)
    ensures var checks := RegistrationChecks(name, email, password, confirm);
            r.None? <==> forall j | 0 <= j < |checks| :: checks[j].0
  {
    var checks := RegistrationChecks(name, email, password, confirm);
    var i := FirstFailing(checks);
    if i < |checks| then Some(checks[i].1) else None
  }

  /** A form passes validation exactly when all five conditions hold. */
  lemma RegistrationAccepted(name: string, email: string, password: string, confirm: string)
    ensures RegistrationError(name, email, password, confirm).None? <==>
              && name != "" && email != "" && password != "" && confirm != ""
              && Utf16Length(Trim(name)) >= 2
              && IsValidEmail(email)
              && Utf16Length(password) >= 6
              && password == confirm
  {
    var checks := RegistrationChecks(name, email, password, confirm);
    assert checks[0].0 && checks[1].0 && checks[2].0 && checks[3].0 && checks[4].0 ==>
             forall j | 0 <= j < |checks| :: checks[j].0;
  }

  /**
   * Once the earlier checks pass, a password shorter than six units is
   * reported as too short, whatever its confirmation.
   */
  lemma ShortPasswordReported(name: string, email: string, password: string, confirm: string)
    requires name != "" && email != "" && password != "" && confirm != ""
    requires Utf16Length(Trim(name)) >= 2 && IsValidEmail(email)
    requires Utf16Length(password) < 6
    ensures RegistrationError(name, email, password, confirm) == Some(PasswordTooShort)
  {
    FirstFailingIs(RegistrationChecks(name, email, password, confirm), 3);
  }

  /** A long enough password that differs from its confirmation is reported as a mismatch. */
  lemma MismatchReported(name: string, email: string, password: string, confirm: string)
    requires name != "" && email != "" && confirm != ""
    requires Utf16Length(Trim(name)) >= 2 && IsValidEmail(email)
    requires Utf16Length(password) >= 6 && password != confirm
    ensures RegistrationError(name, email, password, confirm) == Some(PasswordMismatch)
  {
    FirstFailingIs(RegistrationChecks(name, email, password, confirm), 4);
  }

  /**
   * A short password is reported as too short before any comparison with
   * its confirmation; a long enough one that differs from its confirmation
   * is reported as a mismatch.
   */
  lemma ShortPasswordReportedBeforeMismatch(name: string, email: string)
    requires name != "" && Utf16Length(Trim(name)) >= 2 && IsValidEmail(email)
    ensures RegistrationError(name, email, "abc", "xyz") == Some(PasswordTooShort)
    ensures RegistrationError(name, email, "abcde", "abcde") == Some(PasswordTooShort)
    ensures RegistrationError(name, email, "abcdef", "abcdeg") == Some(PasswordMismatch)
  {
    Utf16LengthBmp("abc");
    Utf16LengthBmp("abcde");
    Utf16LengthBmp("abcdef");
    ShortPasswordReported(name, email, "abc", "xyz");
    ShortPasswordReported(name, email, "abcde", "abcde");
    MismatchReported(name, email, "abcdef", "abcdeg");
  }

  /** The body of `POST /register`: name and e-mail trimmed, both passwords as typed. */
  function RegisterBody(name: string, email: string, password: string, confirm: string): Json
  {
    JObject([ ("name", JString(Trim(name))),
              ("email", JString(Trim(email))),
              ("password", JString(password)),
              ("password_confirmation", JString(confirm)) ])
  }

  /**
   * A form that passes validation is sent as it was filled in, provided the
   * name has no whitespace around it: the address never has any.
   */
  lemma AcceptedFormSentAsTyped(name: string, email: string, password: string, confirm: string)
    requires RegistrationError(name, email, password, confirm).None? && NoEdgeWhitespace(name)
    ensures RegisterBody(name, email, password, confirm)
            == JObject([ ("name", JString(name)), ("email", JString(email)),
                         ("password", JString(password)), ("password_confirmation", JString(confirm)) ])
  {
    RegistrationAccepted(name, email, password, confirm);
    ValidEmailIsTrimmed(email);
  }

  // ---------------------------------------------------------------------------
  // Reading a failure
  // ---------------------------------------------------------------------------

  const InvalidData := "Données invalides. Vérifiez vos informations."
  const EmailTaken := "Cet email est déjà utilisé."
  const CreationFailed := "Erreur lors de la création du compte."

  /** Each field's messages joined by ", ", the fields joined by " ", in the order the server sent them. */
  function ValidationSummary(errors: seq<(string, seq<string>)>): (m: string)
    ensures errors == [] ==> m == ""
    ensures errors != [] ==> Join(errors[0].1, ", ") <= m
  {
    Join(seq(|errors|, i requires 0 <= i < |errors| => Join(errors[i].1, ", ")), " ")
  }

  /**
   * The message for a failed registration: on a 422 the server's field
   * messages (or the fixed invalid-data text when it sent none), on a 409 the
   * duplicate-address text, otherwise the server's message or the generic
   * failure text. Only a 422 with an `errors` object can leave it empty.
   */
  function RegistrationFailureMessage(e: HttpError): (m: string)
    ensures StatusOf(e) == Some(422) ==>
              m == (match e.response.value.errors
                    case Some(errors) => ValidationSummary(errors)
                    case None => InvalidData)
    ensures StatusOf(e) == Some(409) ==> m == EmailTaken
    ensures StatusOf(e) != Some(422) && StatusOf(e) != Some(409) ==>
              m == (if NonEmpty(ServerMessage(e)) then ServerMessage(e).value else CreationFailed)
    ensures m == "" ==> StatusOf(e) == Some(422) && e.response.value.errors.Some?
  {
    var status := StatusOf(e);
    if status == Some(422) then
      match e.response.value.errors
      case Some(errors) => ValidationSummary(errors)
      case None => InvalidData
    else if status == Some(409) then EmailTaken
    else if NonEmpty(ServerMessage(e)) then ServerMessage(e).value
    else CreationFailed
  }

  /** A 422 whose `errors` object is empty leaves the page with an empty error text. */
  lemma EmptyErrorsGiveEmptyMessage(message: Option<string>, own: Option<string>, axios: bool)
    ensures RegistrationFailureMessage(HttpError(axios, Some(ErrorResponse(Some(422), message, Some([]))), own)) == ""
  {
  }

  /**
   * How the summary is put together, field by field: one field gives its
   * messages joined by ", "; a further field follows after a single space.
   */
  lemma ValidationSummarySeparators(field: string, messages: seq<string>, rest: seq<(string, seq<string>)>)
    ensures ValidationSummary([(field, messages)]) == Join(messages, ", ")
    ensures rest != [] ==>
              ValidationSummary([(field, messages)] + rest) == Join(messages, ", ") + " " + ValidationSummary(rest)
  {
    var one := [(field, messages)];
    assert seq(|one|, i requires 0 <= i < |one| => Join(one[i].1, ", ")) == [Join(messages, ", ")];
    if rest != [] {
      var all := one + rest;
      var parts := seq(|all|, i requires 0 <= i < |all| => Join(all[i].1, ", "));
      assert parts[0] == Join(messages, ", ");
      assert parts[1..] == seq(|rest|, i requires 0 <= i < |rest| => Join(rest[i].1, ", "));
    }
  }

  // ---------------------------------------------------------------------------
  // The page
  // ---------------------------------------------------------------------------

  const CreatedRedirecting := "Compte créé avec succès ! Redirection..."
  const CreatedGoToLogin := "Compte créé ! Redirection vers la connexion..."

  /** The `Register` component's state. */
  class RegisterPage {
    var name: string
    var email: string
    var password: string
    var confirmPassword: string
    var isLoading: bool
    var error: Option<string>
    var success: Option<string>
    var passwordStrength: string
    /** Where `router.push` is scheduled to go (the 1.5 s delay is not modelled). */
    var redirectTo: Option<string>

    constructor ()
      ensures name == "" && email == "" && password == "" && confirmPassword == ""
      ensures !isLoading && error == None && success == None && passwordStrength == ""
      ensures redirectTo == None
    {
      name, email, password, confirmPassword := "", "", "", "";
      isLoading, error, success, passwordStrength := false, None, None, "";
      redirectTo := None;
    }

    /** The password field's `onChange`: the value is kept and the indicator recomputed. */
    method OnPasswordChange(value: string)
      modifies this
      ensures password == value && passwordStrength == CheckPasswordStrength(value)
      ensures name == old(name) && email == old(email) && confirmPassword == old(confirmPassword)
      ensures isLoading == old(isLoading) && error == old(error) && success == old(success)
      ensures redirectTo == old(redirectTo)
    {
      password := value;
      passwordStrength := CheckPasswordStrength(value);
    }

    /**
     * The page once the answer to a sent registration has been read, given
     * where it was headed before: a token takes it towards `/` and no token
     * towards `/login`, each with its success text and no error; a failure
     * leaves its message and no success text. Loading is over in every case.
     */
    predicate Answered(server: Outcome<AuthResponse>, before: Option<string>)
      reads this
    {
      && !isLoading
      && match server
         case Ok(body) =>
           && error == None
           && (ExtractToken(body).Some? ==> success == Some(CreatedRedirecting) && redirectTo == Some("/"))
           && (ExtractToken(body).None? ==> success == Some(CreatedGoToLogin) && redirectTo == Some("/login"))
         case Fail(e) =>
           && error == Some(RegistrationFailureMessage(e)) && success == None
           && redirectTo == before
    }

    /**
     * `handleRegister`. Both messages end up cleared on every path (the page
     * clears them before validating); the first failing check leaves
     * its message and nothing is sent, nor is `isLoading` or the client
     * touched. Otherwise one `POST /register` goes out through the client,
     * and the client and the page end as the answer dictates: the session
     * (token and user) saved on a success with a token.
     */
    method HandleRegister(api: ApiClient, server: Outcome<AuthResponse>) returns (sent: Option<Request>)
      modifies this, api
      ensures Coherent(old(api.State())) ==> Coherent(api.State())
      ensures name == old(name) && email == old(email) && password == old(password)
      ensures confirmPassword == old(confirmPassword) && passwordStrength == old(passwordStrength)
      ensures var invalid := RegistrationError(name, email, password, confirmPassword);
              invalid.Some? ==>
                && sent == None && error == invalid && success == None
                && isLoading == old(isLoading) && redirectTo == old(redirectTo)
                && api.State() == old(api.State())
      ensures RegistrationError(name, email, password, confirmPassword).None? ==>
                && sent == Some(Send(old(api.State()), AuthRegister, [], Some(RegisterBody(name, email, password, confirmPassword))))
                && api.State() == ClientAfterAuth(old(api.State()), server, true)
                && Answered(server, old(redirectTo))
    {
      var invalid := Validate();
      if invalid.Some? {
        error, success := invalid, None;
        return None;
      }
      sent := Submit(api, server, RegisterBody(name, email, password, confirmPassword));
    }

    /**
     * The chain of checks at the top of `handleRegister`, run in its order:
     * the message of the first that fails, or `None`.
     */
    method Validate() returns (invalid: Option<string>)
      ensures invalid == RegistrationError(name, email, password, confirmPassword)
    {
      var checks := RegistrationChecks(name, email, password, confirmPassword);
      if name == "" || email == "" || password == "" || confirmPassword == "" {
        FirstFailingIs(checks, 0);
        return Some(FillAllFields);
      }
      if Utf16Length(Trim(name)) < 2 {
        FirstFailingIs(checks, 1);
        return Some(NameTooShort);
      }
      if !IsValidEmail(email) {
        FirstFailingIs(checks, 2);
        return Some(InvalidEmail);
      }
      if Utf16Length(password) < 6 {
        FirstFailingIs(checks, 3);
        return Some(PasswordTooShort);
      }
      if password != confirmPassword {
        FirstFailingIs(checks, 4);
        return Some(PasswordMismatch);
      }
      FirstFailingIs(checks, 5);
      return None;
    }

    /** The part of `handleRegister` after validation: messages cleared, `body` sent and the answer read. */
    method Submit(api: ApiClient, server: Outcome<AuthResponse>, body: Json) returns (sent: Option<Request>)
      modifies this, api
      ensures Coherent(old(api.State())) ==> Coherent(api.State())
      ensures name == old(name) && email == old(email) && password == old(password)
      ensures confirmPassword == old(confirmPassword) && passwordStrength == old(passwordStrength)
      ensures sent == Some(Send(old(api.State()), AuthRegister, [], Some(body)))
      ensures api.State() == ClientAfterAuth(old(api.State()), server, true)
      ensures Answered(server, old(redirectTo))
    {
      error, success := None, None;
      isLoading := true;
      sent := Some(Send(api.State(), AuthRegister, [], Some(body)));
      var answer := api.Dispatch(server);
      match answer {
        case Ok(res) =>
          var token := ExtractToken(res);
          if token.Some? {
            api.SetAuthToken(token);
            var user := UserOf(res);
            if user.Some? {
              api.SetItem(UserKey, user.value);
            }
            success := Some(CreatedRedirecting);
            redirectTo := Some("/");
          } else {
            success := Some(CreatedGoToLogin);
            redirectTo := Some("/login");
          }
        case Fail(e) =>
          error := Some(RegistrationFailureMessage(e));
      }
      isLoading := false;
    }
  }
}
