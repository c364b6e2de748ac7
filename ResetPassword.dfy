/** The password-reset page reached from the recovery e-mail: the link's
    parameters, the check of the two passwords and the confirmation call. */
module ResetPassword {
  import opened Text
  import opened Entities

  const MissingFields := "Completa ambos campos."
  const Mismatch := "Las contraseñas no coinciden."

  /** The client-side check: both fields filled in, and equal. */
  function ValidationError(password: string, password2: string): (r: Option<string>)
    ensures r == Some(MissingFields) <==> password == "" || password2 == ""
    ensures r == Some(Mismatch) <==> password != "" && password2 != "" && password != password2
    ensures r.None? <==> password != "" && password == password2
  {
    if password == "" || password2 == "" then Some(MissingFields)
    else if password != password2 then Some(Mismatch)
    else None
  }

  /** What `confirmPasswordReset` is called with. */
  datatype ResetRequest = ResetRequest(uid: string, token: string, password: string)

  /** The page: an invalid-link notice, or the form with its button and the
      error or confirmation it shows. */
  datatype PageView =
    | InvalidLink
    | Form(buttonDisabled: bool, buttonCaption: string, shownError: Option<string>, shownMessage: Option<string>)

  /** A text that renders only when it is non-empty. */
  function Shown(s: string): (r: Option<string>)
    ensures r.Some? <==> s != ""
    ensures r.Some? ==> r.value == s
  {
    if s != "" then Some(s) else None
  }

  function RenderPage(uid: Option<string>, token: Option<string>, loading: bool, error: string, message: string): (v: PageView)
    ensures v.InvalidLink? <==> !Truthy(uid) || !Truthy(token)
    ensures v.Form? ==> v.buttonDisabled == loading && v.shownError == Shown(error) && v.shownMessage == Shown(message)
    ensures v.Form? ==> v.buttonCaption == if loading then "Actualizando..." else "Cambiar contraseña"
  {
    if !Truthy(uid) || !Truthy(token) then InvalidLink
    else Form(loading, if loading then "Actualizando..." else "Cambiar contraseña", Shown(error), Shown(message))
  }

  class ResetPasswordPage {
    const uid: Option<string>
    const token: Option<string>
    var password: string
    var password2: string
    var message: string
    var error: string
    var loading: bool

    constructor (uid: Option<string>, token: Option<string>)
      ensures this.uid == uid && this.token == token
      ensures password == "" && password2 == "" && message == "" && error == "" && !loading
    {
      this.uid, this.token := uid, token;
      password, password2, message, error, loading := "", "", "", "", false;
    }

    function View(): PageView
      reads this
    {
      RenderPage(uid, token, loading, error, message)
    }

    method SetPassword(value: string)
      modifies this`password
      ensures password == value
    {
      password := value;
    }

    method SetPassword2(value: string)
      modifies this`password2
      ensures password2 == value
    {
      password2 := value;
    }

    /** `handleSubmit`, run to completion with the outcome of the call. The
        form, and with it this handler, exists only for a link that carries
        both parameters. A rejected input sends nothing; otherwise the
        server's message or the error's message is shown. */
    method Submit(outcome: Outcome<Option<string>>) returns (sent: Option<ResetRequest>)
      requires Truthy(uid) && Truthy(token)
      modifies this`message, this`error, this`loading
      ensures ValidationError(password, password2).Some? ==>
                sent == None && error == ValidationError(password, password2).value && message == ""
                && loading == old(loading)
      ensures ValidationError(password, password2).None? ==>
                sent == Some(ResetRequest(uid.value, token.value, password)) && !loading
      ensures ValidationError(password, password2).None? && outcome.Ok? ==>
                message == Or(outcome.value, "") && error == ""
      ensures ValidationError(password, password2).None? && outcome.Fail? ==>
                error == Or(outcome.message, "") && message == ""
    {
      error, message := "", "";
      var invalid := ValidationError(password, password2);
      if invalid.Some? {
        error := invalid.value;
        return None;
      }
      loading := true;
      sent := Some(ResetRequest(uid.value, token.value, password));
      match outcome {
        case Ok(m) => message := Or(m, "");
        case Fail(m) => error := Or(m, "");
      }
      loading := false;
    }
  }
}
