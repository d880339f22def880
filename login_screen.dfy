/** The login form (src/components/LoginScreen.jsx). The asynchronous
    `handleLogin` is split at its `await`: `HandleLogin` runs the ordered checks
    and issues the `login` call, `CompleteLogin` receives its outcome. */
module LoginScreen {
  import opened Wrappers
  import opened Text
  import opened Routing

  const EmailRequired := "El email es requerido"
  const EmailInvalid := "Por favor ingresa un email válido"
  const PasswordRequired := "La contraseña es requerida"
  const LoginFailed := "Error al iniciar sesión. Intenta nuevamente."

  /** The checks of `handleLogin`, in order: blank email, email without `@`
      or without `.` (`includes` on the text as typed), blank password. The
      first failure's message is the result; `None` means all pass. */
  function LoginValidation(email: string, password: string): (r: Option<string>)
    ensures r.None? <==> '@' in email && '.' in email && !AllWhitespace(password)
    ensures AllWhitespace(email) ==> r == Some(EmailRequired)
    ensures !AllWhitespace(email) && ('@' !in email || '.' !in email) ==> r == Some(EmailInvalid)
    ensures '@' in email && '.' in email && AllWhitespace(password) ==> r == Some(PasswordRequired)
  {
    BlankIffAllWhitespace(email);
    BlankIffAllWhitespace(password);
    if IsBlank(email) then Some(EmailRequired)
    else if '@' !in email || '.' !in email then Some(EmailInvalid)
    else if IsBlank(password) then Some(PasswordRequired)
    else None
  }

  /** No complexity rule applies to a login password: any password with a
      character that is not whitespace passes, given an email with `@` and `.`. */
  lemma AnyNonBlankPasswordPasses(email: string, password: string, i: int)
    requires '@' in email && '.' in email
    requires 0 <= i < |password| && !IsWhitespace(password[i])
    ensures LoginValidation(email, password).None?
  {
    NotBlankWitness(password, i);
  }

  /** The `login(email, password)` call, with the fields as typed. */
  datatype LoginCall = Login(email: string, password: string)

  /** What `login` did: resolved with a truthy or falsy result, or threw an
      error whose `message` may be empty. */
  datatype LoginOutcome = LoginReturned(truthy: bool) | LoginThrew(message: string)

  class LoginScreen {
    var email: string
    var password: string
    var error: string
    var isSubmitting: bool

    constructor ()
      ensures email == "" && password == "" && error == "" && !isSubmitting
    {
      email, password, error, isSubmitting := "", "", "", false;
    }

    /** Typing in the email input: overwrite it and clear the error. */
    method SetEmail(value: string)
      modifies this
      ensures email == value && error == ""
      ensures password == old(password) && isSubmitting == old(isSubmitting)
    {
      email := value;
      if error != "" {
        error := "";
      }
    }

    /** Typing in the password input: overwrite it and clear the error. */
    method SetPassword(value: string)
      modifies this
      ensures password == value && error == ""
      ensures email == old(email) && isSubmitting == old(isSubmitting)
    {
      password := value;
      if error != "" {
        error := "";
      }
    }

    /** `handleLogin` up to its `await`. A submit in flight makes it a no-op;
        otherwise the first failed check is shown and submitting ends, or the
        `login` call is issued with the email and password as typed. */
    method HandleLogin() returns (call: Option<LoginCall>)
      modifies this
      ensures email == old(email) && password == old(password)
      ensures old(isSubmitting) ==> call.None? && error == old(error) && isSubmitting
      ensures !old(isSubmitting) && LoginValidation(email, password).Some? ==>
        call.None? && error == LoginValidation(email, password).value && !isSubmitting
      ensures !old(isSubmitting) && LoginValidation(email, password).None? ==>
        call == Some(Login(email, password)) && error == "" && isSubmitting
    {
      call := None;
      if isSubmitting {
        return;
      }
      error := "";
      isSubmitting := true;
      var problem := LoginValidation(email, password);
      if problem.Some? {
        error := problem.value;
        isSubmitting := false;
        return;
      }
      call := Some(Login(email, password));
    }

    /** `handleLogin` after its `await`: navigate to /dashboard only on a
        truthy result; show a thrown error's message (or the default); end
        submitting in every case. */
    method CompleteLogin(outcome: LoginOutcome) returns (navigation: Option<Navigation>)
      requires isSubmitting
      modifies this
      ensures navigation == (if outcome == LoginReturned(true) then Some(Navigate("/dashboard", true)) else None)
      ensures error == (if outcome.LoginThrew? then MessageOr(outcome.message, LoginFailed) else old(error))
      ensures !isSubmitting && email == old(email) && password == old(password)
    {
      navigation := None;
      match outcome {
        case LoginReturned(truthy) =>
          if truthy {
            navigation := Some(Navigate("/dashboard", true));
          }
        case LoginThrew(m) =>
          error := MessageOr(m, LoginFailed);
      }
      isSubmitting := false;
    }
  }
}
