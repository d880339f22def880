/** The signup form (src/components/SignupScreen.jsx). The asynchronous
    `handleSignup` is split at its `await`: `HandleSignup` runs the ordered
    checks and issues the `register` call, `CompleteSignup` receives its
    outcome. The validators `isValidEmail` and `validatePassword` are not part
    of this model; they are passed in as functions. */
module SignupScreen {
  import opened Wrappers
  import opened Text
  import opened Routing

  const NameRequired := "El nombre es requerido"
  const LastnameRequired := "El apellido es requerido"
  const EmailRequired := "El email es requerido"
  const EmailInvalid := "Por favor ingresa un email válido"
  const PasswordMismatch := "Las contraseñas no coinciden"
  const SignupFailed := "Error al crear la cuenta. Intenta nuevamente."
  const SignupSucceeded := "¡Cuenta creada exitosamente!"

  /** The five inputs of the form. */
  datatype SignupForm = SignupForm(name: string, lastname: string, email: string, password: string, confirmPassword: string)

  const EmptyForm := SignupForm("", "", "", "", "")

  datatype Field = Name | Lastname | Email | Password | ConfirmPassword

  /** `{ ...prev, [name]: value }`. */
  function WithField(f: SignupForm, field: Field, value: string): SignupForm {
    match field
    case Name => f.(name := value)
    case Lastname => f.(lastname := value)
    case Email => f.(email := value)
    case Password => f.(password := value)
    case ConfirmPassword => f.(confirmPassword := value)
  }

  /** What `validatePassword` answers. */
  datatype PasswordValidation = PasswordValidation(isValid: bool, message: string)

  /** The checks of `handleSignup`, in order: blank name, blank last name,
      blank email, `isValidEmail`, `validatePassword`, and an exact match of the
      two passwords. The first failure's message is the result; `None` means all
      pass. */
  function SignupValidation(f: SignupForm, isValidEmail: string -> bool, validatePassword: string -> PasswordValidation)
    : (r: Option<string>)
    ensures r.None? ==> isValidEmail(f.email) && validatePassword(f.password).isValid && f.password == f.confirmPassword
    ensures r.Some? ==>
      r == Some(NameRequired) || r == Some(LastnameRequired) || r == Some(EmailRequired) ||
      r == Some(EmailInvalid) || r == Some(PasswordMismatch) || r == Some(validatePassword(f.password).message)
  {
    if IsBlank(f.name) then Some(NameRequired)
    else if IsBlank(f.lastname) then Some(LastnameRequired)
    else if IsBlank(f.email) then Some(EmailRequired)
    else if !isValidEmail(f.email) then Some(EmailInvalid)
    else
      var passwordValidation := validatePassword(f.password);
      if !passwordValidation.isValid then Some(passwordValidation.message)
      else if f.password != f.confirmPassword then Some(PasswordMismatch)
      else None
  }

  /** Each check decides only when every earlier one passed (blank meaning
      whitespace only); the password validator's own message is shown
      unchanged; the passwords must be equal as typed; and the form passes
      exactly when every check does. */
  lemma SignupChecksInOrder(f: SignupForm, isValidEmail: string -> bool, validatePassword: string -> PasswordValidation)
    ensures var r := SignupValidation(f, isValidEmail, validatePassword);
      (r.None? <==>
        !AllWhitespace(f.name) && !AllWhitespace(f.lastname) && !AllWhitespace(f.email) &&
        isValidEmail(f.email) && validatePassword(f.password).isValid && f.password == f.confirmPassword) &&
      (AllWhitespace(f.name) ==> r == Some(NameRequired)) &&
      (!AllWhitespace(f.name) && AllWhitespace(f.lastname) ==> r == Some(LastnameRequired)) &&
      ((!AllWhitespace(f.name) && !AllWhitespace(f.lastname) && AllWhitespace(f.email)) ==>
        r == Some(EmailRequired)) &&
      ((!AllWhitespace(f.name) && !AllWhitespace(f.lastname) && !AllWhitespace(f.email) &&
        !isValidEmail(f.email)) ==>
        r == Some(EmailInvalid)) &&
      ((!AllWhitespace(f.name) && !AllWhitespace(f.lastname) && !AllWhitespace(f.email) &&
        isValidEmail(f.email) && !validatePassword(f.password).isValid) ==>
        r == Some(validatePassword(f.password).message)) &&
      ((!AllWhitespace(f.name) && !AllWhitespace(f.lastname) && !AllWhitespace(f.email) &&
        isValidEmail(f.email) && validatePassword(f.password).isValid && f.password != f.confirmPassword) ==>
        r == Some(PasswordMismatch))
  {
    BlankIffAllWhitespace(f.name);
    BlankIffAllWhitespace(f.lastname);
    BlankIffAllWhitespace(f.email);
  }

  /** The two phrases that mark an error as a conflict with an existing account. */
  const EmailTaken := "email ya está registrado"
  const UserExists := "usuario ya existe"

  /** The error is a conflict: it is shown as a warning with a link to log in. */
  predicate IsConflict(error: string)
    ensures IsConflict(error) ==> 'y' in error
  {
    assert EmailTaken[6] == 'y' && UserExists[8] == 'y';
    ContainsCharOf(error, EmailTaken, 6);
    ContainsCharOf(error, UserExists, 8);
    Contains(error, EmailTaken) || Contains(error, UserExists)
  }

  /** How the error banner is shown. */
  datatype ErrorBanner = NoBanner | PlainError(text: string) | ConflictWarning(text: string, loginLink: Navigation)

  /** No banner for an empty error; a conflict gets the warning with the link
      to /login; any other error is shown plainly. */
  function ErrorBannerFor(error: string): (b: ErrorBanner)
    ensures b.NoBanner? <==> error == ""
    ensures b.ConflictWarning? <==> error != "" && IsConflict(error)
    ensures b.ConflictWarning? ==> b.loginLink.to == "/login"
    ensures !b.NoBanner? ==> b.text == error
  {
    if error == "" then NoBanner
    else if IsConflict(error) then ConflictWarning(error, Navigate("/login", false))
    else PlainError(error)
  }

  /** The three "required" messages hold no `y`, so none is a conflict. */
  lemma RequiredMessagesAreNotConflicts()
    ensures !IsConflict(NameRequired) && !IsConflict(LastnameRequired) && !IsConflict(EmailRequired)
  {
    assert 'y' !in NameRequired && 'y' !in LastnameRequired && 'y' !in EmailRequired;
  }

  /** Neither the invalid-email nor the mismatch message is a conflict. */
  lemma CheckMessagesAreNotConflicts()
    ensures !IsConflict(EmailInvalid) && !IsConflict(PasswordMismatch)
  {
    assert 'y' !in EmailInvalid && 'y' !in PasswordMismatch;
  }

  /** The default message of a failed `register` is not a conflict. */
  lemma SignupFailedIsNotConflict()
    ensures !IsConflict(SignupFailed)
  {
    var first, second := "Error al crear la cuenta.", " Intenta nuevamente.";
    assert first + second == SignupFailed;
    assert 'y' !in first && 'y' !in second;
    assert 'y' !in SignupFailed;
  }

  /** The form's own checks never produce a conflict: when the password
      validator's message is not one, no message `SignupValidation` yields shows
      the link to log in. */
  lemma LocalMessagesAreNotConflicts(f: SignupForm, isValidEmail: string -> bool, validatePassword: string -> PasswordValidation)
    requires !IsConflict(validatePassword(f.password).message)
    ensures var r := SignupValidation(f, isValidEmail, validatePassword);
      r.Some? ==> !IsConflict(r.value)
  {
    RequiredMessagesAreNotConflicts();
    CheckMessagesAreNotConflicts();
  }

  /** A server message reporting a registered email is a conflict. */
  lemma RegisteredEmailIsConflict(pre: string, post: string)
    ensures IsConflict(pre + EmailTaken + post)
  {
    ContainsMiddle(pre, EmailTaken, post);
  }

  /** The `register(name, lastname, email, password)` call, with the fields as typed. */
  datatype RegisterCall = Register(name: string, lastname: string, email: string, password: string)

  /** What `register` did: resolved with a truthy or falsy result, or threw an
      error whose `message` may be empty. */
  datatype RegisterOutcome = Registered(truthy: bool) | RegisterThrew(message: string)

  class SignupScreen {
    var formData: SignupForm
    var error: string
    var success: string
    var showSuccessModal: bool
    var isSubmitting: bool

    constructor ()
      ensures formData == EmptyForm && error == "" && success == "" && !showSuccessModal && !isSubmitting
    {
      formData := EmptyForm;
      error, success := "", "";
      showSuccessModal, isSubmitting := false, false;
    }

    /** `handleChange`: overwrite one field and clear the error. */
    method HandleChange(field: Field, value: string)
      modifies this
      ensures formData == WithField(old(formData), field, value) && error == ""
      ensures success == old(success) && showSuccessModal == old(showSuccessModal)
      ensures isSubmitting == old(isSubmitting)
    {
      formData := WithField(formData, field, value);
      if error != "" {
        error := "";
      }
    }

    /** `handleSignup` up to its `await`. A submit in flight makes it a no-op;
        otherwise both messages are cleared, then the first failed check is
        shown and submitting ends, or `register` is called with the fields as
        typed. */
    method HandleSignup(isValidEmail: string -> bool, validatePassword: string -> PasswordValidation)
      returns (call: Option<RegisterCall>)
      modifies this
      ensures formData == old(formData) && showSuccessModal == old(showSuccessModal)
      ensures old(isSubmitting) ==>
        call.None? && error == old(error) && success == old(success) && isSubmitting
      ensures !old(isSubmitting) ==> (success == "" &&
        var problem := SignupValidation(formData, isValidEmail, validatePassword);
        (problem.Some? ==> call.None? && error == problem.value && !isSubmitting) &&
        (problem.None? ==>
          call == Some(Register(formData.name, formData.lastname, formData.email, formData.password)) &&
          error == "" && isSubmitting))
    {
      call := None;
      if isSubmitting {
        return;
      }
      error := "";
      success := "";
      isSubmitting := true;
      var problem := SignupValidation(formData, isValidEmail, validatePassword);
      if problem.Some? {
        error := problem.value;
        isSubmitting := false;
        return;
      }
      call := Some(Register(formData.name, formData.lastname, formData.email, formData.password));
    }

    /** `handleSignup` after its `await`. A truthy result shows the success
        text and the modal and empties all five fields, without navigating; a
        thrown error shows its message (or the default); submitting ends in
        every case. */
    method CompleteSignup(outcome: RegisterOutcome)
      requires isSubmitting
      modifies this
      ensures !isSubmitting
      ensures outcome == Registered(true) ==>
        success == SignupSucceeded && showSuccessModal && formData == EmptyForm && error == old(error)
      ensures outcome == Registered(false) ==>
        success == old(success) && showSuccessModal == old(showSuccessModal) &&
        formData == old(formData) && error == old(error)
      ensures outcome.RegisterThrew? ==>
        error == MessageOr(outcome.message, SignupFailed) && success == old(success) &&
        showSuccessModal == old(showSuccessModal) && formData == old(formData)
    {
      match outcome {
        case Registered(truthy) =>
          if truthy {
            success := SignupSucceeded;
            showSuccessModal := true;
            formData := EmptyForm;
          }
        case RegisterThrew(m) =>
          error := MessageOr(m, SignupFailed);
      }
      isSubmitting := false;
    }

    /** The modal's Aceptar button: go to /login, replacing the history entry. */
    method AcceptModal() returns (navigation: Navigation)
      requires showSuccessModal
      ensures navigation == Navigate("/login", true)
    {
      navigation := Navigate("/login", true);
    }
  }
}
