/**
 * Client-side form checks (app.js register form and username change): what
 * is refused before anything reaches the auth provider or the store.
 */
module Forms {
  import opened Wrappers
  import JsText
  import Messages

  /** Shortest accepted username, in JavaScript string length. */
  const MinUsernameLength: nat := 3

  const PasswordMismatchText := "Les mots de passe ne correspondent pas"
  const UsernameTooShortText := "Le pseudo doit faire au moins 3 caractères"

  datatype FormError = PasswordMismatch | UsernameTooShort

  /** The inline message shown for a refused form. */
  function FormErrorText(e: FormError): (r: string)
    ensures r == PasswordMismatchText <==> e == PasswordMismatch
    ensures r == UsernameTooShortText <==> e == UsernameTooShort
  {
    match e
    case PasswordMismatch => PasswordMismatchText
    case UsernameTooShort => UsernameTooShortText
  }

  /** What a valid registration sends on: the three fields, untouched. */
  datatype Registration = Registration(username: string, email: string, password: string)

  /**
   * The register handler's checks, in order: the confirmation must equal the
   * password, then the (untrimmed) username must be at least 3 code units long.
   */
  function ValidateRegistration(username: string, email: string, password: string, confirm: string)
    : (r: Result<Registration, FormError>)
    ensures r.Ok? <==> password == confirm && JsText.Utf16Length(username) >= MinUsernameLength
    ensures password != confirm ==> r == Err(PasswordMismatch)
    ensures password == confirm && JsText.Utf16Length(username) < MinUsernameLength ==> r == Err(UsernameTooShort)
    ensures r.Ok? ==> r.value == Registration(username, email, password)
  {
    if password != confirm then Err(PasswordMismatch)
    else if JsText.Utf16Length(username) < MinUsernameLength then Err(UsernameTooShort)
    else Ok(Registration(username, email, password))
  }

  /**
   * The text under the register form, as written (app.js lines 96 and 316): the
   * form error if refused, otherwise nothing on success and, on a provider
   * refusal, the table looked up with the provider's message text.
   */
  function RegisterFeedback(username: string, email: string, password: string, confirm: string,
                            provider: Option<Messages.AuthFailure>): (r: string)
    ensures password != confirm ==> r == PasswordMismatchText
    ensures password == confirm && JsText.Utf16Length(username) < MinUsernameLength ==> r == UsernameTooShortText
    ensures ValidateRegistration(username, email, password, confirm).Ok? && provider.None? ==> r == ""
    ensures (&& ValidateRegistration(username, email, password, confirm).Ok? && provider.Some?
             && provider.value.message !in Messages.ErrorMessages)
        ==> r == Messages.GenericError
    ensures (&& ValidateRegistration(username, email, password, confirm).Ok? && provider.Some?
             && provider.value.message in Messages.ErrorMessages)
        ==> r == Messages.ErrorMessages[provider.value.message]
  {
    match ValidateRegistration(username, email, password, confirm)
    case Err(e) => FormErrorText(e)
    case Ok(_) =>
      match provider
      case None => ""
      case Some(failure) => Messages.AuthErrorTextAsWritten(failure)
  }

  /**
   * The register feedback with the provider's code looked up instead: it differs
   * from the handler as written only in the text of a provider refusal.
   */
  function RegisterFeedbackCorrected(username: string, email: string, password: string, confirm: string,
                                     provider: Option<Messages.AuthFailure>): (r: string)
    ensures password != confirm ==> r == PasswordMismatchText
    ensures password == confirm && JsText.Utf16Length(username) < MinUsernameLength ==> r == UsernameTooShortText
    ensures ValidateRegistration(username, email, password, confirm).Ok? && provider.None? ==> r == ""
    ensures (&& ValidateRegistration(username, email, password, confirm).Ok? && provider.Some?
             && provider.value.code in Messages.ErrorMessages)
        ==> r == Messages.ErrorMessages[provider.value.code]
    ensures (&& ValidateRegistration(username, email, password, confirm).Ok? && provider.Some?
             && provider.value.code !in Messages.ErrorMessages)
        ==> r == Messages.GenericError
    ensures provider.None? || provider.value.message == provider.value.code ==>
      r == RegisterFeedback(username, email, password, confirm, provider)
  {
    match ValidateRegistration(username, email, password, confirm)
    case Err(e) => FormErrorText(e)
    case Ok(_) =>
      match provider
      case None => ""
      case Some(failure) => Messages.AuthErrorText(failure)
  }

  /**
   * The text under the sign-in form, as written (app.js lines 107 and 288, and
   * the social sign-in buttons): nothing on success, otherwise the table looked
   * up with the provider's message text.
   */
  function LoginFeedback(provider: Option<Messages.AuthFailure>): (r: string)
    ensures provider.None? <==> r == ""
    ensures provider.Some? && provider.value.message in Messages.ErrorMessages ==> r == Messages.ErrorMessages[provider.value.message]
    ensures provider.Some? && provider.value.message !in Messages.ErrorMessages ==> r == Messages.GenericError
  {
    match provider
    case None => ""
    case Some(failure) => Messages.AuthErrorTextAsWritten(failure)
  }

  /** The sign-in feedback with the provider's code looked up instead. */
  function LoginFeedbackCorrected(provider: Option<Messages.AuthFailure>): (r: string)
    ensures provider.None? <==> r == ""
    ensures provider.Some? && provider.value.code in Messages.ErrorMessages ==> r == Messages.ErrorMessages[provider.value.code]
    ensures provider.Some? && provider.value.code !in Messages.ErrorMessages ==> r == Messages.GenericError
    ensures provider.None? || provider.value.message == provider.value.code ==> r == LoginFeedback(provider)
  {
    match provider
    case None => ""
    case Some(failure) => Messages.AuthErrorText(failure)
  }

  /** A wrong password on the sign-in form: as written the generic text, corrected the specific one. */
  lemma LoginWrongPasswordExample()
    ensures var p := Some(Messages.AuthFailure("auth/wrong-password", "The password is invalid."));
      && LoginFeedback(p) == Messages.GenericError
      && LoginFeedbackCorrected(p) == "Mot de passe incorrect"
  {
  }

  /** The username change: the trimmed name if it is at least 3 code units long, refused otherwise. */
  function ChangeUsername(input: string): (r: Result<string, FormError>)
    ensures r.Err? <==> JsText.Utf16Length(JsText.Trim(input)) < MinUsernameLength
    ensures r.Err? ==> r.error == UsernameTooShort
    ensures r.Ok? ==> r.value == JsText.Trim(input)
    ensures r.Ok? ==> (&& JsText.Utf16Length(r.value) >= MinUsernameLength
                       && r.value[0] !in JsText.JsSpaces && r.value[|r.value| - 1] !in JsText.JsSpaces)
  {
    var name := JsText.Trim(input);
    if JsText.Utf16Length(name) < MinUsernameLength then Err(UsernameTooShort) else Ok(name)
  }

  /** Submitting an accepted name again accepts it unchanged. */
  lemma ChangeUsernameStable(input: string)
    requires ChangeUsername(input).Ok?
    ensures ChangeUsername(ChangeUsername(input).value) == ChangeUsername(input)
  {
    JsText.TrimIdempotent(input, JsText.JsSpaces);
  }

  /** The register form does not trim: three spaces pass it, though a rename to them is refused. */
  lemma RegisterAcceptsBlankName(email: string, password: string)
    ensures ValidateRegistration("   ", email, password, password).Ok?
    ensures ChangeUsername("   ").Err?
  {
    assert JsText.Trim("   ") == [];
  }
}
