/** The registration screen (ui/auth/RegisterFragment.kt): an ordered chain of checks over the
    three text fields, each of which shows or clears an error on its field, and the gate that
    forwards the texts to registration only when every check passes. */
module RegisterFragment {
  import opened Responses

  /** The checks, named by the error each one shows when it fails. */
  datatype ValidationError = NameRequired | EmailRequired | EmailNotValid | PasswordRequired | PasswordTooShort

  /** The three input layouts that can show an error. */
  datatype Field = NameField | EmailField | PasswordField

  /** What an input layout shows: no error, or the error text of one check. */
  datatype FieldError = NoError | Showing(error: ValidationError)

  /** The arguments a registration request is issued with. */
  datatype RegisterCall = RegisterCall(name: string, email: string, password: string)

  const MinPasswordLength: nat := 6

  /** Position of a check in the chain. */
  function Rank(e: ValidationError): nat {
    match e
    case NameRequired => 0
    case EmailRequired => 1
    case EmailNotValid => 2
    case PasswordRequired => 3
    case PasswordTooShort => 4
  }

  /** The layout a check reports on. */
  function FieldOf(e: ValidationError): Field {
    match e
    case NameRequired => NameField
    case EmailRequired | EmailNotValid => EmailField
    case PasswordRequired | PasswordTooShort => PasswordField
  }

  /** Position of a layout in the chain. */
  function FieldRank(f: Field): nat {
    match f
    case NameField => 0
    case EmailField => 1
    case PasswordField => 2
  }

  /** Whether check e fails on the given texts; `validEmail` is the platform's email pattern
      (util/ValidationFormat.kt), not part of this model. */
  predicate Fails(e: ValidationError, name: string, email: string, password: string, validEmail: string -> bool) {
    match e
    case NameRequired => name == ""
    case EmailRequired => email == ""
    case EmailNotValid => !validEmail(email)
    case PasswordRequired => password == ""
    case PasswordTooShort => |password| < MinPasswordLength
  }

  /** The check that stops the chain, if any: the first one, in chain order, that fails. */
  function FirstFailure(name: string, email: string, password: string, validEmail: string -> bool): (failure: Option<ValidationError>)
    ensures failure.None? <==> forall e :: !Fails(e, name, email, password, validEmail)
    ensures failure.Some? ==> Fails(failure.value, name, email, password, validEmail)
    ensures failure.Some? ==>
              forall e :: Rank(e) < Rank(failure.value) ==> !Fails(e, name, email, password, validEmail)
  {
    if name == "" then
      assert Fails(NameRequired, name, email, password, validEmail);
      Some(NameRequired)
    else if email == "" then
      assert Fails(EmailRequired, name, email, password, validEmail);
      Some(EmailRequired)
    else if !validEmail(email) then
      assert Fails(EmailNotValid, name, email, password, validEmail);
      Some(EmailNotValid)
    else if password == "" then
      assert Fails(PasswordRequired, name, email, password, validEmail);
      Some(PasswordRequired)
    else if |password| < MinPasswordLength then
      assert Fails(PasswordTooShort, name, email, password, validEmail);
      Some(PasswordTooShort)
    else
      None
  }

  /** The error a layout shows after the chain has run: the failing check's layout shows its
      error, layouts whose checks all ran and passed are cleared, later layouts keep what
      they showed before. */
  function ErrorAfter(field: Field, failure: Option<ValidationError>, before: FieldError): FieldError {
    match failure
    case None => NoError
    case Some(e) =>
      if FieldOf(e) == field then Showing(e)
      else if FieldRank(field) < FieldRank(FieldOf(e)) then NoError
      else before
  }

  /** The form is accepted exactly when the name is non-empty, the email non-empty and valid,
      and the password at least six characters long. */
  lemma AcceptedIff(name: string, email: string, password: string, validEmail: string -> bool)
    ensures FirstFailure(name, email, password, validEmail).None?
            <==> name != "" && email != "" && validEmail(email) && |password| >= MinPasswordLength
  {
  }

  /** An empty name blocks registration whatever the other fields hold; a non-empty email the
      pattern rejects blocks it; an accepted password has at least six characters. */
  lemma BlockingChecks(name: string, email: string, password: string, validEmail: string -> bool)
    ensures name == "" ==> FirstFailure(name, email, password, validEmail) == Some(NameRequired)
    ensures email != "" && !validEmail(email) ==> FirstFailure(name, email, password, validEmail).Some?
    ensures FirstFailure(name, email, password, validEmail).None? ==> |password| >= MinPasswordLength
  {
  }

  /** The chain stops at e exactly when e fails and every earlier check passes. */
  lemma FirstFailureIsFirstFailing(name: string, email: string, password: string, validEmail: string -> bool, e: ValidationError)
    ensures FirstFailure(name, email, password, validEmail) == Some(e)
            <==> Fails(e, name, email, password, validEmail)
                 && forall d :: Rank(d) < Rank(e) ==> !Fails(d, name, email, password, validEmail)
  {
  }

  /** The registration form: the three texts the user typed and what each layout shows. */
  class RegisterForm {
    var nameText: string
    var emailText: string
    var passwordText: string
    var nameError: FieldError
    var emailError: FieldError
    var passwordError: FieldError
    const validEmail: string -> bool

    constructor (validEmail: string -> bool)
      ensures this.validEmail == validEmail
      ensures nameText == "" && emailText == "" && passwordText == ""
      ensures nameError == NoError && emailError == NoError && passwordError == NoError
    {
      this.validEmail := validEmail;
      nameText, emailText, passwordText := "", "", "";
      nameError, emailError, passwordError := NoError, NoError, NoError;
    }

    /** The user edits the three fields. */
    method EditTexts(name: string, email: string, password: string)
      modifies this`nameText, this`emailText, this`passwordText
      ensures nameText == name && emailText == email && passwordText == password
    {
      nameText, emailText, passwordText := name, email, password;
    }

    /** The outcome of the chain on the current texts. */
    function Failure(): Option<ValidationError>
      reads this
    {
      FirstFailure(nameText, emailText, passwordText, validEmail)
    }

    /** `validateFormLogin`: true means blocked. Only the first failing check's layout gets an
        error; each check that passes clears its layout before the next check runs. */
    method ValidateFormLogin() returns (blocked: bool)
      modifies this`nameError, this`emailError, this`passwordError
      ensures blocked <==> Failure().Some?
      ensures nameError == ErrorAfter(NameField, Failure(), old(nameError))
      ensures emailError == ErrorAfter(EmailField, Failure(), old(emailError))
      ensures passwordError == ErrorAfter(PasswordField, Failure(), old(passwordError))
    {
      if nameText == "" {
        nameError := Showing(NameRequired);
        return true;
      } else {
        nameError := NoError;
      }

      if emailText == "" {
        emailError := Showing(EmailRequired);
        return true;
      } else {
        emailError := NoError;
      }

      if !validEmail(emailText) {
        emailError := Showing(EmailNotValid);
        return true;
      } else {
        emailError := NoError;
      }

      if passwordText == "" {
        passwordError := Showing(PasswordRequired);
        return true;
      } else {
        passwordError := NoError;
      }

      if |passwordText| < MinPasswordLength {
        passwordError := Showing(PasswordTooShort);
        return true;
      } else {
        passwordError := NoError;
      }

      return false;
    }

    /** `register`: when the chain passes, registration is requested with the exact texts;
        otherwise no request is made. */
    method Register() returns (call: Option<RegisterCall>)
      modifies this`nameError, this`emailError, this`passwordError
      ensures call.Some? <==> Failure().None?
      ensures call.Some? ==> call.value == RegisterCall(nameText, emailText, passwordText)
      ensures nameError == ErrorAfter(NameField, Failure(), old(nameError))
      ensures emailError == ErrorAfter(EmailField, Failure(), old(emailError))
      ensures passwordError == ErrorAfter(PasswordField, Failure(), old(passwordError))
    {
      var blocked := ValidateFormLogin();
      if blocked {
        return None;
      }
      call := Some(RegisterCall(nameText, emailText, passwordText));
    }
  }
}
