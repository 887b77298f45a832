/** The sign-up page's `validateForm`: name, email, password and its
    confirmation, as a map from field to message. */
module Signup {
  import opened Wrappers
  import opened Text

  datatype SignupValues = SignupValues(
    name: string, email: string, password: string, confirmPassword: string)

  datatype Field = Name | Email | Password | ConfirmPassword

  const NameRequired := "Name is required"
  const EmailRequired := "Email is required"
  const EmailInvalid := "Email is invalid"
  const PasswordRequired := "Password is required"
  const PasswordTooShort := "Password must be at least 6 characters"
  const PasswordsDiffer := "Passwords do not match"

  /** The shortest password the page accepts. */
  const MinPasswordLength := 6

  function EmailError(email: string): Option<string>
  {
    if email == "" then Some(EmailRequired)
    else if !MatchesEmailPattern(email) then Some(EmailInvalid)
    else None
  }

  function PasswordError(password: string): Option<string>
  {
    if password == "" then Some(PasswordRequired)
    else if |password| < MinPasswordLength then Some(PasswordTooShort)
    else None
  }

  /** The message `validateForm` assigns to field `f`, if any. */
  function FieldError(v: SignupValues, f: Field): Option<string>
  {
    match f
    case Name => if Trim(v.name) == [] then Some(NameRequired) else None
    case Email => EmailError(v.email)
    case Password => PasswordError(v.password)
    case ConfirmPassword => if v.password != v.confirmPassword then Some(PasswordsDiffer) else None
  }

  function ValidateForm(v: SignupValues): map<Field, string>
  {
    map f: Field | FieldError(v, f).Some? :: FieldError(v, f).value
  }

  /** All four field conditions hold. */
  ghost predicate Acceptable(v: SignupValues)
  {
    !IsBlank(v.name) && ContainsEmailShape(v.email)
    && |v.password| >= MinPasswordLength && v.password == v.confirmPassword
  }

  /** Each field is reported exactly when its own condition fails; the
      confirmation is compared with the password whatever the other checks say. */
  lemma ErrorKeys(v: SignupValues)
    ensures var errors := ValidateForm(v);
      && (Name in errors <==> IsBlank(v.name))
      && (Email in errors <==> !ContainsEmailShape(v.email))
      && (Password in errors <==> |v.password| < MinPasswordLength)
      && (ConfirmPassword in errors <==> v.password != v.confirmPassword)
  {
    NoShapeInEmpty();
  }

  /** The empty text holds no email shape, so an empty email is reported. */
  lemma NoShapeInEmpty()
    ensures !ContainsEmailShape("")
  {
    assert !MatchesEmailPattern("");
  }

  /** The message of each reported field; the two email messages exclude
      each other, and so do the two password messages. */
  lemma Messages(v: SignupValues)
    ensures var errors := ValidateForm(v);
      && (Name in errors ==> errors[Name] == NameRequired)
      && (Email in errors ==> errors[Email] == if v.email == "" then EmailRequired else EmailInvalid)
      && (Password in errors ==> errors[Password] == if v.password == "" then PasswordRequired else PasswordTooShort)
      && (ConfirmPassword in errors ==> errors[ConfirmPassword] == PasswordsDiffer)
  {
  }

  /** The error map is empty exactly when all four conditions hold. */
  lemma NoErrorsIffAcceptable(v: SignupValues)
    ensures |ValidateForm(v)| == 0 <==> Acceptable(v)
  {
    var errors := ValidateForm(v);
    NoShapeInEmpty();
    if Acceptable(v) {
      forall f: Field ensures f !in errors {
        assert FieldError(v, f).None?;
      }
      assert errors.Keys == {};
    } else {
      var f :=
        if IsBlank(v.name) then Name
        else if !ContainsEmailShape(v.email) then Email
        else if |v.password| < MinPasswordLength then Password
        else ConfirmPassword;
      assert FieldError(v, f).Some?;
      assert f in errors.Keys;
    }
  }

  /** A whitespace-only name is reported as missing. */
  lemma BlankNameRequired(v: SignupValues)
    requires IsBlank(v.name)
    ensures Name in ValidateForm(v) && ValidateForm(v)[Name] == NameRequired
  {
  }
}
