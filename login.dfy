/** The sign-in page's `validateForm`: email and password. */
module Login {
  import opened Wrappers
  import opened Text
  import Signup

  datatype LoginValues = LoginValues(email: string, password: string)

  datatype Field = Email | Password

  const EmailRequired := "Email is required"
  const EmailInvalid := "Email is invalid"
  const PasswordRequired := "Password is required"

  function EmailError(email: string): Option<string>
  {
    if email == "" then Some(EmailRequired)
    else if !MatchesEmailPattern(email) then Some(EmailInvalid)
    else None
  }

  /** The message `validateForm` assigns to field `f`, if any. */
  function FieldError(v: LoginValues, f: Field): Option<string>
  {
    match f
    case Email => EmailError(v.email)
    case Password => if v.password == "" then Some(PasswordRequired) else None
  }

  function ValidateForm(v: LoginValues): map<Field, string>
  {
    map f: Field | FieldError(v, f).Some? :: FieldError(v, f).value
  }

  /** The email check and its messages are those of the sign-up page. */
  lemma EmailCheckMatchesSignup(email: string)
    ensures EmailError(email) == Signup.EmailError(email)
  {
  }

  /** Each field is reported exactly when its condition fails; there is no
      minimum password length here. */
  lemma ErrorKeys(v: LoginValues)
    ensures var errors := ValidateForm(v);
      && (Email in errors <==> !ContainsEmailShape(v.email))
      && (Password in errors <==> v.password == "")
      && (Password in errors ==> errors[Password] == PasswordRequired)
      && (Email in errors ==> errors[Email] == (if v.email == "" then EmailRequired else EmailInvalid))
  {
    Signup.NoShapeInEmpty();
  }

  /** The error map is empty exactly when the email has the pattern and a
      password was typed. */
  lemma NoErrorsIffAcceptable(v: LoginValues)
    ensures |ValidateForm(v)| == 0 <==> ContainsEmailShape(v.email) && v.password != ""
  {
    var errors := ValidateForm(v);
    Signup.NoShapeInEmpty();
    if ContainsEmailShape(v.email) && v.password != "" {
      forall f: Field ensures f !in errors {
        assert FieldError(v, f).None?;
      }
      assert errors.Keys == {};
    } else {
      var f := if !ContainsEmailShape(v.email) then Email else Password;
      assert FieldError(v, f).Some?;
      assert f in errors.Keys;
    }
  }

  /** A one-character password is accepted here though the sign-up page
      would refuse it. */
  lemma ShortPasswordAccepted()
    ensures Password !in ValidateForm(LoginValues("a@b.c", "x"))
    ensures Signup.Password in Signup.ValidateForm(Signup.SignupValues("n", "a@b.c", "x", "x"))
  {
  }
}
