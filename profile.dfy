/** The profile page's `profileData` state and its handlers. */
module Profile {
  import opened Wrappers

  /** The named inputs of the page; `handleChange` stores a value under the
      input's name. */
  datatype ProfileField = FullName | Email | Phone | Address
                        | CurrentPassword | NewPassword | ConfirmPassword

  /** The position of the first '@' in `s[i..]`, or `|s|` when there is none. */
  function AtIndexFrom(s: string, i: nat): (r: nat)
    requires i <= |s|
    ensures i <= r <= |s|
    ensures r < |s| ==> s[r] == '@'
    ensures forall k :: i <= k < r ==> s[k] != '@'
    decreases |s| - i
  {
    if i == |s| || s[i] == '@' then i else AtIndexFrom(s, i + 1)
  }

  /** The text before the first '@' of `s`, the whole of `s` when it has
      none: element 0 of `s.split('@')`. */
  function PrefixBeforeAt(s: string): (r: string)
    ensures |r| <= |s| && r == s[..|r|]
    ensures '@' !in r
    ensures |r| < |s| ==> s[|r|] == '@'
  {
    var n := AtIndexFrom(s, 0);
    assert forall k :: 0 <= k < n ==> s[..n][k] == s[k];
    s[..n]
  }

  /** The name shown when the signed-in user's email loads: the part before
      '@', or '' when there is no email. */
  function NameFromEmail(email: Option<string>): (r: string)
    ensures email.None? ==> r == ""
    ensures email.Some? ==> r == PrefixBeforeAt(email.value)
  {
    match email
    case None => ""
    case Some(e) => PrefixBeforeAt(e)
  }

  lemma NameFromEmailExample()
    ensures NameFromEmail(Some("jane.doe@example.com")) == "jane.doe"
  {
    assert AtIndexFrom("jane.doe@example.com", 0) == 8;
  }

  lemma NameFromEmailEdgeCases()
    ensures NameFromEmail(Some("@example.com")) == ""
    ensures NameFromEmail(Some("nobody")) == "nobody"
  {
    assert AtIndexFrom("@example.com", 0) == 0;
    assert AtIndexFrom("nobody", 0) == 6;
  }

  class ProfilePage {
    var fullName: string
    var email: string
    var phone: string
    var address: string
    var currentPassword: string
    var newPassword: string
    var confirmPassword: string

    /** The value of the input named `f`. */
    function Get(f: ProfileField): string
      reads this
    {
      match f
      case FullName => fullName
      case Email => email
      case Phone => phone
      case Address => address
      case CurrentPassword => currentPassword
      case NewPassword => newPassword
      case ConfirmPassword => confirmPassword
    }

    /** Every field starts empty. */
    constructor ()
      ensures forall f: ProfileField :: Get(f) == ""
    {
      fullName, email, phone, address := "", "", "", "";
      currentPassword, newPassword, confirmPassword := "", "", "";
    }

    /** The user became known: the name is taken from the email and the email
      is copied ('' when the user has none); the other fields are kept. */
    method OnUserLoaded(userEmail: Option<string>)
      modifies this
      ensures fullName == NameFromEmail(userEmail)
      ensures email == userEmail.GetOr("")
      ensures forall f: ProfileField :: f != FullName && f != Email ==> Get(f) == old(Get(f))
    {
      fullName := NameFromEmail(userEmail);
      email := userEmail.GetOr("");
    }

    /** `handleChange`: only the named field changes. */
    method HandleChange(f: ProfileField, value: string)
      modifies this
      ensures Get(f) == value
      ensures forall g: ProfileField :: g != f ==> Get(g) == old(Get(g))
    {
      match f {
        case FullName => fullName := value;
        case Email => email := value;
        case Phone => phone := value;
        case Address => address := value;
        case CurrentPassword => currentPassword := value;
        case NewPassword => newPassword := value;
        case ConfirmPassword => confirmPassword := value;
      }
    }

    /** `handlePasswordChange`: when the new password and its confirmation
      differ nothing changes and `matched` is false; otherwise (both empty
      included) the three password fields are cleared and the profile fields
      are kept. */
    method HandlePasswordChange() returns (matched: bool)
      modifies this
      ensures matched <==> old(newPassword) == old(confirmPassword)
      ensures !matched ==> forall f: ProfileField :: Get(f) == old(Get(f))
      ensures matched ==> currentPassword == "" && newPassword == "" && confirmPassword == ""
      ensures forall f: ProfileField :: f in {FullName, Email, Phone, Address} ==> Get(f) == old(Get(f))
    {
      if newPassword != confirmPassword {
        return false;
      }
      currentPassword, newPassword, confirmPassword := "", "", "";
      return true;
    }
  }

  /** Typing a password and the same confirmation, then submitting, clears
      the password fields and keeps the name. */
  method ChangePasswordScenario(page: ProfilePage, password: string)
    modifies page
    ensures page.fullName == old(page.fullName)
    ensures page.newPassword == "" && page.confirmPassword == ""
  {
    var name := page.fullName;
    page.HandleChange(NewPassword, password);
    assert page.Get(FullName) == name;
    page.HandleChange(ConfirmPassword, password);
    assert page.Get(FullName) == name && page.Get(NewPassword) == password;
    var matched := page.HandlePasswordChange();
    assert matched;
    assert page.Get(FullName) == name;
  }
}
