/** The sign-up form's validation and the guard in front of account creation. */
module Register {
  import opened Wrappers
  import opened Text
  import Login

  const FillAllFields := "Lütfen tüm alanları doldurunuz."
  const InvalidEmail := "Geçerli bir e-posta adresi giriniz."
  const PasswordTooShort := "Şifreniz en az 6 karakterden oluşmalıdır."

  /** The looser e-mail test of this form: both an '@' and a '.', anywhere. */
  predicate HasAtAndDot(email: string)
  {
    '@' in email && '.' in email
  }

  /**
   * The message `validate()` leaves, or `None` when the form passes: blank fields first,
   * then the e-mail test, then the password length.
   */
  function RegisterValidationError(name: string, email: string, password: string): (r: Option<string>)
    ensures r.Some? ==> r.value in {FillAllFields, InvalidEmail, PasswordTooShort}
    ensures r.None? ==> email != [] && |password| >= 6
  {
    if IsBlank(name) || IsBlank(email) || IsBlank(password) then Some(FillAllFields)
    else if !HasAtAndDot(email) then Some(InvalidEmail)
    else if |password| < 6 then Some(PasswordTooShort)
    else None
  }

  /** The form passes exactly when no field is blank, the e-mail has '@' and '.', and the password has six characters. */
  lemma RegisterValidationAccepts(name: string, email: string, password: string)
    ensures RegisterValidationError(name, email, password).None? <==>
      !IsBlank(name) && !IsBlank(email) && !IsBlank(password) && HasAtAndDot(email) && |password| >= 6
  {
  }

  /** The first failing check decides the message. */
  lemma RegisterMessageOrder(name: string, email: string, password: string)
    ensures IsBlank(name) || IsBlank(email) || IsBlank(password) ==>
      RegisterValidationError(name, email, password) == Some(FillAllFields)
    ensures !IsBlank(name) && !IsBlank(email) && !IsBlank(password) && !HasAtAndDot(email) ==>
      RegisterValidationError(name, email, password) == Some(InvalidEmail)
    ensures !IsBlank(name) && !IsBlank(email) && !IsBlank(password) && HasAtAndDot(email) && |password| < 6 ==>
      RegisterValidationError(name, email, password) == Some(PasswordTooShort)
  {
  }

  /** Every e-mail the sign-in form accepts is accepted here too. */
  lemma SignInEmailPassesHere(email: string)
    requires Login.IsValidEmail(email)
    ensures HasAtAndDot(email)
  {
    Login.ValidEmailShape(email);
  }

  /** The converse fails: "@." has both characters but no local part. */
  lemma HereLooserThanSignIn()
    ensures HasAtAndDot("@.") && !Login.IsValidEmail("@.")
  {
    assert "@."[0] == '@' && "@."[1] == '.';
  }

  class RegisterViewModel {
    var name: string
    var email: string
    var password: string
    var errorMessage: string

    constructor ()
      ensures name == "" && email == "" && password == "" && errorMessage == ""
    {
      name := "";
      email := "";
      password := "";
      errorMessage := "";
    }

    /** `validate()`: resets the message, then leaves the first failing check's message. */
    method Validate() returns (ok: bool)
      modifies this`errorMessage
      ensures ok <==> RegisterValidationError(name, email, password).None?
      ensures errorMessage == RegisterValidationError(name, email, password).GetOr("")
    {
      errorMessage := "";
      if IsBlank(name) || IsBlank(email) || IsBlank(password) {
        errorMessage := FillAllFields;
        return false;
      }
      if !('@' in email && '.' in email) {
        errorMessage := InvalidEmail;
        return false;
      }
      if |password| < 6 {
        errorMessage := PasswordTooShort;
        return false;
      }
      return true;
    }

    /** `register()` up to account creation: it is attempted only when validation passes. */
    method Register() returns (attempted: bool)
      modifies this`errorMessage
      ensures attempted <==> RegisterValidationError(old(name), old(email), old(password)).None?
      ensures errorMessage == RegisterValidationError(old(name), old(email), old(password)).GetOr("")
    {
      ghost var verdict := RegisterValidationError(name, email, password);
      attempted := Validate();
      assert attempted <==> verdict.None?;
    }
  }
}
