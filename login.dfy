/**
 * The sign-in form: field validation with the e-mail pattern, the alert fields, the mapping
 * from authentication errors to messages, the 60-second rate limit on verification
 * e-mails and the password-reset request.
 */
module Login {
  import opened Wrappers
  import opened Text

  // ---------------------------------------------------------------------------------------
  // The e-mail pattern [A-Z0-9a-z._%+-]+@[A-Za-z0-9.-]+\.[A-Za-z]{2,64}, matched in full
  // ---------------------------------------------------------------------------------------

  /** `[A-Z0-9a-z._%+-]`, the characters of the local part. */
  predicate IsLocalChar(c: char)
  {
    IsAsciiLetter(c) || IsDigit(c) || c == '.' || c == '_' || c == '%' || c == '+' || c == '-'
  }

  /** `[A-Za-z0-9.-]`, the characters of the domain before the final dot. */
  predicate IsDomainChar(c: char)
  {
    IsAsciiLetter(c) || IsDigit(c) || c == '.' || c == '-'
  }

  /**
   * `s` is `local + "@" + domain + "." + tld` with the '@' at `at` and that '.' at `dot`:
   * a non-empty local part, a non-empty domain, and a top-level part of 2 to 64 letters.
   */
  predicate EmailSplitsAt(s: string, at: int, dot: int)
  {
    && 1 <= at && at + 1 < dot < |s|
    && s[at] == '@' && s[dot] == '.'
    && AllSatisfy(s[..at], IsLocalChar)
    && AllSatisfy(s[at + 1..dot], IsDomainChar)
    && 2 <= |s| - dot - 1 <= 64
    && AllSatisfy(s[dot + 1..], IsAsciiLetter)
  }

  /** The full-string match of the pattern, as the regular expression defines it. */
  ghost predicate MatchesEmailPattern(s: string)
  {
    exists at, dot :: EmailSplitsAt(s, at, dot)
  }

  /** The index of the first `c` in `s`, or `|s|` when there is none. */
  function FirstIndex(s: string, c: char): (r: nat)
    ensures r <= |s|
    ensures r < |s| ==> s[r] == c
    ensures forall k :: 0 <= k < r ==> s[k] != c
  {
    if s == [] then 0
    else if s[0] == c then 0
    else 1 + FirstIndex(s[1..], c)
  }

  /** The index of the last `c` in `s`, or `-1` when there is none. */
  function LastIndex(s: string, c: char): (r: int)
    ensures -1 <= r < |s|
    ensures r >= 0 ==> s[r] == c
    ensures forall k :: r < k < |s| ==> s[k] != c
  {
    if s == [] then -1
    else if s[|s| - 1] == c then |s| - 1
    else LastIndex(s[..|s| - 1], c)
  }

  /**
   * The executable check: the pattern can only split at the first '@' (no '@' is allowed
   * on either side of it) and at the last '.' (the top-level part is letters only).
   */
  predicate IsValidEmail(s: string)
    ensures IsValidEmail(s) ==> |s| >= 6 && IsLocalChar(s[0])
  {
    var at := FirstIndex(s, '@');
    var ok := EmailSplitsAt(s, at, LastIndex(s, '.'));
    assert ok ==> s[0] == s[..at][0];
    ok
  }

  /** The executable check accepts exactly the strings the pattern matches. */
  lemma IsValidEmailMatchesPattern(s: string)
    ensures IsValidEmail(s) <==> MatchesEmailPattern(s)
  {
    if MatchesEmailPattern(s) {
      var at, dot :| EmailSplitsAt(s, at, dot);
      forall k | 0 <= k < at ensures s[k] != '@' {
        assert IsLocalChar(s[..at][k]);
      }
      forall k | dot < k < |s| ensures s[k] != '.' {
        assert IsAsciiLetter(s[dot + 1..][k - dot - 1]);
      }
      assert FirstIndex(s, '@') == at;
      assert LastIndex(s, '.') == dot;
    }
  }

  /** A split of the pattern has its '@' as the only '@' of the string. */
  lemma SplitHasOneAt(s: string, at: int, dot: int)
    requires EmailSplitsAt(s, at, dot)
    ensures forall k :: 0 <= k < |s| && s[k] == '@' ==> k == at
  {
    forall k | 0 <= k < at ensures s[k] != '@' {
      assert IsLocalChar(s[..at][k]);
    }
    forall k | at < k < dot ensures s[k] != '@' {
      assert IsDomainChar(s[at + 1..dot][k - at - 1]);
    }
    forall k | dot < k < |s| ensures s[k] != '@' {
      assert IsAsciiLetter(s[dot + 1..][k - dot - 1]);
    }
  }

  /** A valid e-mail has exactly one '@', and a '.' after it. */
  lemma ValidEmailShape(s: string)
    requires IsValidEmail(s)
    ensures '@' in s && '.' in s
    ensures forall k :: 0 <= k < |s| && s[k] == '@' ==> k == FirstIndex(s, '@')
  {
    var at, dot := FirstIndex(s, '@'), LastIndex(s, '.');
    assert s[at] == '@' && s[dot] == '.';
    SplitHasOneAt(s, at, dot);
  }

  /** A plain address passes; a one-letter top-level part or an empty local part does not. */
  lemma SampleEmails()
    ensures IsValidEmail("ali@x.com")
    ensures !IsValidEmail("ali@x.c")
    ensures !IsValidEmail("@x.com")
  {
    assert EmailSplitsAt("ali@x.com", 3, 5);
    IsValidEmailMatchesPattern("ali@x.com");
    var short := "ali@x.c";
    assert short[5] == '.' && short[6] != '.';
    assert LastIndex(short, '.') == 5;
    assert "@x.com"[0] == '@';
  }

  // ---------------------------------------------------------------------------------------
  // Messages
  // ---------------------------------------------------------------------------------------

  const AlertTitleError := "Hata"
  const AlertTitleWarning := "Uyarı"
  const AlertTitleSuccess := "Başarılı"
  const AlertTitleVerificationNeeded := "E-posta Doğrulaması Gerekli"

  const FillAllFields := "Lütfen tüm alanları doldurun!"
  const InvalidEmailFormat := "Geçerli bir e-posta adresi giriniz!"
  const PasswordTooShort := "Şifre en az 6 karakter olmalıdır!"
  const EmailNotVerified := "E-posta adresiniz henüz doğrulanmamış. Lütfen e-posta kutunuzu ve spam klasörünüzü kontrol edin.\n\nEğer doğrulama e-postası almadıysanız, yeni bir doğrulama e-postası isteyebilirsiniz."

  const WrongPasswordLead := "Girdiğiniz şifre yanlış!"
  const WrongPassword := WrongPasswordLead + " Lütfen şifrenizi kontrol edip tekrar deneyin."
  const WrongPasswordLong := WrongPassword + " Şifrenizi unuttuysanız 'Şifremi Unuttum' seçeneğini kullanabilirsiniz."
  const InvalidEmailMessage := "Girdiğiniz e-posta adresi geçersiz! Lütfen doğru formatta bir e-posta adresi girdiğinizden emin olun."
  const UserNotFoundMessage := "Bu e-posta adresiyle kayıtlı bir hesap bulunamadı! Eğer yeni bir kullanıcıysanız, lütfen önce kayıt olun."
  const UserDisabledMessage := "Hesabınız güvenlik nedeniyle devre dışı bırakılmış! Lütfen destek ekibiyle iletişime geçin."
  const TooManyRequestsMessage := "Çok fazla başarısız giriş denemesi yaptınız. Güvenliğiniz için lütfen bir süre bekleyip tekrar deneyin."
  const NetworkErrorMessage := "İnternet bağlantınızda bir sorun var! Lütfen bağlantınızı kontrol edip tekrar deneyin."
  const LoginErrorLead := "Giriş yapılırken bir hata oluştu"
  const OtherCodePrefix := LoginErrorLead + ": "
  const GenericLoginError := LoginErrorLead + ". Lütfen bilgilerinizi kontrol edip tekrar deneyin."

  const NotSignedIn := "Önce giriş yapmanız gerekiyor."
  const ResendTooSoon := "Lütfen yeni bir doğrulama e-postası göndermek için biraz bekleyin."
  const ResendTooMany := "Çok fazla doğrulama e-postası isteği gönderildi. Lütfen bir süre bekleyip tekrar deneyin."
  const ResendFailedPrefix := "Doğrulama e-postası gönderilirken bir hata oluştu: "
  const ResendSent := "Yeni doğrulama e-postası gönderildi. Lütfen e-posta kutunuzu ve spam klasörünüzü kontrol edin."

  const ResetEnterEmail := "Lütfen e-posta adresinizi girin!"
  const ResetFailedPrefix := "Şifre sıfırlama e-postası gönderilirken bir hata oluştu: "
  const ResetSent := "Şifre sıfırlama e-postası gönderildi. Lütfen e-posta kutunuzu kontrol edin."

  /** The error code of a too-many-requests failure when sending a verification e-mail. */
  const TooManyRequestsCode := 17010

  /** The minimum gap between two verification e-mails, in seconds. */
  const ResendInterval := 60

  // ---------------------------------------------------------------------------------------
  // Validation
  // ---------------------------------------------------------------------------------------

  /**
   * The message `validate()` leaves, or `None` when the fields pass: the blank check first,
   * then the e-mail pattern, then the password length.
   */
  function LoginValidationError(email: string, password: string): (r: Option<string>)
    ensures r.Some? ==> r.value in {FillAllFields, InvalidEmailFormat, PasswordTooShort}
    ensures r.None? ==> |email| >= 6 && |password| >= 6
  {
    if IsBlank(email) || IsBlank(password) then Some(FillAllFields)
    else if !IsValidEmail(email) then Some(InvalidEmailFormat)
    else if |password| < 6 then Some(PasswordTooShort)
    else None
  }

  /**
   * The fields pass exactly when neither is blank, the e-mail matches the pattern and the
   * password has at least six characters.
   */
  lemma LoginValidationAccepts(email: string, password: string)
    ensures LoginValidationError(email, password).None? <==>
      !IsBlank(email) && !IsBlank(password) && MatchesEmailPattern(email) && |password| >= 6
  {
    IsValidEmailMatchesPattern(email);
  }

  /** A blank field is reported before anything else is looked at. */
  lemma BlankReportedFirst(email: string, password: string)
    requires IsBlank(email) || IsBlank(password)
    ensures LoginValidationError(email, password) == Some(FillAllFields)
  {
  }

  /** Six characters is enough, five is not. */
  lemma PasswordLengthBoundary(email: string)
    requires IsValidEmail(email) && !IsBlank(email)
    ensures LoginValidationError(email, "abcdef") == None
    ensures LoginValidationError(email, "abcde") == Some(PasswordTooShort)
  {
    assert !AllSatisfy("abcdef", IsWhitespace) by { assert !IsWhitespace("abcdef"[0]); }
    assert !AllSatisfy("abcde", IsWhitespace) by { assert !IsWhitespace("abcde"[0]); }
  }

  // ---------------------------------------------------------------------------------------
  // handleFirebaseError
  // ---------------------------------------------------------------------------------------

  /** The authentication error codes the mapping distinguishes; `OtherCode` is any other known code. */
  datatype AuthErrorCode =
    | WrongPasswordCode | InvalidEmailCode | UserNotFoundCode | UserDisabledCode
    | TooManyRequestsError | NetworkErrorCode | InvalidCredentialCode | OtherCode

  /** An error as the handler sees it: a known code, or none, and its localized description. */
  datatype AuthError = AuthError(code: Option<AuthErrorCode>, description: string)

  /** The description mentions a wrong password, ignoring ASCII case. */
  predicate DescribesWrongPassword(description: string)
  {
    var d := ToLower(description);
    Contains(d, "credential is malformed") || Contains(d, "wrong password")
  }

  /** `handleFirebaseError(_:)`. */
  function HandleFirebaseError(err: AuthError): (r: string)
    ensures err.code == Some(OtherCode) ==>
      StartsWith(r, OtherCodePrefix) && r[|OtherCodePrefix|..] == err.description
    ensures err.code != Some(OtherCode) ==>
      r in {WrongPassword, WrongPasswordLong, InvalidEmailMessage, UserNotFoundMessage,
            UserDisabledMessage, TooManyRequestsMessage, NetworkErrorMessage, GenericLoginError}
  {
    match err.code
    case Some(WrongPasswordCode) => WrongPasswordLong
    case Some(InvalidEmailCode) => InvalidEmailMessage
    case Some(UserNotFoundCode) => UserNotFoundMessage
    case Some(UserDisabledCode) => UserDisabledMessage
    case Some(TooManyRequestsError) => TooManyRequestsMessage
    case Some(NetworkErrorCode) => NetworkErrorMessage
    case Some(InvalidCredentialCode) => WrongPassword
    case Some(OtherCode) =>
      var m := OtherCodePrefix + err.description;
      assert m[..|OtherCodePrefix|] == OtherCodePrefix && m[|OtherCodePrefix|..] == err.description;
      m
    case None => if DescribesWrongPassword(err.description) then WrongPassword else GenericLoginError
  }

  /**
   * The "wrong password" messages come from exactly the wrong-password and invalid-credential
   * codes, or from an uncoded error whose description mentions it.
   */
  lemma WrongPasswordMessages(err: AuthError)
    ensures HandleFirebaseError(err) in {WrongPassword, WrongPasswordLong} <==>
      err.code == Some(WrongPasswordCode) || err.code == Some(InvalidCredentialCode) ||
      (err.code.None? && DescribesWrongPassword(err.description))
  {
    if err.code == Some(OtherCode) {
      OtherCodeIsNotWrongPassword(err.description);
    }
  }

  /** A message built on the generic prefix is never one of the wrong-password messages. */
  lemma OtherCodeIsNotWrongPassword(description: string)
    ensures OtherCodePrefix + description != WrongPassword
    ensures OtherCodePrefix + description != WrongPasswordLong
  {
    assert (OtherCodePrefix + description)[3] == LoginErrorLead[3];
    assert WrongPassword[3] == WrongPasswordLong[3] == WrongPasswordLead[3];
    assert LoginErrorLead[3] != WrongPasswordLead[3];
  }

  /** Upper case in the description does not hide a wrong password. */
  lemma UppercaseDescriptionStillMaps()
    ensures HandleFirebaseError(AuthError(None, "Wrong Password")) == WrongPassword
  {
    assert ToLower("Wrong Password") == "wrong password";
    assert StartsWith(ToLower("Wrong Password"), "wrong password");
  }

  // ---------------------------------------------------------------------------------------
  // The view-model
  // ---------------------------------------------------------------------------------------

  /** How a sign-in attempt ended. */
  datatype SignInOutcome =
    | SignInFailed(error: AuthError)
    | SignedIn(emailVerified: bool)
    | NoUser

  /** The defaults key under which a user's last verification send time is kept. */
  function LastSentKey(uid: string): string
  {
    "lastVerificationEmailSent_" + uid
  }

  lemma LastSentKeyInjective(u: string, v: string)
    ensures LastSentKey(u) == LastSentKey(v) ==> u == v
  {
    if LastSentKey(u) == LastSentKey(v) {
      assert u == LastSentKey(u)[26..];
    }
  }

  /** `double(forKey:)`: a missing key reads as 0. */
  function ReadTime(defaults: map<string, int>, key: string): int
  {
    if key in defaults then defaults[key] else 0
  }

  /** A verification e-mail may be sent when at least 60 s have passed since the stored time. */
  predicate ResendAllowed(defaults: map<string, int>, uid: string, now: int)
  {
    now - ReadTime(defaults, LastSentKey(uid)) >= ResendInterval
  }

  /**
   * After a send recorded at `sentAt`, the same user may send again exactly when 60 s have
   * passed, and other users are not affected.
   */
  lemma ResendAfterRecord(defaults: map<string, int>, uid: string, sentAt: int, other: string, now: int)
    ensures ResendAllowed(defaults[LastSentKey(uid) := sentAt], uid, now) <==> now - sentAt >= 60
    ensures other != uid ==>
      (ResendAllowed(defaults[LastSentKey(uid) := sentAt], other, now) <==> ResendAllowed(defaults, other, now))
  {
    LastSentKeyInjective(uid, other);
  }

  class LogInViewModel {
    var email: string
    var password: string
    var errorMessage: string
    var isLoading: bool
    var showAlert: bool
    var alertTitle: string
    var alertMessage: string
    /** The device's stored send times, by key. */
    var defaults: map<string, int>

    constructor (defaults: map<string, int>)
      ensures email == "" && password == "" && errorMessage == "" && !isLoading
      ensures !showAlert && alertTitle == "" && alertMessage == "" && this.defaults == defaults
    {
      email := "";
      password := "";
      errorMessage := "";
      isLoading := false;
      showAlert := false;
      alertTitle := "";
      alertMessage := "";
      this.defaults := defaults;
    }

    /** `validate()`: resets the message, then leaves the first failing check's message. */
    method Validate() returns (ok: bool)
      modifies this`errorMessage
      ensures ok <==> LoginValidationError(email, password).None?
      ensures errorMessage == LoginValidationError(email, password).GetOr("")
    {
      errorMessage := "";
      if IsBlank(email) || IsBlank(password) {
        errorMessage := FillAllFields;
        return false;
      }
      if !IsValidEmail(email) {
        errorMessage := InvalidEmailFormat;
        return false;
      }
      if |password| < 6 {
        errorMessage := PasswordTooShort;
        return false;
      }
      return true;
    }

    /** Shows an alert with the current `errorMessage`. */
    method ShowError(title: string)
      modifies this`showAlert, this`alertTitle, this`alertMessage
      ensures showAlert && alertTitle == title && alertMessage == errorMessage
    {
      showAlert := true;
      alertTitle := title;
      alertMessage := errorMessage;
    }

    /**
     * `login()` up to the sign-in call: invalid fields raise the "Hata" alert with the
     * validation message and leave `isLoading` alone; valid fields start loading and
     * report that sign-in is attempted.
     */
    method LogIn() returns (attempted: bool)
      modifies this`errorMessage, this`showAlert, this`alertTitle, this`alertMessage, this`isLoading
      ensures attempted <==> LoginValidationError(old(email), old(password)).None?
      ensures errorMessage == LoginValidationError(old(email), old(password)).GetOr("")
      ensures !attempted ==>
        showAlert && alertTitle == AlertTitleError && alertMessage == errorMessage && isLoading == old(isLoading)
      ensures attempted ==>
        isLoading && showAlert == old(showAlert) && alertTitle == old(alertTitle) && alertMessage == old(alertMessage)
    {
      ghost var verdict := LoginValidationError(email, password);
      var valid := Validate();
      assert valid <==> verdict.None?;
      if !valid {
        ShowError(AlertTitleError);
        return false;
      }
      isLoading := true;
      return true;
    }

    /**
     * The sign-in completion: loading stops; an error is mapped and shown; an unverified
     * account is signed out again with the verification alert. Returns whether sign-out
     * was requested.
     */
    method CompleteLogIn(outcome: SignInOutcome) returns (signOut: bool)
      modifies this
      ensures !isLoading
      ensures email == old(email) && password == old(password) && defaults == old(defaults)
      ensures signOut <==> outcome == SignedIn(false)
      ensures outcome.SignInFailed? ==>
        errorMessage == HandleFirebaseError(outcome.error) &&
        showAlert && alertTitle == AlertTitleError && alertMessage == errorMessage
      ensures outcome == SignedIn(false) ==>
        errorMessage == EmailNotVerified &&
        showAlert && alertTitle == AlertTitleVerificationNeeded && alertMessage == errorMessage
      ensures outcome == SignedIn(true) || outcome.NoUser? ==>
        errorMessage == old(errorMessage) && showAlert == old(showAlert) &&
        alertTitle == old(alertTitle) && alertMessage == old(alertMessage)
    {
      isLoading := false;
      signOut := false;
      match outcome {
        case SignInFailed(error) =>
          errorMessage := HandleFirebaseError(error);
          ShowError(AlertTitleError);
        case SignedIn(verified) =>
          if !verified {
            signOut := true;
            errorMessage := EmailNotVerified;
            ShowError(AlertTitleVerificationNeeded);
          }
        case NoUser =>
      }
    }

    /**
     * `resendVerificationEmail()` up to the send: with no signed-in user, or within 60 s of
     * the stored send time, it raises an alert and does not send.
     */
    method ResendVerificationEmail(currentUser: Option<string>, now: int) returns (send: bool)
      modifies this`errorMessage, this`showAlert, this`alertTitle, this`alertMessage
      ensures send <==> currentUser.Some? && ResendAllowed(defaults, currentUser.value, now)
      ensures currentUser.None? ==>
        errorMessage == NotSignedIn && showAlert && alertTitle == AlertTitleError && alertMessage == errorMessage
      ensures currentUser.Some? && !send ==>
        errorMessage == ResendTooSoon && showAlert && alertTitle == AlertTitleWarning && alertMessage == errorMessage
      ensures send ==>
        errorMessage == old(errorMessage) && showAlert == old(showAlert) &&
        alertTitle == old(alertTitle) && alertMessage == old(alertMessage)
    {
      if currentUser.None? {
        errorMessage := NotSignedIn;
        ShowError(AlertTitleError);
        return false;
      }
      var lastEmailSentKey := LastSentKey(currentUser.value);
      var lastSentTime := ReadTime(defaults, lastEmailSentKey);
      if now - lastSentTime < ResendInterval {
        errorMessage := ResendTooSoon;
        ShowError(AlertTitleWarning);
        return false;
      }
      return true;
    }

    /**
     * The send completion: an error (with its code and description) is shown and nothing is
     * stored; a success stores `now` as the user's send time and shows the confirmation.
     */
    method CompleteResend(uid: string, error: Option<(int, string)>, now: int)
      modifies this`errorMessage, this`showAlert, this`alertTitle, this`alertMessage, this`defaults
      ensures showAlert && alertMessage == errorMessage
      ensures error.Some? ==> defaults == old(defaults) && alertTitle == AlertTitleError
      ensures error.Some? && error.value.0 == TooManyRequestsCode ==> errorMessage == ResendTooMany
      ensures error.Some? && error.value.0 != TooManyRequestsCode ==> errorMessage == ResendFailedPrefix + error.value.1
      ensures error.None? ==>
        defaults == old(defaults)[LastSentKey(uid) := now] &&
        errorMessage == ResendSent && alertTitle == AlertTitleSuccess
    {
      if error.Some? {
        if error.value.0 == TooManyRequestsCode {
          errorMessage := ResendTooMany;
        } else {
          errorMessage := ResendFailedPrefix + error.value.1;
        }
        ShowError(AlertTitleError);
      } else {
        defaults := defaults[LastSentKey(uid) := now];
        errorMessage := ResendSent;
        ShowError(AlertTitleSuccess);
      }
    }

    /**
     * `resetPassword()` up to the send: a blank e-mail, then an e-mail that does not match
     * the pattern, raises an alert; only when both checks pass does loading start.
     */
    method ResetPassword() returns (send: bool)
      modifies this`errorMessage, this`showAlert, this`alertTitle, this`alertMessage, this`isLoading
      ensures send <==> !IsBlank(email) && IsValidEmail(email)
      ensures IsBlank(email) ==>
        errorMessage == ResetEnterEmail && showAlert && alertTitle == AlertTitleError && alertMessage == errorMessage
      ensures !IsBlank(email) && !IsValidEmail(email) ==>
        errorMessage == InvalidEmailFormat && showAlert && alertTitle == AlertTitleError && alertMessage == errorMessage
      ensures !send ==> isLoading == old(isLoading)
      ensures send ==>
        isLoading && errorMessage == old(errorMessage) && showAlert == old(showAlert) &&
        alertTitle == old(alertTitle) && alertMessage == old(alertMessage)
    {
      if IsBlank(email) {
        errorMessage := ResetEnterEmail;
        ShowError(AlertTitleError);
        return false;
      }
      if !IsValidEmail(email) {
        errorMessage := InvalidEmailFormat;
        ShowError(AlertTitleError);
        return false;
      }
      isLoading := true;
      return true;
    }

    /** The reset completion: loading stops and the outcome is shown. */
    method CompleteReset(error: Option<string>)
      modifies this`errorMessage, this`showAlert, this`alertTitle, this`alertMessage, this`isLoading
      ensures !isLoading && showAlert && alertMessage == errorMessage
      ensures error.Some? ==> errorMessage == ResetFailedPrefix + error.value && alertTitle == AlertTitleError
      ensures error.None? ==> errorMessage == ResetSent && alertTitle == AlertTitleSuccess
    {
      isLoading := false;
      if error.Some? {
        errorMessage := ResetFailedPrefix + error.value;
        ShowError(AlertTitleError);
      } else {
        errorMessage := ResetSent;
        ShowError(AlertTitleSuccess);
      }
    }
  }
}
