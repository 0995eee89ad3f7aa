/**
 * The login screen's form logic: `handleInputChange`, which overrides one field
 * of the form record, and `validateForm`, the ordered guard checks run before a
 * login or a sign-up. The alert the screen shows for a failed check is modelled
 * as the error kind the check returns.
 */
module Login {
  import opened Wrappers
  import opened JsStrings

  /** The form record: `email`, `password`, `userName`, `confirmPassword`. */
  datatype FormData = FormData(email: string, password: string, userName: string, confirmPassword: string)

  /** The name passed to `handleInputChange`. */
  datatype Field = Email | Password | UserName | ConfirmPassword

  /** The form the screen starts with: every field empty. */
  const InitialForm := FormData("", "", "", "")

  function Get(f: FormData, field: Field): string
  {
    match field
    case Email => f.email
    case Password => f.password
    case UserName => f.userName
    case ConfirmPassword => f.confirmPassword
  }

  /** `{ ...prev, [field]: value }`. */
  function HandleInputChange(f: FormData, field: Field, value: string): (r: FormData)
    ensures Get(r, field) == value
    ensures forall g :: g != field ==> Get(r, g) == Get(f, g)
  {
    match field
    case Email => f.(email := value)
    case Password => f.(password := value)
    case UserName => f.(userName := value)
    case ConfirmPassword => f.(confirmPassword := value)
  }

  /** A form is determined by its four fields. */
  lemma FormExtensional(f: FormData, g: FormData)
    requires forall field :: Get(f, field) == Get(g, field)
    ensures f == g
  {
    assert Get(f, Email) == Get(g, Email) && Get(f, Password) == Get(g, Password);
    assert Get(f, UserName) == Get(g, UserName) && Get(f, ConfirmPassword) == Get(g, ConfirmPassword);
  }

  /** Writing a field's own value back changes nothing. */
  lemma ChangeToSameValue(f: FormData, field: Field)
    ensures HandleInputChange(f, field, Get(f, field)) == f
  {
    FormExtensional(HandleInputChange(f, field, Get(f, field)), f);
  }

  /** Of two changes to the same field, the later one wins. */
  lemma LaterChangeWins(f: FormData, field: Field, v: string, w: string)
    ensures HandleInputChange(HandleInputChange(f, field, v), field, w) == HandleInputChange(f, field, w)
  {
    FormExtensional(HandleInputChange(HandleInputChange(f, field, v), field, w), HandleInputChange(f, field, w));
  }

  /** Changes to different fields commute. */
  lemma ChangesCommute(f: FormData, a: Field, v: string, b: Field, w: string)
    requires a != b
    ensures HandleInputChange(HandleInputChange(f, a, v), b, w) == HandleInputChange(HandleInputChange(f, b, w), a, v)
  {
    FormExtensional(HandleInputChange(HandleInputChange(f, a, v), b, w), HandleInputChange(HandleInputChange(f, b, w), a, v));
  }

  // ---------------------------------------------------------------------
  // validateForm
  // ---------------------------------------------------------------------

  /** The four checks, in the order the screen runs them. */
  datatype FormError = MissingCredentials | MissingName | PasswordMismatch | PasswordTooShort
  {
    /** The text of the alert shown for this failure. */
    function Message(): string
    {
      match this
      case MissingCredentials => "이메일과 비밀번호를 입력해주세요."
      case MissingName => "이름을 입력해주세요."
      case PasswordMismatch => "비밀번호가 일치하지 않습니다."
      case PasswordTooShort => "비밀번호는 6자 이상이어야 합니다."
    }

    /** Position of the check in the chain. */
    function Rank(): nat
    {
      match this
      case MissingCredentials => 0
      case MissingName => 1
      case PasswordMismatch => 2
      case PasswordTooShort => 3
    }
  }

  /** The least number of UTF-16 code units a sign-up password needs. */
  const MinPasswordLength := 6

  /** The condition each check tests, on its own. Only the first applies when
      logging in; the other three are sign-up checks. */
  predicate Fails(e: FormError, isLogin: bool, f: FormData)
  {
    match e
    case MissingCredentials => f.email == "" || f.password == ""
    case MissingName => !isLogin && f.userName == ""
    case PasswordMismatch => !isLogin && f.password != f.confirmPassword
    case PasswordTooShort => !isLogin && Utf16Length(f.password) < MinPasswordLength
  }

  /** What the form must satisfy to be submitted. */
  predicate Acceptable(isLogin: bool, f: FormData)
  {
    f.email != "" && f.password != ""
    && (!isLogin ==> f.userName != "" && f.password == f.confirmPassword && Utf16Length(f.password) >= MinPasswordLength)
  }

  /** `validateForm`: `None` where the source returns true, otherwise the first
      failed check. */
  function ValidateForm(isLogin: bool, f: FormData): (r: Option<FormError>)
    ensures r.None? <==> Acceptable(isLogin, f)
    ensures r.Some? ==> Fails(r.value, isLogin, f)
  {
    if f.email == "" || f.password == "" then Some(MissingCredentials)
    else if !isLogin && f.userName == "" then Some(MissingName)
    else if !isLogin && f.password != f.confirmPassword then Some(PasswordMismatch)
    else if !isLogin && Utf16Length(f.password) < MinPasswordLength then Some(PasswordTooShort)
    else None
  }

  /** The form is accepted exactly when no check fails. */
  lemma AcceptedIffNoCheckFails(isLogin: bool, f: FormData)
    ensures ValidateForm(isLogin, f).None? <==> forall e :: !Fails(e, isLogin, f)
  {
    if !Acceptable(isLogin, f) {
      var e := ValidateForm(isLogin, f).value;
      assert Fails(e, isLogin, f);
    }
  }

  /** The check reported is the first one that fails. */
  lemma FirstFailureReported(isLogin: bool, f: FormData, e: FormError)
    ensures ValidateForm(isLogin, f) == Some(e)
            <==> Fails(e, isLogin, f) && forall d: FormError :: d.Rank() < e.Rank() ==> !Fails(d, isLogin, f)
  {
    if Fails(e, isLogin, f) && forall d: FormError :: d.Rank() < e.Rank() ==> !Fails(d, isLogin, f) {
      if e.Rank() > 0 { assert !Fails(MissingCredentials, isLogin, f); }
      if e.Rank() > 1 { assert !Fails(MissingName, isLogin, f); }
      if e.Rank() > 2 { assert !Fails(PasswordMismatch, isLogin, f); }
    }
  }

  /** An empty email or password is refused in both modes. */
  lemma MissingCredentialsRefused(isLogin: bool, f: FormData)
    requires f.email == "" || f.password == ""
    ensures ValidateForm(isLogin, f) == Some(MissingCredentials)
  {
  }

  /** Logging in needs only a non-empty email and password. */
  lemma LoginNeedsOnlyCredentials(f: FormData)
    ensures ValidateForm(true, f).None? <==> f.email != "" && f.password != ""
  {
  }

  /** Editing the name or the confirmation does not change a login's verdict. */
  lemma LoginIgnoresSignUpFields(f: FormData, field: Field, v: string)
    requires field == UserName || field == ConfirmPassword
    ensures ValidateForm(true, HandleInputChange(f, field, v)) == ValidateForm(true, f)
  {
    var g := HandleInputChange(f, field, v);
    assert Get(g, Email) == Get(f, Email) && Get(g, Password) == Get(f, Password);
  }

  /** The form the screen starts with is refused in both modes. */
  lemma InitialFormRefused(isLogin: bool)
    ensures ValidateForm(isLogin, InitialForm) == Some(MissingCredentials)
  {
  }

  /** A five-character password is refused at sign-up once the other checks pass. */
  lemma ShortPasswordExample()
    ensures ValidateForm(false, FormData("a@b.c", "12345", "홍길동", "12345")) == Some(PasswordTooShort)
  {
    assert Utf16Length("12345") == 5;
  }

  /** Once the other sign-up checks pass, a password of Hangul or ASCII text is judged by
      its number of characters: fewer than six is refused with the length alert, six or
      more is accepted. */
  lemma SignUpPasswordRule(f: FormData)
    requires f.email != "" && f.password != "" && f.userName != "" && f.password == f.confirmPassword
    requires WithinBmp(f.password)
    ensures ValidateForm(false, f) == Some(PasswordTooShort) <==> |f.password| < MinPasswordLength
    ensures ValidateForm(false, f).None? <==> |f.password| >= MinPasswordLength
  {
  }

  /** The four alerts are different texts. */
  lemma MessagesDistinct(d: FormError, e: FormError)
    requires d != e
    ensures d.Message() != e.Message()
  {
    assert d.Message()[|d.Message()| - 5] != e.Message()[|e.Message()| - 5] || |d.Message()| != |e.Message()|;
  }
}
