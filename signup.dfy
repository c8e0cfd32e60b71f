/**
 * The sign-up form: its checks, in the order the form makes them, the call
 * to the sign-up service, and the alert the user sees. The service's answer
 * is a parameter.
 */
module SignUp {
  import opened Common
  import opened Text

  const MinPasswordLength: nat := 6

  datatype Form = Form(fullName: string, email: string, password: string, confirmPassword: string)

  /** The first check a form fails, or `Passed`. */
  datatype Check = MissingField | PasswordMismatch | PasswordTooShort | Passed

  /** The checks in order: every field filled, the passwords equal, the password at least six UTF-16 units. */
  function Validate(f: Form): (r: Check)
    ensures r == MissingField <==> f.fullName == "" || f.email == "" || f.password == "" || f.confirmPassword == ""
    ensures r == PasswordMismatch <==> r != MissingField && f.password != f.confirmPassword
    ensures r == PasswordTooShort <==>
      r != MissingField && f.password == f.confirmPassword && Utf16Length(f.password) < MinPasswordLength
    ensures r == Passed <==>
      && f.fullName != "" && f.email != "" && f.password != "" && f.confirmPassword != ""
      && f.password == f.confirmPassword && Utf16Length(f.password) >= MinPasswordLength
  {
    if f.fullName == "" || f.email == "" || f.password == "" || f.confirmPassword == "" then MissingField
    else if f.password != f.confirmPassword then PasswordMismatch
    else if Utf16Length(f.password) < MinPasswordLength then PasswordTooShort
    else Passed
  }

  /** Five characters of the Basic Multilingual Plane are too short, however they are typed. */
  lemma FiveCharactersTooShort(f: Form)
    requires f.fullName != "" && f.email != "" && f.password == f.confirmPassword && |f.password| == 5
    requires forall i :: 0 <= i < |f.password| ==> f.password[i] as int <= 0xFFFF
    ensures Validate(f) == PasswordTooShort
  {
  }

  /** Three characters outside the Basic Multilingual Plane are six UTF-16 units, enough for the form. */
  lemma ThreeEmojiLongEnough()
    ensures Validate(Form("Ana", "ana@example.com", "\U{1F600}\U{1F600}\U{1F600}", "\U{1F600}\U{1F600}\U{1F600}")) == Passed
  {
    var p := "\U{1F600}\U{1F600}\U{1F600}";
    assert p[1..] == "\U{1F600}\U{1F600}" && p[1..][1..] == "\U{1F600}" && p[1..][1..][1..] == "";
    assert Utf16Length(p) == 6;
  }

  /** What the sign-up service answers: success, an error object (whose message may be missing), or a throw. */
  datatype Response = Accepted | Rejected(message: Option<string>) | Threw

  datatype Alert = Alert(title: string, message: string)

  const Title: string := "Error"

  /** The alert for a failed check. */
  function CheckAlert(c: Check): (a: Alert)
    requires c != Passed
    ensures a.title == Title && a.message != ""
  {
    match c
    case MissingField => Alert(Title, "Please fill in all fields")
    case PasswordMismatch => Alert(Title, "Passwords do not match")
    case PasswordTooShort => Alert(Title, "Password must be at least 6 characters long")
  }

  /** The alert after the service answers; a missing or empty error message falls back to a default. */
  function ResponseAlert(r: Response): (a: Alert)
    ensures r.Accepted? <==> a.title == "Success"
    ensures r.Rejected? && r.message.Some? && r.message.value != "" ==> a == Alert("Sign Up Failed", r.message.value)
    ensures r.Rejected? && (r.message.None? || r.message.value == "") ==>
      a == Alert("Sign Up Failed", "An error occurred during sign up")
    ensures r.Threw? ==> a == Alert("Sign Up Failed", "An unexpected error occurred")
    ensures a.message != ""
  {
    match r
    case Accepted => Alert("Success", "Account created successfully! Please check your email to verify your account.")
    case Rejected(m) =>
      Alert("Sign Up Failed", if m.Some? && m.value != "" then m.value else "An error occurred during sign up")
    case Threw => Alert("Sign Up Failed", "An unexpected error occurred")
  }

  /** The call made to the sign-up service. */
  datatype SignUpCall = SignUpCall(email: string, password: string, fullName: string)

  const LoginRoute: string := "/auth/login"

  class SignUpScreen {
    var loading: bool
    /** Every value `loading` has taken, in order. */
    ghost var loadingHistory: seq<bool>

    constructor ()
      ensures !loading && loadingHistory == [false]
    {
      loading := false;
      loadingHistory := [false];
    }

    /**
     * `handleSignUp`: a form that fails a check shows that check's alert and
     * calls nothing. Otherwise the service is called with the form's email,
     * password and name while `loading` is on, the answer's alert is shown,
     * and `loading` goes off again whatever the answer. Only a success leads,
     * on OK, to the login screen.
     */
    method HandleSignUp(f: Form, response: Response) returns (call: Option<SignUpCall>, alert: Alert, next: Option<string>)
      modifies this
      ensures call.Some? <==> Validate(f) == Passed
      ensures call.Some? ==> call.value == SignUpCall(f.email, f.password, f.fullName)
      ensures Validate(f) != Passed ==>
        alert == CheckAlert(Validate(f)) && next == None &&
        loading == old(loading) && loadingHistory == old(loadingHistory)
      ensures Validate(f) == Passed ==>
        alert == ResponseAlert(response) && !loading && loadingHistory == old(loadingHistory) + [true, false]
      ensures next.Some? <==> Validate(f) == Passed && response.Accepted?
      ensures next.Some? ==> next.value == LoginRoute
    {
      var check := Validate(f);
      if check != Passed {
        return None, CheckAlert(check), None;
      }
      loading := true;
      loadingHistory := loadingHistory + [true];
      call := Some(SignUpCall(f.email, f.password, f.fullName));
      alert := ResponseAlert(response);
      next := if response.Accepted? then Some(LoginRoute) else None;
      loading := false;
      loadingHistory := loadingHistory + [false];
    }
  }
}
