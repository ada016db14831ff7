/** The React sign-in screen (react-app/src/components/Auth.jsx): the
    login/register submit paths, the display name sent on sign-up, the
    messages shown, and the state kept between renders.

    Component state is a value; each handler is a function from the old
    state to what it produces. The awaited `login`, `signup` and
    `signInWithGoogle` calls are replaced by the reply they settle with. */
module AuthView {
  import opened Wrappers
  import Text

  datatype AuthForm = AuthForm(email: string, password: string, firstName: string, lastName: string, confirmPassword: string)

  /** The `name` of each input of the form. */
  datatype FormField = Email | Password | FirstName | LastName | ConfirmPassword

  datatype AuthState = AuthState(isLogin: bool, loading: bool, error: string, success: string, form: AuthForm)

  /** Calls made through the authentication context. */
  datatype AuthCall =
    | Login(email: string, password: string)
    | Signup(email: string, password: string, displayName: string)
    | GoogleSignIn

  /** How an awaited call settled; a failure carries the error's message,
      possibly empty. */
  datatype Reply = Done | Failed(message: string)

  const Dashboard := "/dashboard"
  const SubmitFallback := "An error occurred. Please try again."
  const GoogleFallback := "Google sign-in failed. Please try again."
  const MismatchText := "Passwords do not match"

  /** The state on first render: login mode, idle, no messages, empty form. */
  const Start := AuthState(true, false, "", "", AuthForm("", "", "", "", ""))

  /** The message shown for a failure: its own message, or the fallback
      when that is empty. */
  function ErrorText(message: string, fallback: string): (shown: string)
    requires fallback != ""
    ensures shown != ""
    ensures message != "" ==> shown == message
    ensures message == "" ==> shown == fallback
  {
    if message != "" then message else fallback
  }

  /** The display name sent on sign-up: first and last name joined by a
      space, with surrounding whitespace removed. */
  function DisplayName(firstName: string, lastName: string): (name: string)
    ensures name == [] || (!Text.IsSpace(name[0]) && !Text.IsSpace(name[|name| - 1]))
    ensures |name| <= |firstName| + 1 + |lastName|
    ensures var joined := firstName + " " + lastName;
      exists i ::
        && 0 <= i <= |joined| - |name| && name == joined[i..][..|name|]
        && (forall k :: 0 <= k < i ==> Text.IsSpace(joined[k]))
        && (forall k :: i + |name| <= k < |joined| ==> Text.IsSpace(joined[k]))
  {
    Text.Trim(firstName + " " + lastName)
  }

  /** A string with no whitespace at either end. */
  predicate Tidy(s: string) {
    s == [] || (!Text.IsSpace(s[0]) && !Text.IsSpace(s[|s| - 1]))
  }

  /** Two tidy, non-empty names give "first last". */
  lemma DisplayNameOfNames(firstName: string, lastName: string)
    requires Tidy(firstName) && firstName != []
    requires Tidy(lastName) && lastName != []
    ensures DisplayName(firstName, lastName) == firstName + " " + lastName
  {
    Text.TrimUnique([], firstName + " " + lastName, []);
    assert [] + (firstName + " " + lastName) + [] == firstName + " " + lastName;
  }

  /** With an empty last name the trailing space is dropped. */
  lemma DisplayNameOfFirstOnly(firstName: string)
    requires Tidy(firstName)
    ensures DisplayName(firstName, "") == firstName
  {
    var sp := " ";
    assert forall k :: 0 <= k < |sp| ==> Text.IsSpace(sp[k]);
    Text.TrimUnique([], firstName, sp);
    assert firstName + " " + "" == [] + firstName + sp;
  }

  /** With an empty first name the leading space is dropped. */
  lemma DisplayNameOfLastOnly(lastName: string)
    requires Tidy(lastName)
    ensures DisplayName("", lastName) == lastName
  {
    var sp := " ";
    assert forall k :: 0 <= k < |sp| ==> Text.IsSpace(sp[k]);
    Text.TrimUnique(sp, lastName, []);
    assert "" + " " + lastName == sp + lastName + [];
  }

  /** handleInputChange: only the named field takes the typed value. */
  function HandleInputChange(s: AuthState, field: FormField, value: string): (r: AuthState)
    ensures r.isLogin == s.isLogin && r.loading == s.loading && r.error == s.error && r.success == s.success
    ensures r.form.email == (if field == Email then value else s.form.email)
    ensures r.form.password == (if field == Password then value else s.form.password)
    ensures r.form.firstName == (if field == FirstName then value else s.form.firstName)
    ensures r.form.lastName == (if field == LastName then value else s.form.lastName)
    ensures r.form.confirmPassword == (if field == ConfirmPassword then value else s.form.confirmPassword)
  {
    var f := s.form;
    var f' := match field
      case Email => f.(email := value)
      case Password => f.(password := value)
      case FirstName => f.(firstName := value)
      case LastName => f.(lastName := value)
      case ConfirmPassword => f.(confirmPassword := value);
    s.(form := f')
  }

  /** The mode link, followed by the effect that runs when `isLogin`
      changes: the other mode, with both messages cleared. */
  function ToggleMode(s: AuthState): (r: AuthState)
    ensures r.isLogin == !s.isLogin
    ensures r.error == "" && r.success == ""
    ensures r.loading == s.loading && r.form == s.form
  {
    s.(isLogin := !s.isLogin, error := "", success := "")
  }

  /** Everything one submit produces: the state while the call is pending,
      the state after it, the calls made and where the app navigates. */
  datatype Run = Run(pending: AuthState, after: AuthState, calls: seq<AuthCall>, navigateTo: Option<string>)

  /** handleSubmit. Both messages are cleared and loading starts; in login
      mode the credentials go straight to `login`; in register mode the
      passwords must agree before `signup` is called with the display name.
      A failure shows its message (or the fallback), a success its own text
      and navigates to the dashboard; loading ends either way. */
  function HandleSubmit(s: AuthState, reply: Reply): (run: Run)
    ensures run.pending == s.(loading := true, error := "", success := "")
    ensures !run.after.loading && run.after.form == s.form && run.after.isLogin == s.isLogin
    ensures s.isLogin ==> run.calls == [Login(s.form.email, s.form.password)]
    ensures !s.isLogin && s.form.password != s.form.confirmPassword ==>
      run.calls == [] && run.after.error == MismatchText && run.after.success == ""
    ensures !s.isLogin && s.form.password == s.form.confirmPassword ==>
      run.calls == [Signup(s.form.email, s.form.password, DisplayName(s.form.firstName, s.form.lastName))]
    ensures run.navigateTo.Some? <==> run.calls != [] && reply == Done
    ensures run.navigateTo.Some? ==>
      && run.navigateTo.value == Dashboard && run.after.error == ""
      && run.after.success == (if s.isLogin then "Login successful!" else "Account created successfully!")
    ensures run.calls != [] && reply.Failed? ==>
      run.after.error == ErrorText(reply.message, SubmitFallback) && run.after.success == ""
    ensures (run.after.error == "") != (run.after.success == "")
  {
    var pending := s.(loading := true, error := "", success := "");
    if !s.isLogin && s.form.password != s.form.confirmPassword then
      Run(pending, pending.(loading := false, error := MismatchText), [], None)
    else
      var call := if s.isLogin then Login(s.form.email, s.form.password)
                  else Signup(s.form.email, s.form.password, DisplayName(s.form.firstName, s.form.lastName));
      match reply
      case Done =>
        var text := if s.isLogin then "Login successful!" else "Account created successfully!";
        Run(pending, pending.(loading := false, success := text), [call], Some(Dashboard))
      case Failed(m) =>
        Run(pending, pending.(loading := false, error := ErrorText(m, SubmitFallback)), [call], None)
  }

  /** The Google button: the same shape as a submit, with one call and its
      own texts. */
  function HandleGoogle(s: AuthState, reply: Reply): (run: Run)
    ensures run.pending == s.(loading := true, error := "", success := "")
    ensures run.calls == [GoogleSignIn]
    ensures !run.after.loading && run.after.form == s.form && run.after.isLogin == s.isLogin
    ensures run.navigateTo.Some? <==> reply == Done
    ensures reply == Done ==>
      run.navigateTo == Some(Dashboard) && run.after.success == "Google sign-in successful!" && run.after.error == ""
    ensures reply.Failed? ==> run.after.error == ErrorText(reply.message, GoogleFallback) && run.after.success == ""
  {
    var pending := s.(loading := true, error := "", success := "");
    match reply
    case Done => Run(pending, pending.(loading := false, success := "Google sign-in successful!"), [GoogleSignIn], Some(Dashboard))
    case Failed(m) => Run(pending, pending.(loading := false, error := ErrorText(m, GoogleFallback)), [GoogleSignIn], None)
  }
}
