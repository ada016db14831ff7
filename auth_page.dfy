/** Sign-in, registration and sign-out in the plain-JavaScript client
    (public/js/auth.js): which sections are visible, the field checks made
    before Firebase Auth is called, and which form fields are cleared.

    Each Firebase Auth call is replaced by the reply it gives (`Reply`), and
    each method reports whether it made the call. */
module AuthPage {
  import opened Wrappers
  import opened JsValues
  import Dashboard

  /** The content of the auth-status element; `None` when cleared. */
  datatype Status = Status(message: string, isError: bool)

  /** The signed-in user as the page sees it. */
  datatype SessionUser = SessionUser(email: Option<string>)

  /** The settled outcome of an awaited Firebase Auth call. */
  datatype Reply = Done | Failed(message: string)

  /** Which of the elements `updateUI` looks up are present in the document. */
  datatype Elements = Elements(
    loginForm: bool, registerForm: bool, userSection: bool,
    dashboardSection: bool, chatSection: bool, userEmail: bool)

  /** The five sections `updateUI` cannot do without. */
  predicate Required(e: Elements) {
    e.loginForm && e.registerForm && e.userSection && e.dashboardSection && e.chatSection
  }

  const NotInitialized := "Firebase not initialized properly"

  /** What calling one of the `window` accessors set up by the page's Firebase
      start-up script does: it is a function returning an instance (truthy)
      or a falsy value, or it is not a function and the call throws a
      TypeError. */
  datatype Accessor = Returns(instance: bool) | NotCallable

  /** The error thrown at the head of a `try` block that calls the given
      accessors and then throws `NotInitialized` unless all of them returned
      an instance; `None` when none is thrown. */
  function SetupError(accessors: seq<Accessor>): (e: Option<string>)
    ensures e.None? <==> forall i :: 0 <= i < |accessors| ==> accessors[i] == Returns(true)
    ensures e == Some(TypeErrorText) <==> NotCallable in accessors
    ensures e == Some(NotInitialized) <==> NotCallable !in accessors && Returns(false) in accessors
  {
    if NotCallable in accessors then Some(TypeErrorText)
    else if Returns(false) in accessors then Some(NotInitialized)
    else
      assert forall i :: 0 <= i < |accessors| ==> accessors[i] == Returns(true) by {
        forall i | 0 <= i < |accessors|
          ensures accessors[i] == Returns(true)
        {
          assert accessors[i] in accessors;
          if accessors[i].Returns? {
            assert accessors[i] != Returns(false);
          }
        }
      }
      None
  }

  class AuthPage {
    const elements: Elements
    const workspace: Dashboard.Workspace
    /** `window.firebaseAuth`. */
    const firebaseAuth: Accessor
    /** `window.googleAuthProvider`. */
    const googleAuthProvider: Accessor

    var loginFormShown: bool
    var registerFormShown: bool
    var userSectionHidden: bool
    var userEmailText: string
    var status: Option<Status>

    var loginEmail: string
    var loginPassword: string
    var registerName: string
    var registerSurname: string
    var registerEmail: string
    var registerPassword: string
    var confirmPassword: string

    constructor (elements: Elements, workspace: Dashboard.Workspace, firebaseAuth: Accessor, googleAuthProvider: Accessor)
      ensures this.elements == elements && this.workspace == workspace
      ensures this.firebaseAuth == firebaseAuth && this.googleAuthProvider == googleAuthProvider
      ensures loginFormShown && !registerFormShown && userSectionHidden && status == None
      ensures AllFieldsEmpty()
    {
      this.elements, this.workspace := elements, workspace;
      this.firebaseAuth, this.googleAuthProvider := firebaseAuth, googleAuthProvider;
      loginFormShown, registerFormShown, userSectionHidden := true, false, true;
      userEmailText, status := "", None;
      loginEmail, loginPassword := "", "";
      registerName, registerSurname, registerEmail, registerPassword, confirmPassword := "", "", "", "", "";
    }

    predicate RegisterFieldsEmpty()
      reads this
    {
      registerName == "" && registerSurname == "" && registerEmail == "" &&
      registerPassword == "" && confirmPassword == ""
    }

    predicate AllFieldsEmpty()
      reads this
    {
      loginEmail == "" && loginPassword == "" && RegisterFieldsEmpty()
    }

    /** updateUI: nothing happens unless all five sections exist. With a user,
        both forms are hidden, the user and dashboard sections shown, the
        composer hidden and a sign-in activity recorded; without one, only the
        login form is shown. */
    method UpdateUI(user: Option<SessionUser>, now: string)
      modifies this`loginFormShown, this`registerFormShown, this`userSectionHidden, this`userEmailText,
        workspace`dashboardHidden, workspace`chatHidden, workspace`lastLogin, workspace`activities
      ensures !Required(elements) ==>
        && loginFormShown == old(loginFormShown) && registerFormShown == old(registerFormShown)
        && userSectionHidden == old(userSectionHidden) && userEmailText == old(userEmailText)
        && workspace.dashboardHidden == old(workspace.dashboardHidden) && workspace.chatHidden == old(workspace.chatHidden)
        && workspace.lastLogin == old(workspace.lastLogin) && workspace.activities == old(workspace.activities)
      ensures Required(elements) && user.Some? ==>
        && !loginFormShown && !registerFormShown && !userSectionHidden
        && !workspace.dashboardHidden && workspace.chatHidden
        && userEmailText == (if elements.userEmail then user.value.email.GetOr("") else old(userEmailText))
        && workspace.lastLogin == now
        && workspace.activities == Dashboard.Recent([Dashboard.LoginActivity] + old(workspace.activities))
      ensures Required(elements) && user.None? ==>
        && loginFormShown && !registerFormShown && userSectionHidden
        && workspace.dashboardHidden && workspace.chatHidden
        && userEmailText == old(userEmailText)
        && workspace.lastLogin == old(workspace.lastLogin) && workspace.activities == old(workspace.activities)
    {
      if !Required(elements) {
        return;
      }
      if user.Some? {
        loginFormShown := false;
        registerFormShown := false;
        userSectionHidden := false;
        workspace.dashboardHidden := false;
        workspace.chatHidden := true;
        if elements.userEmail {
          userEmailText := user.value.email.GetOr("");
        }
        workspace.UpdateDashboardInfo(now);
      } else {
        loginFormShown := true;
        registerFormShown := false;
        userSectionHidden := true;
        workspace.dashboardHidden := true;
        workspace.chatHidden := true;
      }
    }

    /** showRegister: only the registration form is visible. */
    method ShowRegister()
      modifies this`loginFormShown, this`registerFormShown, this`status
      ensures !loginFormShown && registerFormShown && status == None
    {
      loginFormShown := false;
      registerFormShown := true;
      status := None;
    }

    /** showLogin: only the login form is visible. */
    method ShowLogin()
      modifies this`loginFormShown, this`registerFormShown, this`status
      ensures loginFormShown && !registerFormShown && status == None
    {
      loginFormShown := true;
      registerFormShown := false;
      status := None;
    }

    /** signInWithGoogle: when both accessors return an instance, a redirect
        notice is shown and the redirect is started; if that fails, or an
        accessor throws or returns nothing, the failure is reported instead. */
    method SignInWithGoogle(redirect: Reply) returns (attempted: bool)
      modifies this`status
      ensures attempted <==> firebaseAuth == Returns(true) && googleAuthProvider == Returns(true)
      ensures attempted <==> SetupError([firebaseAuth, googleAuthProvider]).None?
      ensures !attempted ==>
        status == Some(Status("Google sign-in failed: " + SetupError([firebaseAuth, googleAuthProvider]).value, true))
      ensures attempted && redirect == Done ==> status == Some(Status("Redirecting to Google sign-in...", false))
      ensures attempted && redirect.Failed? ==> status == Some(Status("Google sign-in failed: " + redirect.message, true))
    {
      var thrown := SetupError([firebaseAuth, googleAuthProvider]);
      if thrown.Some? {
        status := Some(Status("Google sign-in failed: " + thrown.value, true));
        return false;
      }
      status := Some(Status("Redirecting to Google sign-in...", false));
      attempted := true;
      if redirect.Failed? {
        status := Some(Status("Google sign-in failed: " + redirect.message, true));
      }
    }

    /** loginUser: an empty email or password is reported and sign-in is not
        attempted; after a successful sign-in both fields are cleared. */
    method LoginUser(signIn: Reply) returns (attempted: bool)
      modifies this`status, this`loginEmail, this`loginPassword
      ensures attempted <==> old(loginEmail) != "" && old(loginPassword) != "" && firebaseAuth == Returns(true)
      ensures (old(loginEmail) == "" || old(loginPassword) == "") ==>
        status == Some(Status("Please fill in all fields", true))
      ensures old(loginEmail) != "" && old(loginPassword) != "" && SetupError([firebaseAuth]).Some? ==>
        status == Some(Status("Login failed: " + SetupError([firebaseAuth]).value, true))
      ensures attempted && signIn == Done ==>
        status == Some(Status("Login successful!", false)) && loginEmail == "" && loginPassword == ""
      ensures attempted && signIn.Failed? ==> status == Some(Status("Login failed: " + signIn.message, true))
      ensures !(attempted && signIn == Done) ==> loginEmail == old(loginEmail) && loginPassword == old(loginPassword)
      ensures status.Some? && (status.value.isError <==> !(attempted && signIn == Done))
    {
      if loginEmail == "" || loginPassword == "" {
        status := Some(Status("Please fill in all fields", true));
        return false;
      }
      var thrown := SetupError([firebaseAuth]);
      if thrown.Some? {
        status := Some(Status("Login failed: " + thrown.value, true));
        return false;
      }
      attempted := true;
      match signIn
      case Done =>
        status := Some(Status("Login successful!", false));
        loginEmail := "";
        loginPassword := "";
      case Failed(m) =>
        status := Some(Status("Login failed: " + m, true));
    }

    /** registerUser: all five fields filled, then the passwords equal, then a
        password of at least six characters; only then is the account created
        and named "name surname". The fields are cleared only when both calls
        succeed. Returns whether the account creation was attempted and the
        display name given to the new account, if it got that far. */
    method RegisterUser(create: Reply, setName: Reply) returns (attempted: bool, displayName: Option<string>)
      modifies this`status, this`registerName, this`registerSurname, this`registerEmail,
        this`registerPassword, this`confirmPassword
      ensures attempted <==>
        && old(registerName) != "" && old(registerSurname) != "" && old(registerEmail) != ""
        && old(registerPassword) != "" && old(confirmPassword) != ""
        && old(registerPassword) == old(confirmPassword)
        && |old(registerPassword)| >= 6
        && firebaseAuth == Returns(true)
      ensures !old(registerName != "" && registerSurname != "" && registerEmail != "" && registerPassword != "" && confirmPassword != "") ==>
        status == Some(Status("Please fill in all fields", true))
      ensures (old(registerName != "" && registerSurname != "" && registerEmail != "" && registerPassword != "" && confirmPassword != "")
               && old(registerPassword) != old(confirmPassword)) ==>
        status == Some(Status("Passwords do not match", true))
      ensures (old(registerName != "" && registerSurname != "" && registerEmail != "" && registerPassword != "" && confirmPassword != "")
               && old(registerPassword) == old(confirmPassword) && |old(registerPassword)| < 6) ==>
        status == Some(Status("Password must be at least 6 characters", true))
      ensures (old(registerName != "" && registerSurname != "" && registerEmail != "" && registerPassword != "" && confirmPassword != "")
               && old(registerPassword) == old(confirmPassword) && |old(registerPassword)| >= 6
               && SetupError([firebaseAuth]).Some?) ==>
        status == Some(Status("Registration failed: " + SetupError([firebaseAuth]).value, true))
      ensures attempted && create.Failed? ==> status == Some(Status("Registration failed: " + create.message, true))
      ensures attempted && create == Done && setName.Failed? ==>
        status == Some(Status("Registration failed: " + setName.message, true))
      ensures displayName.Some? <==> attempted && create == Done
      ensures displayName.Some? ==> displayName.value == old(registerName) + " " + old(registerSurname)
      ensures attempted && create == Done && setName == Done ==>
        status == Some(Status("Account created successfully!", false)) && RegisterFieldsEmpty()
      ensures !(attempted && create == Done && setName == Done) ==>
        && registerName == old(registerName) && registerSurname == old(registerSurname)
        && registerEmail == old(registerEmail) && registerPassword == old(registerPassword)
        && confirmPassword == old(confirmPassword)
    {
      displayName := None;
      if registerName == "" || registerSurname == "" || registerEmail == "" || registerPassword == "" || confirmPassword == "" {
        status := Some(Status("Please fill in all fields", true));
        return false, None;
      }
      if registerPassword != confirmPassword {
        status := Some(Status("Passwords do not match", true));
        return false, None;
      }
      if |registerPassword| < 6 {
        status := Some(Status("Password must be at least 6 characters", true));
        return false, None;
      }
      var thrown := SetupError([firebaseAuth]);
      if thrown.Some? {
        status := Some(Status("Registration failed: " + thrown.value, true));
        return false, None;
      }
      attempted := true;
      if create.Failed? {
        status := Some(Status("Registration failed: " + create.message, true));
        return;
      }
      displayName := Some(registerName + " " + registerSurname);
      if setName.Failed? {
        status := Some(Status("Registration failed: " + setName.message, true));
        return;
      }
      status := Some(Status("Account created successfully!", false));
      registerName := "";
      registerSurname := "";
      registerEmail := "";
      registerPassword := "";
      confirmPassword := "";
    }

    /** logout: after a successful sign-out all seven form fields are empty. */
    method Logout(signOut: Reply) returns (attempted: bool)
      modifies this`status, this`loginEmail, this`loginPassword, this`registerName, this`registerSurname,
        this`registerEmail, this`registerPassword, this`confirmPassword
      ensures attempted <==> firebaseAuth == Returns(true)
      ensures SetupError([firebaseAuth]).Some? ==>
        !attempted && status == Some(Status("Logout failed: " + SetupError([firebaseAuth]).value, true))
      ensures attempted && signOut == Done ==>
        AllFieldsEmpty() && status == Some(Status("Logged out successfully", false))
      ensures attempted && signOut.Failed? ==> status == Some(Status("Logout failed: " + signOut.message, true))
      ensures !(attempted && signOut == Done) ==>
        && loginEmail == old(loginEmail) && loginPassword == old(loginPassword)
        && registerName == old(registerName) && registerSurname == old(registerSurname)
        && registerEmail == old(registerEmail) && registerPassword == old(registerPassword)
        && confirmPassword == old(confirmPassword)
    {
      var thrown := SetupError([firebaseAuth]);
      if thrown.Some? {
        status := Some(Status("Logout failed: " + thrown.value, true));
        return false;
      }
      attempted := true;
      if signOut.Failed? {
        status := Some(Status("Logout failed: " + signOut.message, true));
        return;
      }
      status := Some(Status("Logged out successfully", false));
      loginEmail, loginPassword := "", "";
      registerName, registerSurname, registerEmail, registerPassword, confirmPassword := "", "", "", "", "";
    }
  }
}
