/** The sign-in page (app/auth/signin/page.tsx): the guards of the submit handler in front of
    `login`, and where the page sends a visitor who is already signed in. */
module SignIn {
  import opened Wrappers
  import opened Session
  import Dashboard
  import ProfileSetup

  /** The controlled inputs of the form. */
  datatype SignInForm = SignInForm(email: string, username: string, password: string, confirmPassword: string)

  /** The form as first shown and after a successful submit. */
  const EMPTY_FORM: SignInForm := SignInForm("", "", "", "")

  const MISSING_FIELDS: string := "Please enter both an email and a password."
  const PASSWORD_MISMATCH: string := "Passwords do not match. Try again."

  /** What a submit leaves behind: the session, the form, the message shown under it and whether
      `login` was called. */
  datatype Submitted = Submitted(session: SessionState, form: SignInForm, error: Option<string>, calledLogin: bool)

  /** `handleSubmit`: an empty email or password, or (when signing up) a confirmation that
      differs from the password, shows a message and leaves everything else as it was;
      otherwise `login` runs with a profile setup required exactly when signing up, and the
      form is cleared. A message thrown by `login` would be shown instead. */
  function HandleSubmit(s: SessionState, hasWindow: bool, isSignIn: bool, form: SignInForm): (r: Submitted)
    ensures r.calledLogin <==> form.email != "" && form.password != "" && (isSignIn || form.password == form.confirmPassword)
    ensures (form.email == "" || form.password == "") ==> r == Submitted(s, form, Some(MISSING_FIELDS), false)
    ensures form.email != "" && form.password != "" && !isSignIn && form.password != form.confirmPassword ==>
      r == Submitted(s, form, Some(PASSWORD_MISMATCH), false)
    ensures r.calledLogin ==>
      var login := LoginState(s, hasWindow, form.email, form.password, !isSignIn);
      && login.Ok?
      && r == Submitted(login.value, EMPTY_FORM, None, true)
  {
    if form.email == "" || form.password == "" then
      Submitted(s, form, Some(MISSING_FIELDS), false)
    else if !isSignIn && form.password != form.confirmPassword then
      Submitted(s, form, Some(PASSWORD_MISMATCH), false)
    else
      match LoginState(s, hasWindow, form.email, form.password, !isSignIn)
      case Ok(next) => Submitted(next, EMPTY_FORM, None, true)
      case Err(message) => Submitted(s, form, Some(message), true)
  }

  /** A submit that reaches `login` signs the user in under the entered email; a sign-up always
      lands without a profile, so the page goes on to the profile setup. */
  lemma SubmitSignsIn(s: SessionState, hasWindow: bool, isSignIn: bool, form: SignInForm)
    requires HandleSubmit(s, hasWindow, isSignIn, form).calledLogin
    ensures var u := HandleSubmit(s, hasWindow, isSignIn, form).session.user;
      && u.Some? && u.value.email == form.email
      && (!isSignIn ==> !u.value.hasProfile && SignInRedirect(u) == Some("/auth/profile-setup"))
  {
  }

  /** Where the page sends a signed-in visitor: to the dashboard with a profile, else to the
      profile setup; a signed-out visitor stays. */
  function SignInRedirect(user: Option<AuthUser>): (route: Option<string>)
    ensures route.None? <==> user.None?
    ensures user.Some? ==> route == Some(if user.value.hasProfile then "/dashboard" else "/auth/profile-setup")
  {
    match user
    case None => None
    case Some(u) => if u.hasProfile then Some("/dashboard") else Some("/auth/profile-setup")
  }

  /** Following the redirects of the sign-in page, the dashboard (not logging out) and the
      profile setup always ends on a page that keeps the visitor: no redirect loop. */
  lemma RedirectsSettle(user: Option<AuthUser>)
    ensures match SignInRedirect(user)
      case None => true
      case Some(route) =>
        (route == "/dashboard" ==> Dashboard.DashboardRedirect(user, false).None?)
        && (route == "/auth/profile-setup" ==> ProfileSetup.SetupRedirect(user).None?)
    ensures match Dashboard.DashboardRedirect(user, false)
      case None => true
      case Some(route) =>
        (route == "/auth/signin" ==> SignInRedirect(user).None?)
        && (route == "/auth/profile-setup" ==> ProfileSetup.SetupRedirect(user).None?)
    ensures match ProfileSetup.SetupRedirect(user)
      case None => true
      case Some(route) =>
        (route == "/auth/signin" ==> SignInRedirect(user).None?)
        && (route == "/dashboard" ==> Dashboard.DashboardRedirect(user, false).None?)
  {
  }
}
