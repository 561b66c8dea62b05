/** The sign-in screen (Views/LoginView.swift): the checks `handleLogin`
    makes on the typed email and password before it asks the session to
    sign in, and the alert it raises. */
module LoginForm {
  import opened Common
  import L = Localizable
  import opened EmailPattern
  import opened Authentication

  /** The message key of the first check the form fails, or `None` when the
      credentials may be sent: both fields filled in, the email of the
      accepted format, the password at least six characters long. */
  function LoginCheck(email: string, password: string): (r: Option<L.LocalizedStringKey>)
    ensures r.None? ==> MatchesPattern(email) && |password| >= 6
    ensures r == Some(L.EmptyFields) <==> email == [] || password == []
    ensures r == Some(L.InvalidEmail) <==> email != [] && password != [] && !MatchesPattern(email)
    ensures r == Some(L.InvalidPassword) <==> password != [] && MatchesPattern(email) && |password| < 6
    ensures r.Some? ==> r.value in {L.EmptyFields, L.InvalidEmail, L.InvalidPassword}
  {
    if email == [] || password == [] then Some(L.EmptyFields)
    else if !IsValidEmail(email) then Some(L.InvalidEmail)
    else if |password| < 6 then Some(L.InvalidPassword)
    else None
  }

  /** The state `LoginView` keeps: what is typed, the alert, and the
      progress flag. */
  class LoginScreen {
    var email: string
    var password: string
    var showingAlert: bool
    var alertMessage: string
    var isLoading: bool
    const auth: AuthenticationModel
    const languages: L.LanguageManager

    constructor(auth: AuthenticationModel, languages: L.LanguageManager)
      ensures this.auth == auth && this.languages == languages
      ensures email == "" && password == "" && alertMessage == ""
      ensures !showingAlert && !isLoading
    {
      this.auth := auth;
      this.languages := languages;
      email := "";
      password := "";
      showingAlert := false;
      alertMessage := "";
      isLoading := false;
    }

    /** `handleLogin`. A failed check shows its message in the current
      language and nothing else happens; otherwise the credentials are sent
      as `SubmitLogin` describes. */
    method HandleLogin(freshId: string)
      modifies this, auth
      ensures email == old(email) && password == old(password)
      ensures LoginCheck(email, password).Some? ==>
        showingAlert && alertMessage == L.Localized(LoginCheck(email, password).value, languages.currentLanguage)
      ensures LoginCheck(email, password).Some? ==>
        isLoading == old(isLoading) && auth.isAuthenticated == old(auth.isAuthenticated) &&
        auth.currentUser == old(auth.currentUser)
      ensures LoginCheck(email, password).None? ==> !isLoading
      ensures LoginCheck(email, password).None? && LoginError(auth.store.users, email, password).Some? ==>
        showingAlert && alertMessage == "Error al iniciar sesión: " + Description(InvalidCredentials) &&
        auth.isAuthenticated == old(auth.isAuthenticated) && auth.currentUser == old(auth.currentUser)
      ensures LoginCheck(email, password).None? && LoginError(auth.store.users, email, password).None? ==>
        auth.isAuthenticated && auth.currentUser == Some(SessionUser(auth.store.FetchUser(email).value, freshId)) &&
        showingAlert == old(showingAlert) && alertMessage == old(alertMessage)
    {
      var check := LoginCheck(email, password);
      if check.Some? {
        alertMessage := L.Localized(check.value, languages.currentLanguage);
        showingAlert := true;
        return;
      }
      SubmitLogin(freshId);
    }

    /** The task `handleLogin` starts once the checks pass: the session is
      asked to sign in, a refusal is shown after "Error al iniciar sesión: ",
      and the progress flag ends cleared. The task is modelled as finished
      when the method returns. */
    method SubmitLogin(freshId: string)
      modifies this, auth
      ensures email == old(email) && password == old(password)
      ensures !isLoading
      ensures LoginError(auth.store.users, email, password).Some? ==>
        showingAlert && alertMessage == "Error al iniciar sesión: " + Description(InvalidCredentials) &&
        auth.isAuthenticated == old(auth.isAuthenticated) && auth.currentUser == old(auth.currentUser)
      ensures LoginError(auth.store.users, email, password).None? ==>
        auth.isAuthenticated && auth.currentUser == Some(SessionUser(auth.store.FetchUser(email).value, freshId)) &&
        showingAlert == old(showingAlert) && alertMessage == old(alertMessage)
    {
      isLoading := true;
      var err := auth.Login(email, password, freshId);
      if err.Some? {
        alertMessage := "Error al iniciar sesión: " + Description(err.value);
        showingAlert := true;
      }
      isLoading := false;
    }
  }
}
