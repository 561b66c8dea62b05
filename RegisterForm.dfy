/** The registration screen (Views/RegisterView.swift): the checks
    `handleRegister` makes, in order, before it asks the session to create
    the account, and what it does with the answer. */
module RegisterForm {
  import opened Common
  import L = Localizable
  import opened BusinessModel
  import opened Persistence
  import opened EmailPattern
  import opened Authentication

  /** The message key of the first check the form fails, or `None` when the
      account may be created. The checks run in this order: a name, an
      email, the accepted email format, a password of at least six
      characters, and the confirmation equal to the password. */
  function RegisterCheck(fullName: string, email: string, password: string, confirm: string)
    : (r: Option<L.LocalizedStringKey>)
    ensures r.None? ==>
      fullName != [] && MatchesPattern(email) && |password| >= 6 && password == confirm
    ensures r == Some(L.EmptyName) <==> fullName == []
    ensures r == Some(L.EmptyFields) <==> fullName != [] && email == []
    ensures r == Some(L.InvalidEmail) <==> fullName != [] && email != [] && !MatchesPattern(email)
    ensures r == Some(L.InvalidPassword) <==> fullName != [] && MatchesPattern(email) && |password| < 6
    ensures r == Some(L.PasswordsDoNotMatch) <==>
      fullName != [] && MatchesPattern(email) && |password| >= 6 && password != confirm
  {
    if fullName == [] then Some(L.EmptyName)
    else if email == [] then Some(L.EmptyFields)
    else if !IsValidEmail(email) then Some(L.InvalidEmail)
    else if |password| < 6 then Some(L.InvalidPassword)
    else if password != confirm then Some(L.PasswordsDoNotMatch)
    else None
  }

  /** The user row a successful registration appends. */
  function NewUserRow(email: string, password: string, fullName: string, newId: string, now: Date): UserEntity {
    UserEntity(Some(newId), Some(Lower(email)), Some(password), Some(fullName), Some(now))
  }

  /** The state `RegisterView` keeps: what is typed, the alert, the
      progress flag, and whether the screen has dismissed itself. */
  class RegisterScreen {
    var fullName: string
    var email: string
    var password: string
    var confirmPassword: string
    var showingAlert: bool
    var alertMessage: string
    var isLoading: bool
    var dismissed: bool
    const auth: AuthenticationModel
    const languages: L.LanguageManager

    constructor(auth: AuthenticationModel, languages: L.LanguageManager)
      ensures this.auth == auth && this.languages == languages
      ensures fullName == "" && email == "" && password == "" && confirmPassword == ""
      ensures alertMessage == "" && !showingAlert && !isLoading && !dismissed
    {
      this.auth := auth;
      this.languages := languages;
      fullName := "";
      email := "";
      password := "";
      confirmPassword := "";
      showingAlert := false;
      alertMessage := "";
      isLoading := false;
      dismissed := false;
    }

    /** `handleRegister`. A failed check shows its message in the current
      language and changes nothing else; otherwise the account is requested
      as `SubmitRegistration` describes. */
    method HandleRegister(newId: string, now: Date, freshId: string)
      requires auth.store.Valid()
      modifies this, auth, auth.store
      ensures auth.store.Valid() && auth.store.businesses == old(auth.store.businesses)
      ensures fullName == old(fullName) && email == old(email)
      ensures password == old(password) && confirmPassword == old(confirmPassword)
      ensures RegisterCheck(fullName, email, password, confirmPassword).Some? ==>
        showingAlert && dismissed == old(dismissed) &&
        alertMessage == L.Localized(RegisterCheck(fullName, email, password, confirmPassword).value, languages.currentLanguage)
      ensures RegisterCheck(fullName, email, password, confirmPassword).Some? ==>
        isLoading == old(isLoading) && auth.store.users == old(auth.store.users) &&
        auth.isAuthenticated == old(auth.isAuthenticated) && auth.currentUser == old(auth.currentUser)
      ensures RegisterCheck(fullName, email, password, confirmPassword).None? ==> !isLoading
      ensures RegisterCheck(fullName, email, password, confirmPassword).None? &&
              old(auth.store.FetchUser(email)).Some? ==>
        showingAlert && alertMessage == Description(UserAlreadyExists) && dismissed == old(dismissed) &&
        auth.store.users == old(auth.store.users) &&
        auth.isAuthenticated == old(auth.isAuthenticated) && auth.currentUser == old(auth.currentUser)
      ensures RegisterCheck(fullName, email, password, confirmPassword).None? &&
              old(auth.store.FetchUser(email)).None? ==>
        dismissed && auth.isAuthenticated && auth.currentUser == Some(User(newId, Lower(email), fullName)) &&
        auth.store.users == old(auth.store.users) + [NewUserRow(email, password, fullName, newId, now)]
    {
      var check := RegisterCheck(fullName, email, password, confirmPassword);
      if check.Some? {
        alertMessage := L.Localized(check.value, languages.currentLanguage);
        showingAlert := true;
        return;
      }
      SubmitRegistration(newId, now, freshId);
    }

    /** The task `handleRegister` starts once the checks pass: the account is
      requested; success dismisses the screen and an error is shown by its
      message; the progress flag ends cleared. The task is modelled as
      finished when the method returns. */
    method SubmitRegistration(newId: string, now: Date, freshId: string)
      requires auth.store.Valid()
      modifies this, auth, auth.store
      ensures auth.store.Valid() && auth.store.businesses == old(auth.store.businesses)
      ensures fullName == old(fullName) && email == old(email)
      ensures password == old(password) && confirmPassword == old(confirmPassword)
      ensures !isLoading
      ensures old(auth.store.FetchUser(email)).Some? ==>
        showingAlert && alertMessage == Description(UserAlreadyExists) && dismissed == old(dismissed) &&
        auth.store.users == old(auth.store.users) &&
        auth.isAuthenticated == old(auth.isAuthenticated) && auth.currentUser == old(auth.currentUser)
      ensures old(auth.store.FetchUser(email)).None? ==>
        dismissed && auth.isAuthenticated && auth.currentUser == Some(User(newId, Lower(email), fullName)) &&
        auth.store.users == old(auth.store.users) + [NewUserRow(email, password, fullName, newId, now)]
    {
      isLoading := true;
      var err := auth.Register(email, password, fullName, newId, now, freshId);
      if err.None? {
        dismissed := true;
      } else {
        alertMessage := Description(err.value);
        showingAlert := true;
      }
      isLoading := false;
    }
  }
}
