/** The two-language string table of the app (Localizable.swift): the
    languages, the message keys with their raw values, the translation of
    every key, and the object that holds the language currently shown. */
module Localizable {
  import opened Common

  datatype Language = English | Spanish

  /** `Language.identifier`: the locale code of a language. */
  function Identifier(lang: Language): (id: string)
    ensures |id| == 2
    ensures id == "en" <==> lang == English
    ensures id == "es" <==> lang == Spanish
  {
    match lang
    case English => "en"
    case Spanish => "es"
  }

  /** The language the other one switches to. */
  function Toggled(lang: Language): (r: Language)
    ensures r != lang
  {
    if lang == Spanish then English else Spanish
  }

  lemma ToggledTwice(lang: Language)
    ensures Toggled(Toggled(lang)) == lang
  {
  }

  /** `LocalizedStringKey`: every message the interface shows. */
  datatype LocalizedStringKey =
    | AppTitle
    | AppSubtitle
    | EmailLabel
    | EmailPlaceholder
    | PasswordLabel
    | PasswordPlaceholder
    | LoginButton
    | ForgotPassword
    | NoAccount
    | Register
    | RegisterTitle
    | RegisterSubtitle
    | FullNameLabel
    | FullNamePlaceholder
    | ConfirmPasswordLabel
    | ConfirmPasswordPlaceholder
    | RegisterButton
    | BackToLogin
    | ExploreTab
    | MyBusinessTab
    | SearchPlaceholder
    | NearbyBusinesses
    | AddBusiness
    | NoBusinessesFound
    | Distance
    | Categories
    | Logout
    | SettingsTitle
    | LanguageSection
    | LanguageLabel
    | AccountSection
    | LogoutButton
    | AboutSection
    | VersionLabel
    | PrivacyPolicy
    | TermsOfService
    | Food
    | Retail
    | Services
    | Entertainment
    | Other
    | ErrorTitle
    | EmptyFields
    | InvalidEmail
    | InvalidPassword
    | EmptyName
    | PasswordsDoNotMatch

  /** The raw value (`rawValue`) of each key. */
  function RawValue(k: LocalizedStringKey): string {
    match k
    case AppTitle => "app_title"
    case AppSubtitle => "app_subtitle"
    case EmailLabel => "email_label"
    case EmailPlaceholder => "email_placeholder"
    case PasswordLabel => "password_label"
    case PasswordPlaceholder => "password_placeholder"
    case LoginButton => "login_button"
    case ForgotPassword => "forgot_password"
    case NoAccount => "no_account"
    case Register => "register"
    case RegisterTitle => "register_title"
    case RegisterSubtitle => "register_subtitle"
    case FullNameLabel => "full_name_label"
    case FullNamePlaceholder => "full_name_placeholder"
    case ConfirmPasswordLabel => "confirm_password_label"
    case ConfirmPasswordPlaceholder => "confirm_password_placeholder"
    case RegisterButton => "register_button"
    case BackToLogin => "back_to_login"
    case ExploreTab => "explore_tab"
    case MyBusinessTab => "my_business_tab"
    case SearchPlaceholder => "search_placeholder"
    case NearbyBusinesses => "nearby_businesses"
    case AddBusiness => "add_business"
    case NoBusinessesFound => "no_businesses_found"
    case Distance => "distance"
    case Categories => "categories"
    case Logout => "logout"
    case SettingsTitle => "settings_title"
    case LanguageSection => "language_section"
    case LanguageLabel => "language_label"
    case AccountSection => "account_section"
    case LogoutButton => "logout_button"
    case AboutSection => "about_section"
    case VersionLabel => "version_label"
    case PrivacyPolicy => "privacy_policy"
    case TermsOfService => "terms_of_service"
    case Food => "category_food"
    case Retail => "category_retail"
    case Services => "category_services"
    case Entertainment => "category_entertainment"
    case Other => "category_other"
    case ErrorTitle => "error_title"
    case EmptyFields => "empty_fields"
    case InvalidEmail => "invalid_email"
    case InvalidPassword => "invalid_password"
    case EmptyName => "empty_name"
    case PasswordsDoNotMatch => "passwords_do_not_match"
  }

  /** The failable initialiser `LocalizedStringKey(rawValue:)` that Swift
      synthesises for an enumeration with raw values; the candidates are
      narrowed by length before the strings are compared. */
  function FromRawValue(s: string): Option<LocalizedStringKey> {
    match |s|
    case 6 => if s == "logout" then Some(Logout) else None
    case 8 => if s == "register" then Some(Register) else if s == "distance" then Some(Distance) else None
    case 9 => if s == "app_title" then Some(AppTitle) else None
    case 10 => if s == "no_account" then Some(NoAccount) else if s == "categories" then Some(Categories) else if s == "empty_name" then Some(EmptyName) else None
    case 11 => if s == "email_label" then Some(EmailLabel) else if s == "explore_tab" then Some(ExploreTab) else if s == "error_title" then Some(ErrorTitle) else None
    case 12 => if s == "app_subtitle" then Some(AppSubtitle) else if s == "login_button" then Some(LoginButton) else if s == "add_business" then Some(AddBusiness) else if s == "empty_fields" then Some(EmptyFields) else None
    case 13 => if s == "back_to_login" then Some(BackToLogin) else if s == "logout_button" then Some(LogoutButton) else if s == "about_section" then Some(AboutSection) else if s == "version_label" then Some(VersionLabel) else if s == "category_food" then Some(Food) else if s == "invalid_email" then Some(InvalidEmail) else None
    case 14 => if s == "password_label" then Some(PasswordLabel) else if s == "register_title" then Some(RegisterTitle) else if s == "settings_title" then Some(SettingsTitle) else if s == "language_label" then Some(LanguageLabel) else if s == "privacy_policy" then Some(PrivacyPolicy) else if s == "category_other" then Some(Other) else None
    case 15 => if s == "forgot_password" then Some(ForgotPassword) else if s == "full_name_label" then Some(FullNameLabel) else if s == "register_button" then Some(RegisterButton) else if s == "my_business_tab" then Some(MyBusinessTab) else if s == "account_section" then Some(AccountSection) else if s == "category_retail" then Some(Retail) else None
    case 16 => if s == "language_section" then Some(LanguageSection) else if s == "terms_of_service" then Some(TermsOfService) else if s == "invalid_password" then Some(InvalidPassword) else None
    case 17 => if s == "email_placeholder" then Some(EmailPlaceholder) else if s == "register_subtitle" then Some(RegisterSubtitle) else if s == "nearby_businesses" then Some(NearbyBusinesses) else if s == "category_services" then Some(Services) else None
    case 18 => if s == "search_placeholder" then Some(SearchPlaceholder) else None
    case 19 => if s == "no_businesses_found" then Some(NoBusinessesFound) else None
    case 20 => if s == "password_placeholder" then Some(PasswordPlaceholder) else None
    case 21 => if s == "full_name_placeholder" then Some(FullNamePlaceholder) else None
    case 22 => if s == "confirm_password_label" then Some(ConfirmPasswordLabel) else if s == "category_entertainment" then Some(Entertainment) else if s == "passwords_do_not_match" then Some(PasswordsDoNotMatch) else None
    case 28 => if s == "confirm_password_placeholder" then Some(ConfirmPasswordPlaceholder) else None
    case _ => None
  }

  /** Raw values of the login screen decode to their keys (part 1 of 4). */
  lemma LoginKeysDecodeA()
    ensures FromRawValue("app_title") == Some(AppTitle)
    ensures FromRawValue("app_subtitle") == Some(AppSubtitle)
    ensures FromRawValue("email_label") == Some(EmailLabel)
  {
  }

  /** Raw values of the login screen decode to their keys (part 2 of 4). */
  lemma LoginKeysDecodeB()
    ensures FromRawValue("email_placeholder") == Some(EmailPlaceholder)
    ensures FromRawValue("password_label") == Some(PasswordLabel)
    ensures FromRawValue("password_placeholder") == Some(PasswordPlaceholder)
  {
  }

  /** Raw values of the login screen decode to their keys (part 3 of 4). */
  lemma LoginKeysDecodeC()
    ensures FromRawValue("login_button") == Some(LoginButton)
    ensures FromRawValue("forgot_password") == Some(ForgotPassword)
  {
  }

  /** Raw values of the login screen decode to their keys (part 4 of 4). */
  lemma LoginKeysDecodeD()
    ensures FromRawValue("no_account") == Some(NoAccount)
    ensures FromRawValue("register") == Some(Register)
  {
  }

  /** Raw values of the registration screen decode to their keys (part 1 of 3). */
  lemma RegisterKeysDecodeA()
    ensures FromRawValue("register_title") == Some(RegisterTitle)
    ensures FromRawValue("register_subtitle") == Some(RegisterSubtitle)
    ensures FromRawValue("full_name_label") == Some(FullNameLabel)
  {
  }

  /** Raw values of the registration screen decode to their keys (part 2 of 3). */
  lemma RegisterKeysDecodeB()
    ensures FromRawValue("full_name_placeholder") == Some(FullNamePlaceholder)
    ensures FromRawValue("confirm_password_label") == Some(ConfirmPasswordLabel)
    ensures FromRawValue("confirm_password_placeholder") == Some(ConfirmPasswordPlaceholder)
  {
  }

  /** Raw values of the registration screen decode to their keys (part 3 of 3). */
  lemma RegisterKeysDecodeC()
    ensures FromRawValue("register_button") == Some(RegisterButton)
    ensures FromRawValue("back_to_login") == Some(BackToLogin)
  {
  }

  /** Raw values of the main screen decode to their keys (part 1 of 3). */
  lemma MainKeysDecodeA()
    ensures FromRawValue("explore_tab") == Some(ExploreTab)
    ensures FromRawValue("my_business_tab") == Some(MyBusinessTab)
    ensures FromRawValue("search_placeholder") == Some(SearchPlaceholder)
  {
  }

  /** Raw values of the main screen decode to their keys (part 2 of 3). */
  lemma MainKeysDecodeB()
    ensures FromRawValue("nearby_businesses") == Some(NearbyBusinesses)
    ensures FromRawValue("add_business") == Some(AddBusiness)
    ensures FromRawValue("no_businesses_found") == Some(NoBusinessesFound)
  {
  }

  /** Raw values of the main screen decode to their keys (part 3 of 3). */
  lemma MainKeysDecodeC()
    ensures FromRawValue("distance") == Some(Distance)
    ensures FromRawValue("categories") == Some(Categories)
    ensures FromRawValue("logout") == Some(Logout)
  {
  }

  /** Raw values of the settings screen decode to their keys (part 1 of 3). */
  lemma SettingsKeysDecodeA()
    ensures FromRawValue("settings_title") == Some(SettingsTitle)
    ensures FromRawValue("language_section") == Some(LanguageSection)
    ensures FromRawValue("language_label") == Some(LanguageLabel)
  {
  }

  /** Raw values of the settings screen decode to their keys (part 2 of 3). */
  lemma SettingsKeysDecodeB()
    ensures FromRawValue("account_section") == Some(AccountSection)
    ensures FromRawValue("logout_button") == Some(LogoutButton)
    ensures FromRawValue("about_section") == Some(AboutSection)
  {
  }

  /** Raw values of the settings screen decode to their keys (part 3 of 3). */
  lemma SettingsKeysDecodeC()
    ensures FromRawValue("version_label") == Some(VersionLabel)
    ensures FromRawValue("privacy_policy") == Some(PrivacyPolicy)
    ensures FromRawValue("terms_of_service") == Some(TermsOfService)
  {
  }

  /** Raw values of the business categories decode to their keys (part 1 of 2). */
  lemma CategoryKeysDecodeA()
    ensures FromRawValue("category_food") == Some(Food)
    ensures FromRawValue("category_retail") == Some(Retail)
    ensures FromRawValue("category_services") == Some(Services)
  {
  }

  /** Raw values of the business categories decode to their keys (part 2 of 2). */
  lemma CategoryKeysDecodeB()
    ensures FromRawValue("category_entertainment") == Some(Entertainment)
    ensures FromRawValue("category_other") == Some(Other)
  {
  }

  /** Raw values of the validation messages decode to their keys (part 1 of 2). */
  lemma ValidationKeysDecodeA()
    ensures FromRawValue("error_title") == Some(ErrorTitle)
    ensures FromRawValue("empty_fields") == Some(EmptyFields)
    ensures FromRawValue("invalid_email") == Some(InvalidEmail)
  {
  }

  /** Raw values of the validation messages decode to their keys (part 2 of 2). */
  lemma ValidationKeysDecodeB()
    ensures FromRawValue("invalid_password") == Some(InvalidPassword)
    ensures FromRawValue("empty_name") == Some(EmptyName)
    ensures FromRawValue("passwords_do_not_match") == Some(PasswordsDoNotMatch)
  {
  }

  /** Raw values round-trip through the failable initialiser, so no two keys
      share one. */
  lemma RawValueRoundTrip(k: LocalizedStringKey)
    ensures FromRawValue(RawValue(k)) == Some(k)
  {
    match k
    case AppTitle => LoginKeysDecodeA();
    case AppSubtitle => LoginKeysDecodeA();
    case EmailLabel => LoginKeysDecodeA();
    case EmailPlaceholder => LoginKeysDecodeB();
    case PasswordLabel => LoginKeysDecodeB();
    case PasswordPlaceholder => LoginKeysDecodeB();
    case LoginButton => LoginKeysDecodeC();
    case ForgotPassword => LoginKeysDecodeC();
    case NoAccount => LoginKeysDecodeD();
    case Register => LoginKeysDecodeD();
    case RegisterTitle => RegisterKeysDecodeA();
    case RegisterSubtitle => RegisterKeysDecodeA();
    case FullNameLabel => RegisterKeysDecodeA();
    case FullNamePlaceholder => RegisterKeysDecodeB();
    case ConfirmPasswordLabel => RegisterKeysDecodeB();
    case ConfirmPasswordPlaceholder => RegisterKeysDecodeB();
    case RegisterButton => RegisterKeysDecodeC();
    case BackToLogin => RegisterKeysDecodeC();
    case ExploreTab => MainKeysDecodeA();
    case MyBusinessTab => MainKeysDecodeA();
    case SearchPlaceholder => MainKeysDecodeA();
    case NearbyBusinesses => MainKeysDecodeB();
    case AddBusiness => MainKeysDecodeB();
    case NoBusinessesFound => MainKeysDecodeB();
    case Distance => MainKeysDecodeC();
    case Categories => MainKeysDecodeC();
    case Logout => MainKeysDecodeC();
    case SettingsTitle => SettingsKeysDecodeA();
    case LanguageSection => SettingsKeysDecodeA();
    case LanguageLabel => SettingsKeysDecodeA();
    case AccountSection => SettingsKeysDecodeB();
    case LogoutButton => SettingsKeysDecodeB();
    case AboutSection => SettingsKeysDecodeB();
    case VersionLabel => SettingsKeysDecodeC();
    case PrivacyPolicy => SettingsKeysDecodeC();
    case TermsOfService => SettingsKeysDecodeC();
    case Food => CategoryKeysDecodeA();
    case Retail => CategoryKeysDecodeA();
    case Services => CategoryKeysDecodeA();
    case Entertainment => CategoryKeysDecodeB();
    case Other => CategoryKeysDecodeB();
    case ErrorTitle => ValidationKeysDecodeA();
    case EmptyFields => ValidationKeysDecodeA();
    case InvalidEmail => ValidationKeysDecodeA();
    case InvalidPassword => ValidationKeysDecodeB();
    case EmptyName => ValidationKeysDecodeB();
    case PasswordsDoNotMatch => ValidationKeysDecodeB();
  }

  lemma RawValuesDistinct(a: LocalizedStringKey, b: LocalizedStringKey)
    requires a != b
    ensures RawValue(a) != RawValue(b)
  {
    RawValueRoundTrip(a);
    RawValueRoundTrip(b);
  }

  /** The dictionary literal `[.english: english, .spanish: spanish]`. */
  function Entry(english: string, spanish: string): (m: map<Language, string>)
    ensures English in m && m[English] == english
    ensures Spanish in m && m[Spanish] == spanish
  {
    map[English := english, Spanish := spanish]
  }

  /** The private `localized` table: the translations of one key. */
  function Translations(k: LocalizedStringKey): (m: map<Language, string>)
    ensures English in m && Spanish in m
    ensures m[English] != "" && m[Spanish] != ""
  {
    match k
    case AppTitle => Entry("Made in NL", "Hecho en NL")
    case AppSubtitle => Entry("Discover local", "Descubre lo local")
    case EmailLabel => Entry("Email", "Correo electrónico")
    case EmailPlaceholder => Entry("Enter your email", "Ingresa tu correo")
    case PasswordLabel => Entry("Password", "Contraseña")
    case PasswordPlaceholder => Entry("Enter your password", "Ingresa tu contraseña")
    case LoginButton => Entry("LOGIN", "INICIAR SESIÓN")
    case ForgotPassword => Entry("Forgot password?", "¿Olvidaste tu contraseña?")
    case NoAccount => Entry("Don't have an account?", "¿No tienes cuenta?")
    case Register => Entry("Register!", "¡Regístrate!")
    case RegisterTitle => Entry("Create Account", "Crear cuenta")
    case RegisterSubtitle => Entry("Join our community", "Únete a nuestra comunidad")
    case FullNameLabel => Entry("Full Name", "Nombre completo")
    case FullNamePlaceholder => Entry("Enter your full name", "Ingresa tu nombre completo")
    case ConfirmPasswordLabel => Entry("Confirm Password", "Confirmar contraseña")
    case ConfirmPasswordPlaceholder => Entry("Enter your password again", "Ingresa tu contraseña nuevamente")
    case RegisterButton => Entry("REGISTER", "REGISTRARSE")
    case BackToLogin => Entry("Already have an account? Login", "¿Ya tienes cuenta? Inicia sesión")
    case ExploreTab => Entry("Explore", "Explorar")
    case MyBusinessTab => Entry("My Business", "Mi Negocio")
    case SearchPlaceholder => Entry("Search local businesses...", "Buscar negocios locales...")
    case NearbyBusinesses => Entry("Nearby Businesses", "Negocios Cercanos")
    case AddBusiness => Entry("Add Your Business", "Agregar tu Negocio")
    case NoBusinessesFound => Entry("No businesses found nearby", "No se encontraron negocios cercanos")
    case Distance => Entry("Distance", "Distancia")
    case Categories => Entry("Categories", "Categorías")
    case Logout => Entry("Logout", "Cerrar Sesión")
    case SettingsTitle => Entry("Settings", "Configuración")
    case LanguageSection => Entry("Language", "Idioma")
    case LanguageLabel => Entry("App Language", "Idioma de la App")
    case AccountSection => Entry("Account", "Cuenta")
    case LogoutButton => Entry("Logout", "Cerrar Sesión")
    case AboutSection => Entry("About", "Acerca de")
    case VersionLabel => Entry("Version", "Versión")
    case PrivacyPolicy => Entry("Privacy Policy", "Política de Privacidad")
    case TermsOfService => Entry("Terms of Service", "Términos de Servicio")
    case Food => Entry("Food & Drinks", "Alimentos y Bebidas")
    case Retail => Entry("Retail", "Comercio")
    case Services => Entry("Services", "Servicios")
    case Entertainment => Entry("Entertainment", "Entretenimiento")
    case Other => Entry("Other", "Otros")
    case ErrorTitle => Entry("Error", "Error")
    case EmptyFields => Entry("Please fill in all fields", "Por favor llena todos los campos")
    case InvalidEmail => Entry("Please enter a valid email", "Por favor ingresa un correo electrónico válido")
    case InvalidPassword => Entry("Password must be at least 6 characters", "La contraseña debe tener al menos 6 caracteres")
    case EmptyName => Entry("Please enter your name", "Por favor ingresa tu nombre")
    case PasswordsDoNotMatch => Entry("Passwords do not match", "Las contraseñas no coinciden")
  }

  /** `localized(_:)`: the table entry, or "" when the table has none. */
  function Localized(k: LocalizedStringKey, lang: Language): (r: string)
    ensures r != ""
    ensures lang in Translations(k) && r == Translations(k)[lang]
  {
    var m := Translations(k);
    match lang
    case English => if English in m then m[English] else ""
    case Spanish => if Spanish in m then m[Spanish] else ""
  }

  /** `LanguageManager`: holds the language the interface is shown in. */
  class LanguageManager {
    var currentLanguage: Language

    constructor ()
      ensures currentLanguage == Spanish
    {
      currentLanguage := Spanish;
    }

    method ToggleLanguage()
      modifies this
      ensures currentLanguage == Toggled(old(currentLanguage))
    {
      currentLanguage := if currentLanguage == Spanish then English else Spanish;
    }
  }
}
