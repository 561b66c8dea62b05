# Hecho en Nuevo León — a Dafny model of the app's core

Hecho en Nuevo León is an iOS directory of local businesses in Nuevo León.

- **Signing in:** a visitor registers or signs in with an email and a password, against a user table kept in Core Data.
- **The explore tab:** the visitor browses the businesses. The list can be searched by text, narrowed to one category, and ordered nearest first, best rated first or newest first.
- **Owners:** an owner lists their own businesses, deletes one, or adds a new one through a form. The form locates the business by a picked point or by geocoding a typed address.
- **Language:** every interface string comes from a two-language table, Spanish and English.

This project models that core in Dafny. It has one module per source file.

| module | source file | form |
|---|---|---|
| `Localizable` | `Localizable.swift` | message keys, their raw values, the translation table; `LanguageManager` as a class |
| `BusinessModel` | `Models/Business.swift` | the category enum, the `Business` record, `formattedDistance` |
| `Persistence` | `CoreData/PersistenceController.swift` | the store as a class with its business and user tables as `seq` fields |
| `Authentication` | `AuthenticationModel.swift` | `AuthError`, `User`, and the session as a class |
| `Directory` | `Services/BusinessService.swift` | `BusinessFilter`, conversion, sorting and search as functions; `BusinessService` as a class |
| `EmailPattern` | the email regex of `Views/LoginView.swift` and `Views/RegisterView.swift` | the pattern as a predicate, and a decision function proved equivalent to it |
| `LoginForm`, `RegisterForm` | `Views/LoginView.swift`, `Views/RegisterView.swift` | the checks as functions; the screens' state as classes |
| `AddBusinessForm` | `Views/AddBusinessView.swift` | the form's validity, the save step, the new record; the screen as a class |
| `BusinessCard`, `BusinessDetail` | `Views/BusinessCardView.swift`, `Views/BusinessDetailView.swift` | image choice and contact links |
| `MainTab` | `Views/MainTabView.swift` | the explore tab and the owner's tab as classes |
| `ImageDefaults` | the four copies of the per-category image table | that the copies agree |
| `Common` | — | shared sequence helpers: filter, first index, count, stable insertion sort, ASCII lower-casing, substring search |

A method that changes state is specified against a pure function. For example:

- `BusinessService.LoadBusinessesFromCoreData` ends with `businesses == Listing(...)`.
- `Listing` is `Arrange(ConvertAll(...))`.
- `Arrange` and `ConvertAll` carry the properties themselves:
  - the result is a permutation;
  - it is sorted by the filter's key;
  - sorting again changes nothing;
  - every field of a converted row is accounted for.

Things the source gets from its platform become parameters of the model:

- **the clock:** `now`;
- **`UUID()`:** `newId` and `freshId`;
- **the location framework's distance:** `dist`;
- **the geocoder's answer:** `geocode`;
- **whether an image is in the asset catalogue:** `assetExists`;
- **number formatting:** `format`.

`Views/BusinessCardView.swift:9-17` repeats `Business.formattedDistance` word for word. `BusinessModel.FormattedDistance` models both.

## Model

| member | source | states |
|---|---|---|
| Localizable.Identifier | hechoEnNuevoLeon/Localizable.swift:7-12 | the locale code is two letters, "en" exactly for English and "es" exactly for Spanish |
| Localizable.Toggled | hechoEnNuevoLeon/Localizable.swift:196-198 | toggling always gives the other language |
| Localizable.ToggledTwice | hechoEnNuevoLeon/Localizable.swift:196-198 | toggling twice gives back the language one started from |
| Localizable.RawValue | hechoEnNuevoLeon/Localizable.swift:15-73 | the raw value of each key, as declared; no contract of its own (see `RawValueRoundTrip`) |
| Localizable.FromRawValue | hechoEnNuevoLeon/Localizable.swift:15-73 | `init(rawValue:)`: the key with that raw value, if any; no contract of its own (see `RawValueRoundTrip`) |
| Localizable.RawValueRoundTrip | hechoEnNuevoLeon/Localizable.swift:15-73 | every key's raw value decodes back to that key through `init(rawValue:)` |
| Localizable.RawValuesDistinct | hechoEnNuevoLeon/Localizable.swift:15-73 | no two keys share a raw value |
| Localizable.Translations | hechoEnNuevoLeon/Localizable.swift:75-183 | every key has an entry for both languages, and neither entry is empty |
| Localizable.Localized | hechoEnNuevoLeon/Localizable.swift:185-187 | a lookup always finds its table entry, so the `?? ""` fallback never applies and no message is blank |
| Localizable.LanguageManager.constructor | hechoEnNuevoLeon/Localizable.swift:191-192 | the interface starts in Spanish |
| Localizable.LanguageManager.ToggleLanguage | hechoEnNuevoLeon/Localizable.swift:196-198 | the current language becomes the other one |
| BusinessModel.AllCases | hechoEnNuevoLeon/Models/Business.swift:4-9 | five categories, each exactly once, food first and other last |
| BusinessModel.CategoryRawValue | hechoEnNuevoLeon/Models/Business.swift:4-9 | the raw value of each category, its case name; no contract of its own (see `CategoryRawValueRoundTrip`) |
| BusinessModel.CategoryFromRawValue | hechoEnNuevoLeon/Models/Business.swift:4-9 | `init(rawValue:)` yields a category exactly when the string is some category's raw value, and then that category |
| BusinessModel.CategoryRawValueRoundTrip | hechoEnNuevoLeon/Models/Business.swift:4-9 | a category's raw value decodes back to that category |
| BusinessModel.Icon | hechoEnNuevoLeon/Models/Business.swift:26-34 | the SF Symbol of each category; no contract of its own (see `IconsDistinct`) |
| BusinessModel.IconsDistinct | hechoEnNuevoLeon/Models/Business.swift:26-34 | distinct categories have distinct symbols |
| BusinessModel.CategoryKeyName | hechoEnNuevoLeon/Models/Business.swift:11-24 | the key naming a category has raw value "category_" followed by the category's raw value |
| BusinessModel.LocalizedName | hechoEnNuevoLeon/Models/Business.swift:11-24 | a category's display name is its key's translation in the current language, and is never empty |
| BusinessModel.FormattedDistance | hechoEnNuevoLeon/Models/Business.swift:58-66 | empty exactly when the distance is unknown; otherwise ends in " m" below 1000 metres and in " km" from 1000 on |
| Persistence.StoredImages | hechoEnNuevoLeon/CoreData/PersistenceController.swift:78-100 | the given images are stored unchanged; a business without images gets exactly its category's default image |
| Persistence.ToEntity | hechoEnNuevoLeon/CoreData/PersistenceController.swift:102-118 | every stored attribute is the business's field; the category is stored by raw value, and the images as `StoredImages` |
| Persistence.ToEntities | hechoEnNuevoLeon/Services/BusinessService.swift:700-702 | the rows stored for a sequence of businesses are their rows, one each, in order |
| Persistence.WithoutFirstId | hechoEnNuevoLeon/CoreData/PersistenceController.swift:123-136 | with no row carrying the id the table is unchanged; otherwise exactly the first such row is removed, the others keep their order, and the count of rows with the id drops by one |
| Persistence.FindUser | hechoEnNuevoLeon/CoreData/PersistenceController.swift:154-165 | finds a user exactly when some row's email is the lower-cased query, and then the first such row |
| Persistence.FindAppendedUser | hechoEnNuevoLeon/CoreData/PersistenceController.swift:154-177 | a user created with an email is found by any query with the same lower-cased form; an earlier match still wins |
| Persistence.PersistenceController.constructor | hechoEnNuevoLeon/CoreData/PersistenceController.swift:14-29 | the context opens holding what the store holds, without changes |
| Persistence.PersistenceController.Save | hechoEnNuevoLeon/CoreData/PersistenceController.swift:32-41 | commits the context when it has changes, and leaves the tables as they are |
| Persistence.PersistenceController.FetchBusinesses | hechoEnNuevoLeon/CoreData/PersistenceController.swift:45-75 | every business row of the context, in insertion order; no contract of its own |
| Persistence.PersistenceController.AddBusiness | hechoEnNuevoLeon/CoreData/PersistenceController.swift:77-121 | appends the business's row, keeps the users, and commits |
| Persistence.PersistenceController.DeleteBusiness | hechoEnNuevoLeon/CoreData/PersistenceController.swift:123-136 | removes the first row with the id and commits; without such a row nothing changes, not even the committed state |
| Persistence.PersistenceController.DeleteAllBusinesses | hechoEnNuevoLeon/CoreData/PersistenceController.swift:138-150 | the fetch afterwards is empty, the users are kept, and the empty table is committed |
| Persistence.PersistenceController.FetchUser | hechoEnNuevoLeon/CoreData/PersistenceController.swift:154-165 | `FindUser` on the context's user table; no contract of its own (see `FindUser`) |
| Persistence.PersistenceController.CreateUser | hechoEnNuevoLeon/CoreData/PersistenceController.swift:167-177 | appends and returns a user row with the lower-cased email and the given password and name, and commits |
| Persistence.PersistenceController.DeleteUser | hechoEnNuevoLeon/CoreData/PersistenceController.swift:179-182 | removes that user row, keeps the businesses, and commits |
| Authentication.Description | hechoEnNuevoLeon/AuthenticationModel.swift:10-21 | the message each error declares; the corrected half of the finding below; no contract of its own (see `DescriptionsDistinct`) |
| Authentication.DescriptionsDistinct | hechoEnNuevoLeon/AuthenticationModel.swift:4-22 | the four errors have four different messages |
| Authentication.BridgedDescription | hechoEnNuevoLeon/Views/LoginView.swift:191-194 | the bridged `NSError` text a `catch` block shows for an `AuthError`; the as-written half of the finding below; no contract of its own (see `BridgedDescriptionIsGeneric`) |
| Authentication.BridgedDescriptionIsGeneric | hechoEnNuevoLeon/Views/LoginView.swift:191-194 | the text the `catch` blocks show is never the error's own message |
| Authentication.BridgedDescriptionsDistinct | hechoEnNuevoLeon/Views/RegisterView.swift:224-227 | the shown texts still differ between errors, by their code |
| Authentication.SessionUser | hechoEnNuevoLeon/AuthenticationModel.swift:37-41 | the session user takes the row's id, email and name; a missing id is replaced by a fresh one |
| Authentication.LoginError | hechoEnNuevoLeon/AuthenticationModel.swift:29-50 | no error exactly when the email's row exists and has the password; otherwise always `invalidCredentials`, also for an unknown email |
| Authentication.AuthenticationModel.constructor | hechoEnNuevoLeon/AuthenticationModel.swift:24-27 | nobody is signed in at start |
| Authentication.AuthenticationModel.Login | hechoEnNuevoLeon/AuthenticationModel.swift:29-50 | the result is `LoginError`; on success the stored user is signed in, and on failure the session is untouched |
| Authentication.AuthenticationModel.Register | hechoEnNuevoLeon/AuthenticationModel.swift:52-75 | fails with `userAlreadyExists` exactly when the email is already stored, changing nothing; otherwise appends the user and signs them in; `serverError` never occurs |
| Authentication.AuthenticationModel.Logout | hechoEnNuevoLeon/AuthenticationModel.swift:77-80 | nobody is signed in afterwards |
| Authentication.RegisteredUserCanLogIn | hechoEnNuevoLeon/AuthenticationModel.swift:29-75 | after registering, the same password logs in with the email in any capitalisation |
| Directory.Title | hechoEnNuevoLeon/Services/BusinessService.swift:18-24 | the menu title of each filter; no contract of its own (see `FilterLabelsDistinct`) |
| Directory.FilterIcon | hechoEnNuevoLeon/Services/BusinessService.swift:10-16 | the symbol of each filter; no contract of its own (see `FilterLabelsDistinct`) |
| Directory.FilterLabelsDistinct | hechoEnNuevoLeon/Services/BusinessService.swift:5-25 | the three filters have distinct titles and distinct symbols |
| Directory.ConvertToBusiness | hechoEnNuevoLeon/Services/BusinessService.swift:75-105 | each field comes from its column. Missing strings become "", a missing id a fresh one and missing dates `now`; a missing or unknown category becomes `other`. The distance is known exactly when the user's location is |
| Directory.ConvertStoredBusiness | hechoEnNuevoLeon/Services/BusinessService.swift:75-105 | storing a business and converting the row back gives the business back, apart from social media (dropped), images (defaulted) and distance (recomputed) |
| Directory.ConvertAll | hechoEnNuevoLeon/Services/BusinessService.swift:107-116 | every row is converted, in order |
| Directory.Comparator | hechoEnNuevoLeon/Services/BusinessService.swift:163-175 | each of the three comparators is asymmetric: no two businesses are each less than the other |
| Directory.Arrange | hechoEnNuevoLeon/Services/BusinessService.swift:163-175 | the result is a permutation of the list. It is ordered by rating or by creation date (descending), or by distance from the user (ascending). Nearest-first without a location keeps the order |
| Directory.ArrangeIdempotent | hechoEnNuevoLeon/Services/BusinessService.swift:163-175 | applying the same filter twice is applying it once |
| Directory.WithDistances | hechoEnNuevoLeon/Services/BusinessService.swift:180-182 | every business gets its distance from the new location, and nothing else about it changes |
| Directory.Selected | hechoEnNuevoLeon/Services/BusinessService.swift:144-161 | the search criterion: the text, when given, occurs case-insensitively in the name or description, and the category, when given, is the business's; no contract of its own (see `FilterBusinessesIsSelection`) |
| Directory.FilterBusinesses | hechoEnNuevoLeon/Services/BusinessService.swift:144-161 | the result is the businesses that match the text (case-insensitively, in name or description) and the category, in list order. It is all of them, and with no criteria it is the whole list |
| Directory.FilterBusinessesIsSelection | hechoEnNuevoLeon/Services/BusinessService.swift:144-161 | the two-stage search equals a single filter by the combined criterion |
| Directory.SearchFiltersCommute | hechoEnNuevoLeon/Services/BusinessService.swift:144-161 | filtering by category first and by text second gives the same list |
| Directory.UpdateKeepsOneRow | hechoEnNuevoLeon/Services/BusinessService.swift:136-140 | updating a business held by at most one row leaves exactly one row with its id |
| Directory.AppDefaults.constructor | hechoEnNuevoLeon/Services/BusinessService.swift:37-39 | holds the `hasLoadedInitialData` flag it is given |
| Directory.BusinessService.constructor | hechoEnNuevoLeon/Services/BusinessService.swift:33-61 | on the first run the store holds exactly the samples and the flag is set; otherwise the store is unchanged. The list is the store converted, nearest-first without a location |
| Directory.BusinessService.LoadBusinessesFromCoreData | hechoEnNuevoLeon/Services/BusinessService.swift:107-116 | the list is every stored row converted and ordered by the selected filter |
| Directory.BusinessService.LoadSampleBusinesses | hechoEnNuevoLeon/Services/BusinessService.swift:699-705 | every sample's row is appended in order, then the list reloads |
| Directory.BusinessService.AddBusiness | hechoEnNuevoLeon/Services/BusinessService.swift:120-129 | appends the business's row and reloads, and the business, as stored, is on the list |
| Directory.BusinessService.ListedAfterStore | hechoEnNuevoLeon/Services/BusinessService.swift:120-129 | the last stored row, converted, is on the reloaded list |
| Directory.BusinessService.DeleteBusiness | hechoEnNuevoLeon/Services/BusinessService.swift:131-134 | removes the first row with the business's id and reloads |
| Directory.BusinessService.UpdateBusiness | hechoEnNuevoLeon/Services/BusinessService.swift:136-140 | the row with the id is replaced by a new last row, and the updated business is on the reloaded list |
| Directory.BusinessService.ApplyFilter | hechoEnNuevoLeon/Services/BusinessService.swift:163-175 | the list becomes `Arrange` of itself under the selected filter |
| Directory.BusinessService.UpdateUserLocation | hechoEnNuevoLeon/Services/BusinessService.swift:177-188 | records the location and sets every distance; re-sorts only under nearest-first |
| EmailPattern.IsValidEmail | hechoEnNuevoLeon/Views/LoginView.swift:172-174 | accepts a string exactly when the whole string matches `[A-Z0-9a-z._%+-]+@[A-Za-z0-9.-]+\.[A-Za-z]{2,64}` |
| LoginForm.LoginCheck | hechoEnNuevoLeon/Views/LoginView.swift:165-185 | an empty field, then a malformed email, then a password under six characters, each exactly when it is the first to fail; `None` only for a well-formed email and a long enough password |
| LoginForm.LoginScreen.constructor | hechoEnNuevoLeon/Views/LoginView.swift:6-10 | the screen starts empty, with no alert and not loading |
| LoginForm.LoginScreen.HandleLogin | hechoEnNuevoLeon/Views/LoginView.swift:164-198 | a failed check alerts its message in the current language and signs nobody in. Otherwise the session is asked: a refusal is alerted after "Error al iniciar sesión: " and leaves the session; success signs in the stored user of that email; loading ends cleared |
| LoginForm.LoginScreen.SubmitLogin | hechoEnNuevoLeon/Views/LoginView.swift:187-197 | loading ends cleared; a refusal is alerted and leaves the session; success signs in the stored user of that email and leaves the alert alone |
| RegisterForm.RegisterCheck | hechoEnNuevoLeon/Views/RegisterView.swift:184-216 | checks, in order, a name, an email, the email format, a password of at least six characters, and a matching confirmation. Each message appears exactly when its check is the first to fail |
| RegisterForm.RegisterScreen.constructor | hechoEnNuevoLeon/Views/RegisterView.swift:9-15 | the screen starts empty, with no alert, not loading and not dismissed |
| RegisterForm.RegisterScreen.HandleRegister | hechoEnNuevoLeon/Views/RegisterView.swift:182-230 | the business table is never touched. A failed check alerts its message in the current language and stores nothing. Otherwise a taken email alerts `userAlreadyExists` and leaves users and session; a new one appends the user, signs them in and dismisses the screen |
| RegisterForm.RegisterScreen.SubmitRegistration | hechoEnNuevoLeon/Views/RegisterView.swift:218-229 | the same two outcomes of the request, with the business table untouched; loading ends cleared |
| AddBusinessForm.NextStep | hechoEnNuevoLeon/Views/AddBusinessView.swift:165-186 | a picked location is used directly. Otherwise a typed address is geocoded: a failure alerts with the error's text, no placemark alerts the fixed message, and a location is used. With neither, nothing happens |
| AddBusinessForm.GeocodeOnlyForTypedAddress | hechoEnNuevoLeon/Views/AddBusinessView.swift:165-186 | the geocoder's answer matters only without a picked location and with a typed address |
| AddBusinessForm.IsValidForm | hechoEnNuevoLeon/Views/AddBusinessView.swift:153-163 | a name, a description, a typed address or a picked location, and a phone; no contract of its own (see `ValidFormActs`) |
| AddBusinessForm.ValidFormActs | hechoEnNuevoLeon/Views/AddBusinessView.swift:153-163 | a form that enables the save button never leads to doing nothing |
| AddBusinessForm.NewBusiness | hechoEnNuevoLeon/Views/AddBusinessView.swift:210-227 | the record has the owner and the entries; empty email and website become absent; it has the category's image, no rating, no reviews and no social links; its creation and update times are both `now` (the two `Date()` calls are one instant in the model) |
| AddBusinessForm.Draft | hechoEnNuevoLeon/Views/AddBusinessView.swift:210-227 | the record built from the form's entries has the owner, the location and the chosen category, and a review count that fits the store's `Int32` |
| AddBusinessForm.AddBusinessScreen.constructor | hechoEnNuevoLeon/Views/AddBusinessView.swift:8-20 | the form starts empty, with food as the category, no location and no alert |
| AddBusinessForm.AddBusinessScreen.SaveBusiness | hechoEnNuevoLeon/Views/AddBusinessView.swift:165-186 | carries out `NextStep`; the entries, the user table, the filter and the location stay. Doing nothing or an alert step leaves the store and the list; a create step stores the new record, reloads the list and dismisses the form when someone is signed in, and otherwise alerts "Error de autenticación" |
| AddBusinessForm.AddBusinessScreen.CreateBusiness | hechoEnNuevoLeon/Views/AddBusinessView.swift:188-231 | the entries, the user table, the filter and the location stay. Without a signed-in user it alerts and leaves the store and the list. Otherwise it appends the new record, the list becomes the reloaded `Listing` containing the record as stored, and the form is dismissed |
| BusinessCard.CardImage | hechoEnNuevoLeon/Views/BusinessCardView.swift:20-43 | the first of the business's images that exists, or the category's fallback when none does |
| BusinessCard.GetImageName | hechoEnNuevoLeon/Views/BusinessCardView.swift:20-43 | the loop returns `CardImage`, and never returns nil |
| BusinessDetail.ValidImages | hechoEnNuevoLeon/Views/BusinessDetailView.swift:31-54 | never empty. With an existing image it is every existing image, in order, each as often as it occurs (as many as there are); with none it is the category's fallback |
| BusinessDetail.CardShowsFirstGalleryImage | hechoEnNuevoLeon/Views/BusinessDetailView.swift:31-54 | the card's image is the first image of the detail gallery |
| BusinessDetail.PhoneURL | hechoEnNuevoLeon/Views/BusinessDetailView.swift:156 | "tel://" followed by the number's characters other than spaces, in order, every one of them (the length is 6 plus their count); a number without spaces is kept whole |
| BusinessDetail.PhoneURLOfLink | hechoEnNuevoLeon/Views/BusinessDetailView.swift:156 | stripping spaces twice is stripping them once |
| BusinessDetail.EmailURL | hechoEnNuevoLeon/Views/BusinessDetailView.swift:174 | "mailto:" followed by the email |
| BusinessDetail.WebsiteURL | hechoEnNuevoLeon/Views/BusinessDetailView.swift:192 | "https://" followed by the website |
| BusinessDetail.ContactLinksDistinct | hechoEnNuevoLeon/Views/BusinessDetailView.swift:154-197 | the three buttons never open the same link |
| BusinessDetail.ContactLinks | hechoEnNuevoLeon/Views/BusinessDetailView.swift:154-197 | one link per contact the business has: the phone first, the email, the website last |
| MainTab.ToggleCategory | hechoEnNuevoLeon/Views/MainTabView.swift:94-100 | tapping the selected chip clears the selection; tapping another selects it alone |
| MainTab.ToggleCategoryTwice | hechoEnNuevoLeon/Views/MainTabView.swift:94-100 | tapping a chip twice restores the selection when it was empty or that chip, and clears it otherwise |
| MainTab.UserBusinesses | hechoEnNuevoLeon/Views/MainTabView.swift:147-151 | every listed business owned by the signed-in user, in list order, as many as there are; nothing when nobody is signed in |
| MainTab.ExploreScreen.constructor | hechoEnNuevoLeon/Views/MainTabView.swift:43-51 | no search, no category, and the location of Monterrey |
| MainTab.ExploreScreen.FilteredBusinesses | hechoEnNuevoLeon/Views/MainTabView.swift:53-55 | the service's list filtered by the search criterion `Selected`: every business that passes, in the service's order, as many as pass |
| MainTab.ExploreScreen.TapCategory | hechoEnNuevoLeon/Views/MainTabView.swift:94-100 | the chip's action is `ToggleCategory`, and changes nothing else |
| MainTab.ExploreScreen.ChooseFilter | hechoEnNuevoLeon/Views/MainTabView.swift:69-73 | selects the filter and re-sorts the list by it |
| MainTab.ExploreScreen.Appear | hechoEnNuevoLeon/Views/MainTabView.swift:129-131 | the service gets the tab's location: every distance is set, and the list is re-sorted under nearest-first |
| MainTab.MyBusinessScreen.constructor | hechoEnNuevoLeon/Views/MainTabView.swift:144-146 | the tab owns its service and shares the session |
| MainTab.MyBusinessScreen.Listed | hechoEnNuevoLeon/Views/MainTabView.swift:147-151 | the tab lists businesses from its service's list, in order |
| MainTab.MyBusinessScreen.Reload | hechoEnNuevoLeon/Views/MainTabView.swift:215-218 | the filter and the location stay, and the list is the store's rows reloaded under them |
| MainTab.MyBusinessScreen.DeleteBusinessAt | hechoEnNuevoLeon/Views/MainTabView.swift:222-228 | the swiped row's business is owned by the signed-in user; the first stored row with its id is removed, the users, filter and location stay, and the list reloads |
| ImageDefaults.DefaultImagesAgree | hechoEnNuevoLeon/Views/AddBusinessView.swift:196-208 | the form's default image, the store's default, the card's fallback and the detail gallery's fallback agree for every category |
| ImageDefaults.NewBusinessImages | hechoEnNuevoLeon/Views/AddBusinessView.swift:222 | a business from the form keeps its one image in the store. It shows that image on its card and as its whole gallery, whether or not the image is in the catalogue |

## Left out

- **Floating point:** coordinates, distances and ratings are mathematical reals. `Double` rounding is not modelled.
- **Dates:** Swift's `Date` is a `Double` count of seconds. The model's `Date` is an integer instant, which keeps the comparison the newest-first order needs and drops sub-second precision.
- **Distances and number formatting:** `CLLocation.distance(from:)` is the parameter `dist`. `String(format:)` is the parameter `format` of `FormattedDistance`; only the unit and the metre/kilometre threshold are modelled.
- **Concurrency:** `async` functions, `Task`, `DispatchQueue.main.async` and the 1.5-second simulated delay are modelled as taking effect at once, in program order. Interleavings with other events are not modelled.
- **Core Data:**
  - the persistent container, the managed object context, faulting and merge policy are not modelled;
  - a fetch returns rows in insertion order;
  - object identity is value equality, so `DeleteUser` removes the first row equal to the given one;
  - `save` errors are not modelled, since the source only prints them.
- **Loading the store:** `PersistenceController.init` is modelled as opening a store with its rows; the `inMemory` variant is not modelled.
- **The change observer:** the `NotificationCenter` observer that reloads the service after every save of the context (`Services/BusinessService.swift:54-71`) is not modelled. The model reloads only where the service calls `loadBusinessesFromCoreData` itself. An extra reload of an unchanged store computes the same `Listing`, apart from fresh identifiers drawn for rows without one.
- **Sample data:** the contents of the sample businesses in `loadSampleBusinesses` are a parameter, `samples`.
- **`reloadSampleData`:** a local function declared inside `loadSampleBusinesses` and never called, so no behaviour of the app depends on it.
- **Sorting:** Swift's `sort(by:)` is not stable. The model sorts with a stable insertion sort, so businesses with equal keys may come out in a different order in the app. `Arrange`'s permutation and order-by-key clauses hold for any sort. Two statements rely on stability and hold for the model's sort only: `Arrange`'s clause that nearest-first without a location keeps the order, and `ArrangeIdempotent`.
- **Identifiers and the clock:** each `UUID()` is a parameter (`newId`, `freshId`). The two `Date()` calls in `createBusiness` are one parameter, `now`.
- **Case folding:** `lowercased()` is ASCII lower-casing; other letters are left as they are. `localizedCaseInsensitiveContains` is modelled the same way, without locale rules or diacritic folding.
- **Text length:** `password.count` counts characters, not grapheme clusters.
- **The email regex:** the `NSPredicate` regex engine is replaced by a structural predicate for the one pattern the screens use.
- **Contact buttons:** `URL(string:)` parsing and `UIApplication.open` are not modelled; `BusinessDetail` models the strings handed to them.
- **Geocoding:** `CLGeocoder` is the parameter `geocode`. A placemark without a location counts as `NoPlacemark`.
- **Images:** `UIImage(named:)` is the predicate parameter `assetExists`. The image picker's `selectedImages` are never saved by the form, so they are not modelled.
- **Deleting several rows:** `MyBusinessScreen.DeleteBusinessAt` models `deleteBusinesses(at:)` for the single offset a swipe delivers. With several offsets the source re-reads the filtered list after each deletion, and that is not modelled.
- **Persisted flag:** the `hasLoadedInitialData` user default is the field of an `AppDefaults` object.
- **Unreachable error:** `serverError` is thrown only if `createUser` returns nil, which it never does. `AuthenticationModel.Register` states that it never occurs.
- Persistence.ToEntity: requires `IsInt32(b.reviewCount)`, so the trap of `Int32(business.reviewCount)` (`CoreData/PersistenceController.swift:115`) is excluded rather than modelled. Every caller in the app meets it: the form builds reviewCount 0 (`AddBusinessForm.Draft` proves it), and the samples' counts are small.
- Persistence.PersistenceController.AddBusiness: the same `IsInt32` requirement, for the same reason.
- Directory.BusinessService.AddBusiness: the same `IsInt32` requirement; so do `Directory.BusinessService.UpdateBusiness`, `LoadSampleBusinesses` and the service's constructor for the samples.
- LoginForm.LoginScreen.HandleLogin: its refusal alert is stated with the corrected text `Description`; as written, the screen shows `BridgedDescription` (see Findings).
- LoginForm.LoginScreen.SubmitLogin: the same corrected alert text.
- RegisterForm.RegisterScreen.HandleRegister: its taken-email alert is stated with the corrected text `Description`; as written, the screen shows `BridgedDescription` (see Findings).
- RegisterForm.RegisterScreen.SubmitRegistration: the same corrected alert text.
- **Language of the bridged text:** `Authentication.BridgedDescription` gives the English wording; the device language chooses the wording in the app.
- **Shared objects:** `LanguageManager.shared` and `PersistenceController.shared` are passed to each screen as constructor arguments.
- **Views not modelled:** the SwiftUI layout, navigation, `SettingsView`, `LocationPickerView` and the map button (`openInMaps`).

## Findings

| source | as written | input that shows it | evidently intended | confidence | as-written member | corrected member |
|---|---|---|---|---|---|---|
| hechoEnNuevoLeon/Views/LoginView.swift:191-194 and hechoEnNuevoLeon/Views/RegisterView.swift:224-227 | the `catch` blocks show `error.localizedDescription` of a value of type `Error`. `AuthError` declares its own `localizedDescription` but does not conform to `LocalizedError`, so the declaration is not used through `Error`, and the bridged `NSError` text is shown | registering an email already stored shows "The operation couldn’t be completed. (hechoEnNuevoLeon.AuthError error 3.)" instead of "Este correo electrónico ya está registrado" | show the message `AuthError` declares (`AuthenticationModel.swift:10-21`), e.g. by conforming to `LocalizedError` through `errorDescription` | high; not executed | Authentication.BridgedDescription (lemma Authentication.BridgedDescriptionIsGeneric) | Authentication.Description (used by LoginForm.LoginScreen.SubmitLogin and RegisterForm.RegisterScreen.SubmitRegistration) |
