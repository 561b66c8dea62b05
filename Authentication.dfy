/** The session (AuthenticationModel.swift): log in and register against
    the store's user table, log out, and the fixed set of errors with their
    messages. */
module Authentication {
  import opened Common
  import opened BusinessModel
  import opened Persistence

  /** `AuthError`. */
  datatype AuthError = InvalidCredentials | NetworkError | ServerError | UserAlreadyExists

  /** The message each error declares for itself. */
  function Description(e: AuthError): string {
    match e
    case InvalidCredentials => "Correo electrónico o contraseña incorrectos"
    case NetworkError => "Error de conexión. Por favor verifica tu internet"
    case ServerError => "Error del servidor. Por favor intenta más tarde"
    case UserAlreadyExists => "Este correo electrónico ya está registrado"
  }

  /** The four messages are distinct. */
  lemma DescriptionsDistinct(a: AuthError, b: AuthError)
    requires a != b
    ensures Description(a) != Description(b)
  {
  }

  /** The error's code when it travels as a plain `Error`: the position of
      its case in the declaration. */
  function ErrorCode(e: AuthError): string {
    match e
    case InvalidCredentials => "0"
    case NetworkError => "1"
    case ServerError => "2"
    case UserAlreadyExists => "3"
  }

  /** The text the sign-in screens actually show. Their `catch` blocks read
      `localizedDescription` on a value of static type `Error`; the
      property `AuthError` declares is not a requirement of `Error`, so it
      does not override, and the bridged NSError text is shown instead (its
      English form; the wording follows the device language). */
  function BridgedDescription(e: AuthError): string {
    "The operation couldn\U{2019}t be completed. (hechoEnNuevoLeon.AuthError error " + ErrorCode(e) + ".)"
  }

  /** The bridged text is never the error's own message. */
  lemma BridgedDescriptionIsGeneric(e: AuthError)
    ensures BridgedDescription(e) != Description(e)
  {
  }

  /** The bridged texts still tell the four errors apart, by code only. */
  lemma BridgedDescriptionsDistinct(a: AuthError, b: AuthError)
    requires a != b
    ensures BridgedDescription(a) != BridgedDescription(b)
  {
    var prefix := "The operation couldn\U{2019}t be completed. (hechoEnNuevoLeon.AuthError error ";
    assert BridgedDescription(a)[|prefix|] == ErrorCode(a)[0];
    assert BridgedDescription(b)[|prefix|] == ErrorCode(b)[0];
  }

  /** The signed-in user. */
  datatype User = User(id: string, email: string, name: string)

  /** The session user built from a stored row; a missing id is replaced by
      `freshId` and missing strings by "". */
  function SessionUser(u: UserEntity, freshId: string): (r: User)
    ensures u.id.Some? ==> r.id == u.id.value
    ensures u.email.Some? ==> r.email == u.email.value
    ensures u.name.Some? ==> r.name == u.name.value
    ensures u.id.None? ==> r.id == freshId
  {
    User(u.id.GetOr(freshId), u.email.GetOr(""), u.name.GetOr(""))
  }

  /** Whether `login(email:password:)` succeeds against a user table: a row
      is found for the email and its password is the one given. */
  predicate Accepts(users: seq<UserEntity>, email: string, password: string) {
    FindUser(users, email).Some? && FindUser(users, email).value.password == Some(password)
  }

  /** The error `login` throws, if any. An unknown email and a wrong
      password give the same error. */
  function LoginError(users: seq<UserEntity>, email: string, password: string): (r: Option<AuthError>)
    ensures r.None? <==> Accepts(users, email, password)
    ensures r.Some? ==> r.value == InvalidCredentials
    ensures (forall i :: 0 <= i < |users| ==> users[i].email != Some(Lower(email))) ==> r == Some(InvalidCredentials)
  {
    match FindUser(users, email)
    case None => Some(InvalidCredentials)
    case Some(u) => if u.password == Some(password) then None else Some(InvalidCredentials)
  }

  /** `AuthenticationModel`: whether a user is signed in, who, and the store
      it reads and writes. */
  class AuthenticationModel {
    var isAuthenticated: bool
    var currentUser: Option<User>
    const store: PersistenceController

    constructor(store: PersistenceController)
      ensures this.store == store
      ensures !isAuthenticated && currentUser == None
    {
      this.store := store;
      isAuthenticated := false;
      currentUser := None;
    }

    /** `login`: signs in as the stored user when the email is known and the
      password matches; otherwise throws `invalidCredentials` and changes
      nothing. */
    method Login(email: string, password: string, freshId: string) returns (err: Option<AuthError>)
      modifies this
      ensures err == LoginError(store.users, email, password)
      ensures err.Some? ==> isAuthenticated == old(isAuthenticated) && currentUser == old(currentUser)
      ensures err.None? ==> isAuthenticated && currentUser == Some(SessionUser(store.FetchUser(email).value, freshId))
    {
      var userEntity := store.FetchUser(email);
      if userEntity.Some? {
        if userEntity.value.password == Some(password) {
          isAuthenticated := true;
          currentUser := Some(SessionUser(userEntity.value, freshId));
          err := None;
        } else {
          err := Some(InvalidCredentials);
        }
      } else {
        err := Some(InvalidCredentials);
      }
    }

    /** `register`: refuses an email that is already stored; otherwise
      creates the user and signs in as that user. */
    method Register(email: string, password: string, fullName: string, newId: string, now: Date, freshId: string)
      returns (err: Option<AuthError>)
      requires store.Valid()
      modifies this, store
      ensures store.Valid() && store.businesses == old(store.businesses)
      ensures err != Some(ServerError)
      ensures err.Some? <==> old(store.FetchUser(email)).Some?
      ensures err.Some? ==> err.value == UserAlreadyExists && store.users == old(store.users)
      ensures err.Some? ==> isAuthenticated == old(isAuthenticated) && currentUser == old(currentUser)
      ensures err.None? ==>
        store.users == old(store.users) + [UserEntity(Some(newId), Some(Lower(email)), Some(password), Some(fullName), Some(now))]
      ensures err.None? ==> isAuthenticated && currentUser == Some(User(newId, Lower(email), fullName))
    {
      if store.FetchUser(email).Some? {
        err := Some(UserAlreadyExists);
        return;
      }
      var userEntity := store.CreateUser(email, password, fullName, newId, now);
      if userEntity.Some? {
        isAuthenticated := true;
        currentUser := Some(SessionUser(userEntity.value, freshId));
        err := None;
      } else {
        err := Some(ServerError);
      }
    }

    /** `logout`: signs out. */
    method Logout()
      modifies this
      ensures !isAuthenticated && currentUser == None
    {
      isAuthenticated := false;
      currentUser := None;
    }
  }

  /** After a successful registration the same email and password log in,
      and so does the email written with different capitals. */
  lemma {:induction false} RegisteredUserCanLogIn(users: seq<UserEntity>, email: string, query: string, password: string,
                                                  fullName: string, newId: string, now: Date)
    requires FindUser(users, email).None?
    requires Lower(query) == Lower(email)
    ensures Accepts(users + [UserEntity(Some(newId), Some(Lower(email)), Some(password), Some(fullName), Some(now))],
                    query, password)
  {
    var u := UserEntity(Some(newId), Some(Lower(email)), Some(password), Some(fullName), Some(now));
    FindAppendedUser(users, u, email, email);
    FindAppendedUser(users, u, email, query);
  }
}
