/** The record store (CoreData/PersistenceController.swift): a table of
    business rows and a table of user rows held by the managed-object
    context, committed to the persistent store by `save`. */
module Persistence {
  import opened Common
  import opened BusinessModel

  /** A stored business row. Every string attribute of the Core Data entity
      is optional; the scalar attributes (coordinates, rating, review count)
      are not. */
  datatype BusinessEntity = BusinessEntity(
    id: Option<string>,
    ownerId: Option<string>,
    name: Option<string>,
    businessDescription: Option<string>,
    category: Option<string>,
    address: Option<string>,
    phone: Option<string>,
    email: Option<string>,
    website: Option<string>,
    latitude: real,
    longitude: real,
    rating: real,
    reviewCount: int,
    createdAt: Option<Date>,
    updatedAt: Option<Date>,
    images: Option<seq<string>>)

  /** A stored user row. */
  datatype UserEntity = UserEntity(
    id: Option<string>,
    email: Option<string>,
    password: Option<string>,
    name: Option<string>,
    createdAt: Option<Date>)

  /** The review count is stored as an `Int32`; `Int32(_)` traps outside this
      range. */
  predicate IsInt32(n: int) {
    -0x8000_0000 <= n <= 0x7fff_ffff
  }

  /** The image the store substitutes, by category, for a business that
      comes without images. */
  function StoreDefaultImage(c: BusinessCategory): string {
    match c
    case Food => "comidas2"
    case Retail => "tiendita1"
    case Services => "tacos1"
    case Entertainment => "iguana1"
    case Other => "antojitos1"
  }

  /** The images `addBusiness` stores: the given ones, in order, or exactly
      the category's default when none are given. */
  function StoredImages(b: Business): (r: seq<string>)
    ensures r != []
    ensures b.images != [] ==> r == b.images
    ensures b.images == [] ==> |r| == 1 && r[0] == StoreDefaultImage(b.category)
  {
    if b.images == [] then [StoreDefaultImage(b.category)] else b.images
  }

  /** The row `addBusiness` fills in for a business. `socialMedia` and
      `distance` have no column and are not stored. */
  function ToEntity(b: Business): (e: BusinessEntity)
    requires IsInt32(b.reviewCount)
    ensures e.id == Some(b.id) && e.ownerId == Some(b.ownerId)
    ensures e.name == Some(b.name) && e.businessDescription == Some(b.description)
    ensures e.category == Some(CategoryRawValue(b.category))
    ensures e.address == Some(b.address)
    ensures e.phone == b.phone && e.email == b.email && e.website == b.website
    ensures e.latitude == b.location.latitude && e.longitude == b.location.longitude
    ensures e.rating == b.rating && e.reviewCount == b.reviewCount
    ensures e.createdAt == Some(b.createdAt) && e.updatedAt == Some(b.updatedAt)
    ensures e.images == Some(StoredImages(b))
  {
    BusinessEntity(
      Some(b.id), Some(b.ownerId), Some(b.name), Some(b.description),
      Some(CategoryRawValue(b.category)), Some(b.address),
      b.phone, b.email, b.website,
      b.location.latitude, b.location.longitude,
      b.rating, b.reviewCount,
      Some(b.createdAt), Some(b.updatedAt),
      Some(StoredImages(b)))
  }

  /** The rows `addBusiness` appends for a sequence of businesses, in order. */
  function ToEntities(bs: seq<Business>): (es: seq<BusinessEntity>)
    requires forall i :: 0 <= i < |bs| ==> IsInt32(bs[i].reviewCount)
    ensures |es| == |bs|
    ensures forall i :: 0 <= i < |bs| ==> es[i] == ToEntity(bs[i])
  {
    seq(|bs|, i requires 0 <= i < |bs| => ToEntity(bs[i]))
  }

  /** Rows whose `id` attribute is the given id (the fetch predicate
      "id == %@"). */
  function HasId(id: string): BusinessEntity -> bool {
    (e: BusinessEntity) => e.id == Some(id)
  }

  /** The business table after `deleteBusiness`: the first row with the id
      is gone and every other row keeps its place. */
  function WithoutFirstId(rows: seq<BusinessEntity>, id: string): (r: seq<BusinessEntity>)
    ensures (forall i :: 0 <= i < |rows| ==> rows[i].id != Some(id)) ==> r == rows
    ensures forall k :: 0 <= k < |rows| && rows[k].id == Some(id) && (forall j :: 0 <= j < k ==> rows[j].id != Some(id)) ==>
      r == rows[..k] + rows[k + 1..]
    ensures Count(r, HasId(id)) == if Count(rows, HasId(id)) == 0 then 0 else Count(rows, HasId(id)) - 1
  {
    match FirstIndex(rows, HasId(id))
    case None => rows
    case Some(k) => CountRemoveSlices(rows, k, HasId(id)); rows[..k] + rows[k + 1..]
  }

  /** The user a fetch by email finds: the first row whose stored email is
      the lower-cased query. */
  function FindUser(users: seq<UserEntity>, email: string): (r: Option<UserEntity>)
    ensures r.None? <==> forall i :: 0 <= i < |users| ==> users[i].email != Some(Lower(email))
    ensures r.Some? ==> r.value.email == Some(Lower(email))
    ensures r.Some? ==>
      exists k :: 0 <= k < |users| && users[k] == r.value &&
        (forall j :: 0 <= j < k ==> users[j].email != Some(Lower(email)))
  {
    match FirstIndex(users, (u: UserEntity) => u.email == Some(Lower(email)))
    case None => None
    case Some(k) => Some(users[k])
  }

  /** A user appended with the lower-cased form of `email` is found by every
      query with the same lower-cased form; when no earlier row matched, it
      is the row found. */
  lemma {:induction false} FindAppendedUser(users: seq<UserEntity>, u: UserEntity, email: string, query: string)
    requires u.email == Some(Lower(email))
    requires Lower(query) == Lower(email)
    ensures FindUser(users + [u], query).Some?
    ensures FindUser(users, query).None? ==> FindUser(users + [u], query) == Some(u)
    ensures FindUser(users, query).Some? ==> FindUser(users + [u], query) == FindUser(users, query)
  {
    var s := users + [u];
    assert s[|users|] == u;
    if FindUser(users, query).Some? {
      var k :| 0 <= k < |users| && users[k] == FindUser(users, query).value &&
        (forall j :: 0 <= j < k ==> users[j].email != Some(Lower(query)));
      assert s[k] == users[k];
      var r := FindUser(s, query);
      var k' :| 0 <= k' < |s| && s[k'] == r.value &&
        (forall j :: 0 <= j < k' ==> s[j].email != Some(Lower(query)));
      assert !(k < k');
    } else {
      var r := FindUser(s, query);
      var k' :| 0 <= k' < |s| && s[k'] == r.value &&
        (forall j :: 0 <= j < k' ==> s[j].email != Some(Lower(query)));
    }
  }

  /** `PersistenceController`: the context's business and user tables, what
      the last `save` committed, and the context's `hasChanges` flag. */
  class PersistenceController {
    var businesses: seq<BusinessEntity>
    var users: seq<UserEntity>
    var committedBusinesses: seq<BusinessEntity>
    var committedUsers: seq<UserEntity>
    var hasChanges: bool

    /** A context without changes holds exactly what was committed. */
    ghost predicate Valid()
      reads this
    {
      !hasChanges ==> committedBusinesses == businesses && committedUsers == users
    }

    /** Opens the store with the rows it already holds on disk. */
    constructor(storedBusinesses: seq<BusinessEntity>, storedUsers: seq<UserEntity>)
      ensures Valid() && !hasChanges
      ensures businesses == storedBusinesses && users == storedUsers
    {
      businesses := storedBusinesses;
      users := storedUsers;
      committedBusinesses := storedBusinesses;
      committedUsers := storedUsers;
      hasChanges := false;
    }

    /** `save`: commits the context only when it has changes. */
    method Save()
      requires Valid()
      modifies this
      ensures Valid() && !hasChanges
      ensures businesses == old(businesses) && users == old(users)
      ensures committedBusinesses == businesses && committedUsers == users
    {
      if hasChanges {
        committedBusinesses := businesses;
        committedUsers := users;
        hasChanges := false;
      }
    }

    /** `fetchBusinesses`: every business row of the context. */
    function FetchBusinesses(): seq<BusinessEntity>
      reads this
    {
      businesses
    }

    /** `addBusiness`: inserts the row for `b` and saves. */
    method AddBusiness(b: Business)
      requires Valid() && IsInt32(b.reviewCount)
      modifies this
      ensures Valid() && !hasChanges
      ensures businesses == old(businesses) + [ToEntity(b)]
      ensures users == old(users)
      ensures committedBusinesses == businesses && committedUsers == users
    {
      businesses := businesses + [ToEntity(b)];
      hasChanges := true;
      Save();
    }

    /** `deleteBusiness`: deletes the first row with the business's id and
      saves; with no such row nothing changes. */
    method DeleteBusiness(b: Business)
      requires Valid()
      modifies this
      ensures Valid()
      ensures businesses == WithoutFirstId(old(businesses), b.id)
      ensures users == old(users)
      ensures FirstIndex(old(businesses), HasId(b.id)).None? ==>
        committedBusinesses == old(committedBusinesses) && hasChanges == old(hasChanges)
      ensures FirstIndex(old(businesses), HasId(b.id)).Some? ==>
        !hasChanges && committedBusinesses == businesses && committedUsers == users
    {
      var results := FirstIndex(businesses, HasId(b.id));
      if results.Some? {
        businesses := RemoveAt(businesses, results.value);
        hasChanges := true;
        Save();
      }
    }

    /** `deleteAllBusinesses`: fetches every row, deletes each one, then
      saves. */
    method DeleteAllBusinesses()
      requires Valid()
      modifies this
      ensures Valid() && !hasChanges
      ensures FetchBusinesses() == []
      ensures users == old(users)
      ensures committedBusinesses == [] && committedUsers == users
    {
      var results := businesses;
      var i := 0;
      while i < |results|
        invariant 0 <= i <= |results|
        invariant businesses == results[i..]
        invariant users == old(users)
        invariant Valid()
      {
        var entity := results[i];
        assert businesses[0] == entity;
        businesses := RemoveFirst(businesses, (e: BusinessEntity) => e == entity);
        hasChanges := true;
        i := i + 1;
      }
      Save();
    }

    /** `fetchUser(email:)`: the first user row whose email is the
      lower-cased query. */
    function FetchUser(email: string): Option<UserEntity>
      reads this
    {
      FindUser(users, email)
    }

    /** `createUser`: inserts a user row with the lower-cased email and the
      password and name as given, saves, and returns the row. The fresh
      identifier and the creation time are parameters. */
    method CreateUser(email: string, password: string, name: string, newId: string, now: Date)
      returns (r: Option<UserEntity>)
      requires Valid()
      modifies this
      ensures Valid() && !hasChanges
      ensures r == Some(UserEntity(Some(newId), Some(Lower(email)), Some(password), Some(name), Some(now)))
      ensures users == old(users) + [r.value]
      ensures businesses == old(businesses)
      ensures committedBusinesses == businesses && committedUsers == users
    {
      var entity := UserEntity(Some(newId), Some(Lower(email)), Some(password), Some(name), Some(now));
      users := users + [entity];
      hasChanges := true;
      Save();
      r := Some(entity);
    }

    /** `deleteUser`: deletes the user row and saves; every other row stays
      in place. */
    method DeleteUser(user: UserEntity)
      requires Valid()
      modifies this
      ensures Valid() && !hasChanges
      ensures users == RemoveFirst(old(users), (u: UserEntity) => u == user)
      ensures businesses == old(businesses)
      ensures committedBusinesses == businesses && committedUsers == users
    {
      var i := FirstIndex(users, (u: UserEntity) => u == user);
      if i.Some? {
        users := RemoveAt(users, i.value);
        hasChanges := true;
      }
      Save();
    }
  }
}
