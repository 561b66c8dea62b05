/** The directory service (Services/BusinessService.swift): the in-memory
    list of businesses loaded from the store, its re-sorting by the selected
    filter, the text and category search, and the add, delete and update
    operations that go through the store. */
module Directory {
  import opened Common
  import opened BusinessModel
  import opened Persistence

  /** `BusinessFilter`: the order the list is shown in. */
  datatype BusinessFilter = Nearest | TopRated | Newest

  /** The menu title of a filter. */
  function Title(f: BusinessFilter): string {
    match f
    case Nearest => "Más cercanos"
    case TopRated => "Mejor valorados"
    case Newest => "Más recientes"
  }

  /** The SF Symbol beside a filter's title. */
  function FilterIcon(f: BusinessFilter): string {
    match f
    case Nearest => "location.fill"
    case TopRated => "star.fill"
    case Newest => "clock.fill"
  }

  /** The three menu entries can be told apart by title and by symbol. */
  lemma FilterLabelsDistinct(a: BusinessFilter, b: BusinessFilter)
    requires a != b
    ensures Title(a) != Title(b) && FilterIcon(a) != FilterIcon(b)
  {
  }

  // ---------------------------------------------------------------------------
  // From stored rows to businesses
  // ---------------------------------------------------------------------------

  /** `convertToBusiness`: a stored row as a business. Missing strings become
      "", a missing or unknown category becomes `other`, a missing id is
      replaced by `freshId` and missing dates by `now`; `socialMedia` is
      empty and `distance` is known exactly when the user's location is. */
  function ConvertToBusiness(e: BusinessEntity, here: Option<Coordinate>,
                             dist: (Coordinate, Coordinate) -> real, freshId: string, now: Date): (b: Business)
    ensures b.id == (if e.id.Some? then e.id.value else freshId)
    ensures b.ownerId == (if e.ownerId.Some? then e.ownerId.value else "")
    ensures b.name == (if e.name.Some? then e.name.value else "")
    ensures b.description == (if e.businessDescription.Some? then e.businessDescription.value else "")
    ensures b.address == (if e.address.Some? then e.address.value else "")
    ensures e.category.None? ==> b.category == Other
    ensures e.category.Some? && CategoryFromRawValue(e.category.value).None? ==> b.category == Other
    ensures e.category.Some? && CategoryFromRawValue(e.category.value).Some? ==>
      CategoryRawValue(b.category) == e.category.value
    ensures b.location == Coordinate(e.latitude, e.longitude)
    ensures b.phone == e.phone && b.email == e.email && b.website == e.website
    ensures b.socialMedia == map[]
    ensures b.images == (if e.images.Some? then e.images.value else [])
    ensures b.rating == e.rating && b.reviewCount == e.reviewCount
    ensures b.createdAt == (if e.createdAt.Some? then e.createdAt.value else now)
    ensures b.updatedAt == (if e.updatedAt.Some? then e.updatedAt.value else now)
    ensures b.distance.Some? <==> here.Some?
    ensures here.Some? ==> b.distance.value == dist(b.location, here.value)
  {
    var location := Coordinate(e.latitude, e.longitude);
    var business := Business(
      e.id.GetOr(freshId),
      e.ownerId.GetOr(""),
      e.name.GetOr(""),
      e.businessDescription.GetOr(""),
      CategoryFromRawValue(e.category.GetOr("other")).GetOr(Other),
      location,
      e.address.GetOr(""),
      e.phone, e.email, e.website,
      map[],
      e.images.GetOr([]),
      e.rating,
      e.reviewCount,
      e.createdAt.GetOr(now),
      e.updatedAt.GetOr(now),
      None);
    if here.Some? then business.(distance := Some(dist(location, here.value))) else business
  }

  /** What a business looks like after a trip through the store: no social
      media, the stored images, and the distance from `here` when known. */
  function Reloaded(b: Business, here: Option<Coordinate>, dist: (Coordinate, Coordinate) -> real): Business {
    b.(socialMedia := map[], images := StoredImages(b),
       distance := if here.Some? then Some(dist(b.location, here.value)) else None)
  }

  /** Storing a business and converting the row back gives the business
      again, except for what the store does not keep. */
  lemma ConvertStoredBusiness(b: Business, here: Option<Coordinate>, dist: (Coordinate, Coordinate) -> real,
                              freshId: string, now: Date)
    requires IsInt32(b.reviewCount)
    ensures ConvertToBusiness(ToEntity(b), here, dist, freshId, now) == Reloaded(b, here, dist)
  {
    CategoryRawValueRoundTrip(b.category);
  }

  /** `entities.map { convertToBusiness($0) }`; the i-th fresh identifier
      stands in for the `UUID()` drawn for the i-th row. */
  function ConvertAll(es: seq<BusinessEntity>, here: Option<Coordinate>,
                      dist: (Coordinate, Coordinate) -> real, freshId: nat -> string, now: Date): (bs: seq<Business>)
    ensures |bs| == |es|
    ensures forall i :: 0 <= i < |es| ==> bs[i] == ConvertToBusiness(es[i], here, dist, freshId(i), now)
  {
    seq(|es|, i requires 0 <= i < |es| => ConvertToBusiness(es[i], here, dist, freshId(i), now))
  }

  // ---------------------------------------------------------------------------
  // Sorting by the selected filter
  // ---------------------------------------------------------------------------

  /** The comparator `applyFilter` hands to `sort(by:)`. With no user
      location the nearest-first comparator never answers "less". Each one
      is a strict order: no two businesses are each less than the other. */
  function Comparator(f: BusinessFilter, here: Option<Coordinate>,
                      dist: (Coordinate, Coordinate) -> real): (less: (Business, Business) -> bool)
    ensures forall b1, b2 :: less(b1, b2) ==> !less(b2, b1)
  {
    match f
    case Nearest =>
      (b1: Business, b2: Business) => here.Some? && dist(b1.location, here.value) < dist(b2.location, here.value)
    case TopRated => (b1: Business, b2: Business) => b1.rating > b2.rating
    case Newest => (b1: Business, b2: Business) => b1.createdAt > b2.createdAt
  }

  /** The list after `applyFilter`: a permutation of `bs` ordered by the
      filter's key; nearest-first without a user location keeps the order. */
  function Arrange(bs: seq<Business>, f: BusinessFilter, here: Option<Coordinate>,
                   dist: (Coordinate, Coordinate) -> real): (r: seq<Business>)
    ensures multiset(r) == multiset(bs)
    ensures f == TopRated ==> forall i, j :: 0 <= i < j < |r| ==> r[i].rating >= r[j].rating
    ensures f == Newest ==> forall i, j :: 0 <= i < j < |r| ==> r[i].createdAt >= r[j].createdAt
    ensures f == Nearest && here.Some? ==>
      forall i, j :: 0 <= i < j < |r| ==> dist(r[i].location, here.value) <= dist(r[j].location, here.value)
    ensures f == Nearest && here.None? ==> r == bs
  {
    var less := Comparator(f, here, dist);
    match f
    case Nearest =>
      if here.Some? then
        SortBySortsByKey(bs, less, (b: Business) => dist(b.location, here.value));
        SortBy(bs, less)
      else
        SortOfSorted(bs, less);
        SortBy(bs, less)
    case TopRated =>
      SortBySortsByKey(bs, less, (b: Business) => -b.rating);
      SortBy(bs, less)
    case Newest =>
      SortBySortsByKey(bs, less, (b: Business) => -(b.createdAt as real));
      SortBy(bs, less)
  }

  /** Re-applying a filter to a list it has already ordered changes
      nothing. */
  lemma {:induction false} ArrangeIdempotent(bs: seq<Business>, f: BusinessFilter, here: Option<Coordinate>,
                                             dist: (Coordinate, Coordinate) -> real)
    ensures Arrange(Arrange(bs, f, here, dist), f, here, dist) == Arrange(bs, f, here, dist)
  {
    var less := Comparator(f, here, dist);
    match f
    case Nearest =>
      if here.Some? {
        SortByIdempotent(bs, less, (b: Business) => dist(b.location, here.value));
      }
    case TopRated =>
      SortByIdempotent(bs, less, (b: Business) => -b.rating);
    case Newest =>
      SortByIdempotent(bs, less, (b: Business) => -(b.createdAt as real));
  }

  /** `businesses.map { ... distance = location.distance(from: loc) }`:
      every business gets its distance from `loc`, and nothing else
      changes. */
  function WithDistances(bs: seq<Business>, loc: Coordinate, dist: (Coordinate, Coordinate) -> real): (r: seq<Business>)
    ensures |r| == |bs|
    ensures forall i :: 0 <= i < |bs| ==> r[i].(distance := bs[i].distance) == bs[i]
    ensures forall i :: 0 <= i < |bs| ==> r[i].distance == Some(dist(r[i].location, loc))
  {
    seq(|bs|, i requires 0 <= i < |bs| => bs[i].(distance := Some(dist(bs[i].location, loc))))
  }

  // ---------------------------------------------------------------------------
  // Search
  // ---------------------------------------------------------------------------

  /** Whether a business passes the search: the text, when there is one,
      occurs case-insensitively in its name or its description, and the
      category, when there is one, is its category. */
  predicate Selected(b: Business, searchText: string, category: Option<BusinessCategory>) {
    (searchText == [] || ContainsIgnoringCase(b.name, searchText) || ContainsIgnoringCase(b.description, searchText)) &&
    (category.None? || b.category == category.value)
  }

  /** The text filter of the search, as a predicate. */
  function MatchesText(searchText: string): Business -> bool {
    (b: Business) => ContainsIgnoringCase(b.name, searchText) || ContainsIgnoringCase(b.description, searchText)
  }

  /** The category filter of the search, as a predicate. */
  function InCategory(c: BusinessCategory): Business -> bool {
    (b: Business) => b.category == c
  }

  /** `filteredBusinesses(searchText:category:)`: the text filter, then the
      category filter, on a copy of the list. */
  function FilterBusinesses(bs: seq<Business>, searchText: string, category: Option<BusinessCategory>): (r: seq<Business>)
    ensures IsSubsequence(r, bs)
    ensures forall i :: 0 <= i < |r| ==> Selected(r[i], searchText, category)
    ensures forall i :: 0 <= i < |bs| && Selected(bs[i], searchText, category) ==> bs[i] in r
    ensures searchText == [] && category.None? ==> r == bs
  {
    var byText := if searchText == [] then bs else Filter(bs, MatchesText(searchText));
    var r := if category.Some? then Filter(byText, InCategory(category.value)) else byText;
    SubsequenceReflexive(bs);
    SubsequenceReflexive(byText);
    SubsequenceTransitive(r, byText, bs);
    r
  }

  /** `Selected` as a predicate. */
  function SelectedBy(searchText: string, category: Option<BusinessCategory>): Business -> bool {
    (b: Business) => Selected(b, searchText, category)
  }

  /** The search as one filter by `Selected`. */
  lemma {:induction false} FilterBusinessesIsSelection(bs: seq<Business>, searchText: string, category: Option<BusinessCategory>)
    ensures FilterBusinesses(bs, searchText, category) == Filter(bs, SelectedBy(searchText, category))
  {
    var sel := SelectedBy(searchText, category);
    if category.Some? {
      var cat := InCategory(category.value);
      if searchText == [] {
        FilterExtensional(bs, cat, sel);
      } else {
        var text := MatchesText(searchText);
        FilterFuse(bs, text, cat);
        FilterExtensional(bs, Both(text, cat), sel);
      }
    } else if searchText != [] {
      FilterExtensional(bs, MatchesText(searchText), sel);
    }
  }

  /** Text and category filtering commute: choosing the category first and
      searching the text second gives the same list. */
  lemma {:induction false} SearchFiltersCommute(bs: seq<Business>, searchText: string, category: Option<BusinessCategory>)
    ensures FilterBusinesses(bs, searchText, category) ==
      FilterBusinesses(FilterBusinesses(bs, [], category), searchText, None)
  {
    if category.Some? && searchText != [] {
      FilterCommutes(bs, MatchesText(searchText), InCategory(category.value));
    }
  }

  // ---------------------------------------------------------------------------
  // The service
  // ---------------------------------------------------------------------------

  /** The `hasLoadedInitialData` entry of the user defaults. */
  class AppDefaults {
    var hasLoadedInitialData: bool

    constructor(hasLoadedInitialData: bool)
      ensures this.hasLoadedInitialData == hasLoadedInitialData
    {
      this.hasLoadedInitialData := hasLoadedInitialData;
    }
  }

  /** `BusinessService`: the list on screen, the selected filter, the user's
      location once known, the store it reads from and writes to, and the
      distance function of the location framework. */
  class BusinessService {
    var businesses: seq<Business>
    var selectedFilter: BusinessFilter
    var userLocation: Option<Coordinate>
    const store: PersistenceController
    const dist: (Coordinate, Coordinate) -> real

    ghost predicate Valid()
      reads this, store
    {
      store.Valid()
    }

    /** The list a reload shows: the store's rows converted, then ordered by
      the selected filter. */
    ghost function Listing(now: Date, freshId: nat -> string): seq<Business>
      reads this, store
    {
      Arrange(ConvertAll(store.businesses, userLocation, dist, freshId, now), selectedFilter, userLocation, dist)
    }

    /** `init`: on the first run empties the store, seeds it with `samples`
      and sets the flag; then loads from the store. */
    constructor(store: PersistenceController, dist: (Coordinate, Coordinate) -> real, defaults: AppDefaults,
                samples: seq<Business>, now: Date, freshId: nat -> string)
      requires store.Valid()
      requires forall i :: 0 <= i < |samples| ==> IsInt32(samples[i].reviewCount)
      modifies store, defaults
      ensures this.store == store && this.dist == dist && Valid()
      ensures selectedFilter == Nearest && userLocation == None
      ensures defaults.hasLoadedInitialData
      ensures old(defaults.hasLoadedInitialData) ==> store.businesses == old(store.businesses)
      ensures !old(defaults.hasLoadedInitialData) ==> store.businesses == ToEntities(samples)
      ensures store.users == old(store.users)
      ensures businesses == ConvertAll(store.businesses, None, dist, freshId, now)
    {
      this.store := store;
      this.dist := dist;
      businesses := [];
      selectedFilter := Nearest;
      userLocation := None;
      new;
      if !defaults.hasLoadedInitialData {
        store.DeleteAllBusinesses();
        LoadSampleBusinesses(samples, now, freshId);
        defaults.hasLoadedInitialData := true;
      }
      LoadBusinessesFromCoreData(now, freshId);
    }

    /** `loadBusinessesFromCoreData`: converts every stored row and re-sorts
      by the selected filter. */
    method LoadBusinessesFromCoreData(now: Date, freshId: nat -> string)
      requires Valid()
      modifies this
      ensures Valid()
      ensures selectedFilter == old(selectedFilter) && userLocation == old(userLocation)
      ensures businesses == Listing(now, freshId)
    {
      var entities := store.FetchBusinesses();
      businesses := ConvertAll(entities, userLocation, dist, freshId, now);
      ApplyFilter();
    }

    /** `loadSampleBusinesses`: adds each sample to the store in turn, then
      reloads. */
    method LoadSampleBusinesses(samples: seq<Business>, now: Date, freshId: nat -> string)
      requires Valid()
      requires forall i :: 0 <= i < |samples| ==> IsInt32(samples[i].reviewCount)
      modifies this, store
      ensures Valid()
      ensures store.businesses == old(store.businesses) + ToEntities(samples)
      ensures store.users == old(store.users)
      ensures selectedFilter == old(selectedFilter) && userLocation == old(userLocation)
      ensures businesses == Listing(now, freshId)
    {
      var i := 0;
      while i < |samples|
        invariant 0 <= i <= |samples|
        invariant store.Valid()
        invariant store.businesses == old(store.businesses) + ToEntities(samples[..i])
        invariant store.users == old(store.users)
        invariant selectedFilter == old(selectedFilter) && userLocation == old(userLocation)
      {
        store.AddBusiness(samples[i]);
        assert ToEntities(samples[..i + 1]) == ToEntities(samples[..i]) + [ToEntity(samples[i])];
        i := i + 1;
      }
      assert samples[..i] == samples;
      LoadBusinessesFromCoreData(now, freshId);
    }

    /** `addBusiness`: stores the business and reloads, so the business as
      the store keeps it is on the list. */
    method AddBusiness(b: Business, now: Date, freshId: nat -> string)
      requires Valid() && IsInt32(b.reviewCount)
      modifies this, store
      ensures Valid()
      ensures store.businesses == old(store.businesses) + [ToEntity(b)]
      ensures store.users == old(store.users)
      ensures selectedFilter == old(selectedFilter) && userLocation == old(userLocation)
      ensures businesses == Listing(now, freshId)
      ensures Reloaded(b, userLocation, dist) in businesses
    {
      store.AddBusiness(b);
      LoadBusinessesFromCoreData(now, freshId);
      ListedAfterStore(b, now, freshId);
    }

    /** The last stored row, converted, is on the reloaded list. */
    lemma ListedAfterStore(b: Business, now: Date, freshId: nat -> string)
      requires IsInt32(b.reviewCount)
      requires |store.businesses| > 0 && store.businesses[|store.businesses| - 1] == ToEntity(b)
      ensures Reloaded(b, userLocation, dist) in Listing(now, freshId)
    {
      var converted := ConvertAll(store.businesses, userLocation, dist, freshId, now);
      var last := |store.businesses| - 1;
      ConvertStoredBusiness(b, userLocation, dist, freshId(last), now);
      assert converted[last] == Reloaded(b, userLocation, dist);
      assert Reloaded(b, userLocation, dist) in multiset(converted);
    }

    /** `deleteBusiness`: deletes the first stored row with the business's
      id and reloads. */
    method DeleteBusiness(b: Business, now: Date, freshId: nat -> string)
      requires Valid()
      modifies this, store
      ensures Valid()
      ensures store.businesses == WithoutFirstId(old(store.businesses), b.id)
      ensures store.users == old(store.users)
      ensures selectedFilter == old(selectedFilter) && userLocation == old(userLocation)
      ensures businesses == Listing(now, freshId)
    {
      store.DeleteBusiness(b);
      LoadBusinessesFromCoreData(now, freshId);
    }

    /** `updateBusiness`: deletes the old row, stores the new one and
      reloads. */
    method UpdateBusiness(b: Business, now: Date, freshId: nat -> string)
      requires Valid() && IsInt32(b.reviewCount)
      modifies this, store
      ensures Valid()
      ensures store.businesses == WithoutFirstId(old(store.businesses), b.id) + [ToEntity(b)]
      ensures store.users == old(store.users)
      ensures selectedFilter == old(selectedFilter) && userLocation == old(userLocation)
      ensures businesses == Listing(now, freshId)
      ensures Reloaded(b, userLocation, dist) in businesses
    {
      store.DeleteBusiness(b);
      store.AddBusiness(b);
      LoadBusinessesFromCoreData(now, freshId);
      ListedAfterStore(b, now, freshId);
    }

    /** `applyFilter`: re-sorts the list in place by the selected filter. */
    method ApplyFilter()
      modifies this
      ensures businesses == Arrange(old(businesses), selectedFilter, userLocation, dist)
      ensures selectedFilter == old(selectedFilter) && userLocation == old(userLocation)
    {
      businesses := SortBy(businesses, Comparator(selectedFilter, userLocation, dist));
    }

    /** `updateUserLocation`: records the location, gives every business its
      distance from it, and re-sorts only under nearest-first. */
    method UpdateUserLocation(loc: Coordinate)
      modifies this
      ensures userLocation == Some(loc) && selectedFilter == old(selectedFilter)
      ensures selectedFilter != Nearest ==> businesses == WithDistances(old(businesses), loc, dist)
      ensures selectedFilter == Nearest ==>
        businesses == Arrange(WithDistances(old(businesses), loc, dist), Nearest, Some(loc), dist)
    {
      userLocation := Some(loc);
      businesses := WithDistances(businesses, loc, dist);
      if selectedFilter == Nearest {
        ApplyFilter();
      }
    }
  }

  /** Updating a business whose id was on at most one row leaves exactly one
      row with that id. */
  lemma {:induction false} UpdateKeepsOneRow(rows: seq<BusinessEntity>, b: Business)
    requires IsInt32(b.reviewCount)
    requires Count(rows, HasId(b.id)) <= 1
    ensures Count(WithoutFirstId(rows, b.id) + [ToEntity(b)], HasId(b.id)) == 1
  {
    CountAppend(WithoutFirstId(rows, b.id), [ToEntity(b)], HasId(b.id));
    assert [ToEntity(b)][1..] == [];
  }
}
