/** The domain records (Models/Business.swift): the closed set of business
    categories with their raw values, symbols and display names, and the
    business record itself. */
module BusinessModel {
  import opened Common
  import L = Localizable

  /** A point in time, as an abstract instant (seconds on some fixed clock). */
  type Date = int

  /** A latitude/longitude pair (`CLLocation` reduced to its coordinate). */
  datatype Coordinate = Coordinate(latitude: real, longitude: real)

  datatype BusinessCategory = Food | Retail | Services | Entertainment | Other

  /** `BusinessCategory.allCases`, in declaration order. */
  function AllCases(): (r: seq<BusinessCategory>)
    ensures |r| == 5
    ensures forall c :: c in r
    ensures forall i, j :: 0 <= i < j < |r| ==> r[i] != r[j]
    ensures r[0] == Food && r[4] == Other
  {
    var r := [Food, Retail, Services, Entertainment, Other];
    assert forall c :: c in r by {
      forall c ensures c in r {
        assert r[CategoryIndex(c)] == c;
      }
    }
    r
  }

  /** The position of a category in declaration order. */
  function CategoryIndex(c: BusinessCategory): (i: nat)
    ensures i < 5
  {
    match c
    case Food => 0
    case Retail => 1
    case Services => 2
    case Entertainment => 3
    case Other => 4
  }

  /** The raw value of a category is its case name. */
  function CategoryRawValue(c: BusinessCategory): string {
    match c
    case Food => "food"
    case Retail => "retail"
    case Services => "services"
    case Entertainment => "entertainment"
    case Other => "other"
  }

  /** `BusinessCategory(rawValue:)`: the category with that raw value, if any. */
  function CategoryFromRawValue(s: string): (r: Option<BusinessCategory>)
    ensures r.Some? ==> CategoryRawValue(r.value) == s
    ensures r.None? <==> forall c :: CategoryRawValue(c) != s
  {
    if s == "food" then Some(Food)
    else if s == "retail" then Some(Retail)
    else if s == "services" then Some(Services)
    else if s == "entertainment" then Some(Entertainment)
    else if s == "other" then Some(Other)
    else None
  }

  lemma CategoryRawValueRoundTrip(c: BusinessCategory)
    ensures CategoryFromRawValue(CategoryRawValue(c)) == Some(c)
  {
  }

  /** `icon`: the SF Symbol shown beside a category. */
  function Icon(c: BusinessCategory): string {
    match c
    case Food => "fork.knife"
    case Retail => "cart"
    case Services => "wrench.and.screwdriver"
    case Entertainment => "star"
    case Other => "ellipsis"
  }

  /** Distinct categories get distinct symbols. */
  lemma IconsDistinct(a: BusinessCategory, b: BusinessCategory)
    requires a != b
    ensures Icon(a) != Icon(b)
  {
  }

  /** The message key that names a category. */
  function CategoryKey(c: BusinessCategory): L.LocalizedStringKey {
    match c
    case Food => L.Food
    case Retail => L.Retail
    case Services => L.Services
    case Entertainment => L.Entertainment
    case Other => L.Other
  }

  /** The key naming a category is the one of the same name: its raw value
      is "category_" followed by the category's raw value. */
  lemma CategoryKeyName(c: BusinessCategory)
    ensures L.RawValue(CategoryKey(c)) == "category_" + CategoryRawValue(c)
  {
    match c
    case Food => assert L.RawValue(L.Food) == "category_food" == "category_" + "food";
    case Retail => assert L.RawValue(L.Retail) == "category_retail" == "category_" + "retail";
    case Services => assert L.RawValue(L.Services) == "category_services" == "category_" + "services";
    case Entertainment =>
      assert L.RawValue(L.Entertainment) == "category_entertainment" == "category_" + "entertainment";
    case Other => assert L.RawValue(L.Other) == "category_other" == "category_" + "other";
  }

  /** `localizedName`: the category's name in the given language (the
      language the shared language manager currently holds). */
  function LocalizedName(c: BusinessCategory, lang: L.Language): (r: string)
    ensures r != ""
    ensures r == L.Localized(CategoryKey(c), lang)
  {
    match c
    case Food => L.Localized(L.Food, lang)
    case Retail => L.Localized(L.Retail, lang)
    case Services => L.Localized(L.Services, lang)
    case Entertainment => L.Localized(L.Entertainment, lang)
    case Other => L.Localized(L.Other, lang)
  }

  /** The `Business` record. `distance` is derived (metres from the user) and
      is absent until a user location is known. */
  datatype Business = Business(
    id: string,
    ownerId: string,
    name: string,
    description: string,
    category: BusinessCategory,
    location: Coordinate,
    address: string,
    phone: Option<string>,
    email: Option<string>,
    website: Option<string>,
    socialMedia: map<string, string>,
    images: seq<string>,
    rating: real,
    reviewCount: int,
    createdAt: Date,
    updatedAt: Date,
    distance: Option<real>)

  /** `formattedDistance`. The number formatting ("%.0f", "%.1f") is the
      parameter `format(value, fractionDigits)`; the unit and the choice
      between metres and kilometres are modelled. */
  function FormattedDistance(distance: Option<real>, format: (real, nat) -> string): (r: string)
    ensures r == "" <==> distance.None?
    ensures distance.Some? && distance.value < 1000.0 ==> |r| >= 2 && r[|r| - 2..] == " m"
    ensures distance.Some? && distance.value >= 1000.0 ==> |r| >= 3 && r[|r| - 3..] == " km"
  {
    match distance
    case None => ""
    case Some(d) =>
      if d < 1000.0 then format(d, 0) + " m" else format(d / 1000.0, 1) + " km"
  }
}
