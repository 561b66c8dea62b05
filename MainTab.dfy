/** The two list tabs (Views/MainTabView.swift): the explore tab, which
    searches, narrows by category and orders the directory, and the tab
    listing the signed-in user's own businesses. Each tab owns its own
    business service. */
module MainTab {
  import opened Common
  import opened BusinessModel
  import opened Persistence
  import opened Directory
  import opened Authentication

  /** The location the explore tab starts from (Monterrey). */
  const DefaultLocation := Coordinate(25.6714, -100.3089)

  /** Tapping a category chip: the selected chip is cleared, any other chip
      becomes the only selected one. */
  function ToggleCategory(selected: Option<BusinessCategory>, c: BusinessCategory): (r: Option<BusinessCategory>)
    ensures selected == Some(c) ==> r.None?
    ensures selected != Some(c) ==> r == Some(c)
  {
    if selected == Some(c) then None else Some(c)
  }

  /** Tapping the same chip twice restores a selection of that chip or of
      none, and otherwise leaves no chip selected. */
  lemma ToggleCategoryTwice(selected: Option<BusinessCategory>, c: BusinessCategory)
    ensures selected.None? || selected == Some(c) ==> ToggleCategory(ToggleCategory(selected, c), c) == selected
    ensures selected.Some? && selected != Some(c) ==> ToggleCategory(ToggleCategory(selected, c), c).None?
  {
  }

  /** Whether a business belongs to the signed-in user; nobody signed in owns
      nothing, since an owner id never equals an absent user id. */
  function OwnedBy(current: Option<User>): Business -> bool {
    (b: Business) => current.Some? && b.ownerId == current.value.id
  }

  /** `userBusinesses`: every listed business whose owner is the signed-in
      user, in list order, each as often as it is listed. */
  function UserBusinesses(bs: seq<Business>, current: Option<User>): (r: seq<Business>)
    ensures IsSubsequence(r, bs)
    ensures |r| == Count(bs, OwnedBy(current))
    ensures current.None? ==> r == []
    ensures current.Some? ==> forall i :: 0 <= i < |r| ==> r[i].ownerId == current.value.id
    ensures current.Some? ==> forall i :: 0 <= i < |bs| && bs[i].ownerId == current.value.id ==> bs[i] in r
  {
    Filter(bs, OwnedBy(current))
  }

  /** `ExploreView`: the search text, the selected category chip and the
      location handed to the service when the tab appears. */
  class ExploreScreen {
    var searchText: string
    var selectedCategory: Option<BusinessCategory>
    var userLocation: Coordinate
    const service: BusinessService

    constructor(service: BusinessService)
      ensures this.service == service
      ensures searchText == "" && selectedCategory == None && userLocation == DefaultLocation
    {
      this.service := service;
      searchText := "";
      selectedCategory := None;
      userLocation := DefaultLocation;
    }

    /** `filteredBusinesses`: what the list shows, in the service's order. */
    function FilteredBusinesses(): (r: seq<Business>)
      reads this, service
      ensures r == Filter(service.businesses, SelectedBy(searchText, selectedCategory))
      ensures |r| == Count(service.businesses, SelectedBy(searchText, selectedCategory))
      ensures IsSubsequence(r, service.businesses)
      ensures forall i :: 0 <= i < |r| ==> Selected(r[i], searchText, selectedCategory)
      ensures forall i :: 0 <= i < |service.businesses| && Selected(service.businesses[i], searchText, selectedCategory) ==>
        service.businesses[i] in r
    {
      FilterBusinessesIsSelection(service.businesses, searchText, selectedCategory);
      FilterBusinesses(service.businesses, searchText, selectedCategory)
    }

    /** A category chip's action. */
    method TapCategory(c: BusinessCategory)
      modifies this
      ensures selectedCategory == ToggleCategory(old(selectedCategory), c)
      ensures searchText == old(searchText) && userLocation == old(userLocation)
    {
      if selectedCategory == Some(c) {
        selectedCategory := None;
      } else {
        selectedCategory := Some(c);
      }
    }

    /** A filter menu entry's action: selects the filter, then re-sorts. */
    method ChooseFilter(f: BusinessFilter)
      modifies service
      ensures service.selectedFilter == f && service.userLocation == old(service.userLocation)
      ensures service.businesses == Arrange(old(service.businesses), f, service.userLocation, service.dist)
    {
      service.selectedFilter := f;
      service.ApplyFilter();
    }

    /** `onAppear`: hands the tab's location to the service. */
    method Appear()
      modifies service
      ensures service.userLocation == Some(userLocation)
      ensures service.selectedFilter == old(service.selectedFilter)
      ensures service.selectedFilter != Nearest ==>
        service.businesses == WithDistances(old(service.businesses), userLocation, service.dist)
      ensures service.selectedFilter == Nearest ==>
        service.businesses ==
          Arrange(WithDistances(old(service.businesses), userLocation, service.dist), Nearest, Some(userLocation), service.dist)
    {
      service.UpdateUserLocation(userLocation);
    }
  }

  /** `MyBusinessView`: the signed-in user's businesses, from the tab's own
      service. */
  class MyBusinessScreen {
    const service: BusinessService
    const auth: AuthenticationModel

    constructor(service: BusinessService, auth: AuthenticationModel)
      ensures this.service == service && this.auth == auth
    {
      this.service := service;
      this.auth := auth;
    }

    /** The rows the tab lists. */
    function Listed(): (r: seq<Business>)
      reads this, service, auth
      ensures IsSubsequence(r, service.businesses)
    {
      UserBusinesses(service.businesses, auth.currentUser)
    }

    /** `onAppear`, and the dismissal of the add-business sheet: reloads the
      service from the store. */
    method Reload(now: Date, freshId: nat -> string)
      requires service.Valid()
      modifies service
      ensures service.Valid()
      ensures service.selectedFilter == old(service.selectedFilter) && service.userLocation == old(service.userLocation)
      ensures service.businesses == service.Listing(now, freshId)
    {
      service.LoadBusinessesFromCoreData(now, freshId);
    }

    /** `deleteBusinesses(at:)` for the one row a swipe deletes: the row's
      business is deleted from the store by its id and the list reloads. */
    method DeleteBusinessAt(index: nat, now: Date, freshId: nat -> string)
      requires service.Valid()
      requires index < |Listed()|
      modifies service, service.store
      ensures service.Valid()
      ensures service.store.businesses == WithoutFirstId(old(service.store.businesses), old(Listed())[index].id)
      ensures service.store.users == old(service.store.users)
      ensures service.selectedFilter == old(service.selectedFilter) && service.userLocation == old(service.userLocation)
      ensures service.businesses == service.Listing(now, freshId)
      ensures old(Listed())[index].ownerId == auth.currentUser.value.id
    {
      var business := Listed()[index];
      service.DeleteBusiness(business, now, freshId);
    }
  }
}
