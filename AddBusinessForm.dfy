/** The form that registers a new business (Views/AddBusinessView.swift):
    which entries make it complete, how the location is obtained, and the
    record it hands to the business service. */
module AddBusinessForm {
  import opened Common
  import opened BusinessModel
  import opened Persistence
  import opened Directory
  import opened Authentication

  /** What the geocoder answers for a typed address: an error with its
      description, no placemark with a location, or a location. */
  datatype GeocodeResult = GeocodeFailed(description: string) | NoPlacemark | Located(location: Coordinate)

  /** What `saveBusiness` goes on to do: create the business at a location,
      show an alert, or nothing. */
  datatype SaveStep = CreateAt(location: Coordinate) | ShowAlert(message: string) | DoNothing

  /** The entries of the form. */
  datatype FormEntries = FormEntries(
    name: string, description: string, category: BusinessCategory, address: string, phone: string,
    email: string, website: string, selectedLocation: Option<Coordinate>)

  /** The image the form gives a new business, by category. */
  function FormDefaultImage(c: BusinessCategory): string {
    match c
    case Food => "comidas2"
    case Retail => "tiendita1"
    case Services => "tacos1"
    case Entertainment => "iguana1"
    case Other => "antojitos1"
  }

  /** `isValidForm`: a name, a description, a typed address or a picked
      location, and a phone number. */
  predicate IsValidForm(name: string, description: string, address: string, selected: Option<Coordinate>,
                        phone: string)
  {
    name != [] && description != [] && (address != [] || selected.Some?) && phone != []
  }

  /** The step `saveBusiness` takes. A typed address is geocoded only when no
      location was picked; a picked location is used as it is. */
  function NextStep(selected: Option<Coordinate>, address: string, geocode: GeocodeResult): (r: SaveStep)
    ensures selected.Some? ==> r == CreateAt(selected.value)
    ensures selected.None? && address == [] ==> r == DoNothing
    ensures selected.None? && address != [] && geocode.Located? ==> r == CreateAt(geocode.location)
    ensures selected.None? && address != [] && geocode.GeocodeFailed? ==>
      r == ShowAlert("No se pudo encontrar la ubicación: " + geocode.description)
    ensures selected.None? && address != [] && geocode.NoPlacemark? ==>
      r == ShowAlert("No se pudo determinar la ubicación de la dirección proporcionada")
  {
    if selected.None? && address != [] then
      match geocode
      case GeocodeFailed(d) => ShowAlert("No se pudo encontrar la ubicación: " + d)
      case Located(loc) => CreateAt(loc)
      case NoPlacemark => ShowAlert("No se pudo determinar la ubicación de la dirección proporcionada")
    else if selected.Some? then CreateAt(selected.value)
    else DoNothing
  }

  /** The geocoder's answer matters only when no location was picked and an
      address was typed. */
  lemma GeocodeOnlyForTypedAddress(selected: Option<Coordinate>, address: string, g1: GeocodeResult, g2: GeocodeResult)
    requires selected.Some? || address == []
    ensures NextStep(selected, address, g1) == NextStep(selected, address, g2)
  {
  }

  /** A complete form always leads somewhere: the save button, enabled only
      for a complete form, never does nothing. */
  lemma ValidFormActs(name: string, description: string, address: string, selected: Option<Coordinate>,
                      phone: string, geocode: GeocodeResult)
    requires IsValidForm(name, description, address, selected, phone)
    ensures NextStep(selected, address, geocode) != DoNothing
  {
  }

  /** The record `createBusiness` builds. Empty email and website entries
      become absent; the phone is kept as typed. The business has the
      category's default image, no rating, no reviews and no social links,
      and is created and updated at the same instant. */
  function NewBusiness(id: string, ownerId: string, name: string, description: string, category: BusinessCategory,
                       location: Coordinate, address: string, phone: string, email: string, website: string,
                       now: Date): (b: Business)
    ensures b.id == id && b.ownerId == ownerId && b.name == name && b.description == description
    ensures b.category == category && b.location == location && b.address == address
    ensures b.phone == Some(phone)
    ensures b.email.None? <==> email == []
    ensures b.email.Some? ==> b.email.value == email
    ensures b.website.None? <==> website == []
    ensures b.website.Some? ==> b.website.value == website
    ensures b.socialMedia == map[] && b.images == [FormDefaultImage(category)]
    ensures b.rating == 0.0 && b.reviewCount == 0 && IsInt32(b.reviewCount)
    ensures b.createdAt == now && b.updatedAt == now && b.distance.None?
  {
    Business(
      id, ownerId, name, description, category, location, address,
      Some(phone),
      if email == [] then None else Some(email),
      if website == [] then None else Some(website),
      map[], [FormDefaultImage(category)], 0.0, 0, now, now, None)
  }

  /** The record `createBusiness` builds from the form's entries for an
      owner. */
  function Draft(e: FormEntries, ownerId: string, location: Coordinate, newId: string, now: Date): (b: Business)
    ensures b.ownerId == ownerId && b.location == location && b.category == e.category
    ensures IsInt32(b.reviewCount)
  {
    NewBusiness(newId, ownerId, e.name, e.description, e.category, location, e.address, e.phone, e.email, e.website, now)
  }

  /** The state `AddBusinessView` keeps, with the session it reads the
      signed-in user from and the business service it owns. */
  class AddBusinessScreen {
    var name: string
    var description: string
    var category: BusinessCategory
    var address: string
    var phone: string
    var email: string
    var website: string
    var selectedLocation: Option<Coordinate>
    var showAlert: bool
    var alertMessage: string
    var dismissed: bool
    const auth: AuthenticationModel
    const service: BusinessService

    constructor(auth: AuthenticationModel, service: BusinessService)
      ensures this.auth == auth && this.service == service
      ensures name == "" && description == "" && category == Food
      ensures address == "" && phone == "" && email == "" && website == ""
      ensures selectedLocation == None && !showAlert && alertMessage == "" && !dismissed
    {
      this.auth := auth;
      this.service := service;
      name := "";
      description := "";
      category := Food;
      address := "";
      phone := "";
      email := "";
      website := "";
      selectedLocation := None;
      showAlert := false;
      alertMessage := "";
      dismissed := false;
    }

    /** What has been entered on the form. */
    function Entries(): FormEntries
      reads this
    {
      FormEntries(name, description, category, address, phone, email, website, selectedLocation)
    }

    /** Whether the save button is enabled. */
    predicate FormComplete()
      reads this
    {
      IsValidForm(name, description, address, selectedLocation, phone)
    }

    /** `saveBusiness`: takes the step `NextStep` names. The geocoder's answer
      is the parameter `geocode`; the identifier `UUID()` and the instant
      `Date()` are `newId` and `now`. */
    method SaveBusiness(geocode: GeocodeResult, newId: string, now: Date, freshId: nat -> string)
      requires service.Valid()
      modifies this, service, service.store
      ensures service.Valid()
      ensures Entries() == old(Entries())
      ensures service.store.users == old(service.store.users)
      ensures service.selectedFilter == old(service.selectedFilter) && service.userLocation == old(service.userLocation)
      ensures NextStep(selectedLocation, address, geocode).DoNothing? ==>
        showAlert == old(showAlert) && alertMessage == old(alertMessage) && dismissed == old(dismissed) &&
        service.store.businesses == old(service.store.businesses) && service.businesses == old(service.businesses)
      ensures NextStep(selectedLocation, address, geocode).ShowAlert? ==>
        showAlert && alertMessage == NextStep(selectedLocation, address, geocode).message &&
        dismissed == old(dismissed) && service.store.businesses == old(service.store.businesses) &&
        service.businesses == old(service.businesses)
      ensures NextStep(selectedLocation, address, geocode).CreateAt? && auth.currentUser.None? ==>
        showAlert && alertMessage == "Error de autenticación" && dismissed == old(dismissed) &&
        service.store.businesses == old(service.store.businesses) && service.businesses == old(service.businesses)
      ensures NextStep(selectedLocation, address, geocode).CreateAt? && auth.currentUser.Some? ==>
        dismissed && showAlert == old(showAlert) &&
        service.store.businesses == old(service.store.businesses) +
          [ToEntity(Draft(Entries(), auth.currentUser.value.id, NextStep(selectedLocation, address, geocode).location, newId, now))] &&
        service.businesses == service.Listing(now, freshId)
    {
      var step := NextStep(selectedLocation, address, geocode);
      match step
      case DoNothing =>
      case ShowAlert(message) =>
        alertMessage := message;
        showAlert := true;
      case CreateAt(location) =>
        CreateBusiness(location, newId, now, freshId);
    }

    /** `createBusiness(with:)`: without a signed-in user shows "Error de
      autenticación"; otherwise adds the new record through the service,
      which reloads its list, and dismisses the form. */
    method CreateBusiness(location: Coordinate, newId: string, now: Date, freshId: nat -> string)
      requires service.Valid()
      modifies this, service, service.store
      ensures service.Valid()
      ensures Entries() == old(Entries())
      ensures service.store.users == old(service.store.users)
      ensures service.selectedFilter == old(service.selectedFilter) && service.userLocation == old(service.userLocation)
      ensures auth.currentUser.None? ==>
        showAlert && alertMessage == "Error de autenticación" && dismissed == old(dismissed) &&
        service.store.businesses == old(service.store.businesses) && service.businesses == old(service.businesses)
      ensures auth.currentUser.Some? ==>
        dismissed && showAlert == old(showAlert) &&
        service.store.businesses == old(service.store.businesses) +
          [ToEntity(Draft(Entries(), auth.currentUser.value.id, location, newId, now))] &&
        service.businesses == service.Listing(now, freshId)
      ensures auth.currentUser.Some? ==>
        Reloaded(Draft(Entries(), auth.currentUser.value.id, location, newId, now), service.userLocation, service.dist)
          in service.businesses
    {
      if auth.currentUser.None? {
        alertMessage := "Error de autenticación";
        showAlert := true;
        return;
      }
      var userId := auth.currentUser.value.id;
      var newBusiness := Draft(Entries(), userId, location, newId, now);
      service.AddBusiness(newBusiness, now, freshId);
      dismissed := true;
    }
  }
}
