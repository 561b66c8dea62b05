/** The detail screen (Views/BusinessDetailView.swift): the images its
    gallery pages through and the links its contact buttons open. Whether
    an image name is in the asset catalogue is the parameter
    `assetExists`. */
module BusinessDetail {
  import opened Common
  import opened BusinessModel
  import opened BusinessCard

  /** The gallery a business with no image in the catalogue gets, by
      category. */
  function DetailFallback(c: BusinessCategory): seq<string> {
    match c
    case Food => ["comidas2"]
    case Retail => ["tiendita1"]
    case Services => ["tacos1"]
    case Entertainment => ["iguana1"]
    case Other => ["antojitos1"]
  }

  /** `validImages`: the business's images that are in the catalogue, in
      their order, or the category's fallback when there are none. The
      gallery is never empty, so the placeholder is never shown. */
  function ValidImages(images: seq<string>, category: BusinessCategory, assetExists: string -> bool)
    : (r: seq<string>)
    ensures r != []
    ensures (exists j :: 0 <= j < |images| && assetExists(images[j])) ==>
      IsSubsequence(r, images) &&
      (forall i :: 0 <= i < |r| ==> assetExists(r[i])) &&
      (forall j :: 0 <= j < |images| && assetExists(images[j]) ==> images[j] in r) &&
      |r| == Count(images, assetExists)
    ensures (forall j :: 0 <= j < |images| ==> !assetExists(images[j])) ==> r == DetailFallback(category)
  {
    var valid := Filter(images, assetExists);
    if valid == [] then DetailFallback(category) else valid
  }

  /** The card shows the first image of the gallery. */
  lemma CardShowsFirstGalleryImage(images: seq<string>, category: BusinessCategory, assetExists: string -> bool)
    ensures CardImage(images, category, assetExists) == ValidImages(images, category, assetExists)[0]
  {
    match FirstIndex(images, assetExists)
    case Some(k) =>
      FilterHeadIsFirst(images, assetExists);
    case None =>
      match category
      case Food =>
      case Retail =>
      case Services =>
      case Entertainment =>
      case Other =>
  }

  predicate IsNotSpace(c: char) {
    c != ' '
  }

  /** The phone button's link: "tel://" and the number with every space
      removed. */
  function PhoneURL(phone: string): (r: string)
    ensures |r| >= 6 && r[..6] == "tel://"
    ensures forall i :: 6 <= i < |r| ==> r[i] != ' '
    ensures IsSubsequence(r[6..], phone)
    ensures forall i :: 0 <= i < |phone| && phone[i] != ' ' ==> phone[i] in r[6..]
    ensures |r| == 6 + Count(phone, IsNotSpace)
    ensures (forall i :: 0 <= i < |phone| ==> phone[i] != ' ') ==> r == "tel://" + phone
  {
    var digits := Filter(phone, IsNotSpace);
    assert ("tel://" + digits)[6..] == digits;
    "tel://" + digits
  }

  /** Removing the spaces twice is removing them once. */
  lemma PhoneURLOfLink(phone: string)
    ensures PhoneURL(PhoneURL(phone)[6..]) == PhoneURL(phone)
  {
  }

  /** The email button's link. */
  function EmailURL(email: string): (r: string)
    ensures |r| == 7 + |email| && r[..7] == "mailto:" && r[7..] == email
  {
    "mailto:" + email
  }

  /** The website button's link: the entry is taken as a host and path
      under https. */
  function WebsiteURL(website: string): (r: string)
    ensures |r| == 8 + |website| && r[..8] == "https://" && r[8..] == website
  {
    "https://" + website
  }

  /** The three buttons never open the same link: their schemes differ in
      the first character. */
  lemma ContactLinksDistinct(phone: string, email: string, website: string)
    ensures PhoneURL(phone)[0] == 't' && EmailURL(email)[0] == 'm' && WebsiteURL(website)[0] == 'h'
    ensures PhoneURL(phone) != EmailURL(email) && EmailURL(email) != WebsiteURL(website)
    ensures PhoneURL(phone) != WebsiteURL(website)
  {
    assert PhoneURL(phone)[0] == PhoneURL(phone)[..6][0];
    assert EmailURL(email)[0] == EmailURL(email)[..7][0];
    assert WebsiteURL(website)[0] == WebsiteURL(website)[..8][0];
  }

  /** The links of the contact buttons the screen shows, in screen order:
      one for each of phone, email and website that the business has. */
  function ContactLinks(b: Business): (r: seq<string>)
    ensures |r| == (if b.phone.Some? then 1 else 0) + (if b.email.Some? then 1 else 0) +
                   (if b.website.Some? then 1 else 0)
    ensures b.phone.Some? ==> r[0] == PhoneURL(b.phone.value)
    ensures b.website.Some? ==> r[|r| - 1] == WebsiteURL(b.website.value)
    ensures b.email.Some? ==> EmailURL(b.email.value) in r
  {
    (if b.phone.Some? then [PhoneURL(b.phone.value)] else []) +
    (if b.email.Some? then [EmailURL(b.email.value)] else []) +
    (if b.website.Some? then [WebsiteURL(b.website.value)] else [])
  }
}
