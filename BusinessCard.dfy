/** The list card (Views/BusinessCardView.swift): the image a card shows
    for a business. Whether an image name is in the asset catalogue
    (`UIImage(named:) != nil`) is the parameter `assetExists`. */
module BusinessCard {
  import opened Common
  import opened BusinessModel

  /** The image a card falls back to, by category. */
  function CardFallback(c: BusinessCategory): string {
    match c
    case Food => "comidas2"
    case Retail => "tiendita1"
    case Services => "tacos1"
    case Entertainment => "iguana1"
    case Other => "antojitos1"
  }

  /** The image a card shows: the first of the business's images that is in
      the catalogue, or the category's fallback when none is. */
  function CardImage(images: seq<string>, category: BusinessCategory, assetExists: string -> bool): (r: string)
    ensures (forall j :: 0 <= j < |images| ==> !assetExists(images[j])) ==> r == CardFallback(category)
    ensures (exists j :: 0 <= j < |images| && assetExists(images[j])) ==>
      assetExists(r) &&
      exists k :: 0 <= k < |images| && images[k] == r && forall j :: 0 <= j < k ==> !assetExists(images[j])
  {
    match FirstIndex(images, assetExists)
    case Some(k) => images[k]
    case None => CardFallback(category)
  }

  /** `getImageName`: walks the images in order and returns the first one in
      the catalogue; after the walk, the fallback. Although declared
      optional, the result is always present. */
  method GetImageName(images: seq<string>, category: BusinessCategory, assetExists: string -> bool)
    returns (r: Option<string>)
    ensures r.Some?
    ensures r == Some(CardImage(images, category, assetExists))
  {
    if images != [] {
      var i := 0;
      while i < |images|
        invariant 0 <= i <= |images|
        invariant forall j :: 0 <= j < i ==> !assetExists(images[j])
      {
        if assetExists(images[i]) {
          return Some(images[i]);
        }
        i := i + 1;
      }
    }
    return Some(CardFallback(category));
  }
}
