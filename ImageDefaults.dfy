/** The category images appear in four places: the store's default for a
    business without images (CoreData/PersistenceController.swift), the
    add-business form's default (Views/AddBusinessView.swift), the card's
    fallback (Views/BusinessCardView.swift) and the detail screen's fallback
    gallery (Views/BusinessDetailView.swift). They are written out
    separately and agree. */
module ImageDefaults {
  import opened Common
  import opened BusinessModel
  import opened Persistence
  import opened AddBusinessForm
  import opened BusinessCard
  import opened BusinessDetail

  /** The four tables give each category the same image. */
  lemma DefaultImagesAgree(c: BusinessCategory)
    ensures StoreDefaultImage(c) == FormDefaultImage(c) == CardFallback(c)
    ensures DetailFallback(c) == [CardFallback(c)]
  {
  }

  /** A business created by the form shows its category's image on its card
      and as the whole detail gallery, whether or not that image is in the
      catalogue. */
  lemma {:induction false} NewBusinessImages(b: Business, assetExists: string -> bool)
    requires b.images == [FormDefaultImage(b.category)]
    ensures StoredImages(b) == b.images
    ensures CardImage(StoredImages(b), b.category, assetExists) == FormDefaultImage(b.category)
    ensures ValidImages(StoredImages(b), b.category, assetExists) == [FormDefaultImage(b.category)]
  {
    DefaultImagesAgree(b.category);
    var images := StoredImages(b);
    assert images[0] == FormDefaultImage(b.category);
    if assetExists(images[0]) {
      assert FirstIndex(images, assetExists) == Some(0);
      assert Filter(images, assetExists) == images;
    } else {
      assert FirstIndex(images, assetExists).None?;
    }
  }
}
