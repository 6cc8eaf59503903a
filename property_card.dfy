/** The listing card (components/PropertyCard.js): its picture and its heart button. */
module PropertyCard {
  import opened Wrappers
  import opened Listing
  import opened Lists
  import opened WishlistStore

  const Placeholder := "/placeholder.jpg"

  /**
   * `p.images?.[0]?.imageUrl || p.images?.[0] || "/placeholder.jpg"`. A first
   * image that is a record without a usable URL is itself truthy, so the
   * record is what ends up in `src`, where it reads as "[object Object]".
   */
  function MainImage(images: Option<seq<Image>>): (r: string)
    ensures r != ""
    ensures (images.None? || images.value == []) ==> r == Placeholder
  {
    if images.None? || images.value == [] then Placeholder
    else match images.value[0]
      case ImageRecord(url) => if url.Some? && url.value != "" then url.value else "[object Object]"
      case ImageText(url) => if url != "" then url else Placeholder
  }

  /** A first image with a URL shows that URL, whatever follows it. */
  lemma {:induction false} FirstUrlShown(images: seq<Image>, url: string)
    requires images != [] && url != ""
    requires images[0] == ImageRecord(Some(url)) || images[0] == ImageText(url)
    ensures MainImage(Some(images)) == url
  {
  }

  class PropertyCardView {
    /** The card renders nothing for a falsy id, so every card has a non-zero one. */
    const propertyId: int
    var liked: bool

    /** Mounting reads the stored list once: the heart is on iff the id is saved. */
    constructor (propertyId: int, store: BrowserStorage)
      requires propertyId != 0
      ensures this.propertyId == propertyId
      ensures liked == (propertyId in store.Saved())
    {
      this.propertyId := propertyId;
      liked := propertyId in store.Saved();
    }

    /** The heart agrees with the stored list. */
    predicate Agrees(store: BrowserStorage)
      reads this, store
    {
      liked == (propertyId in store.Saved())
    }

    /**
     * `toggleWishlist`: read the list, drop every occurrence of a saved id or
     * push an unsaved one, write the list back; the heart then shows the
     * stored membership.
     */
    method ToggleWishlist(store: BrowserStorage)
      modifies this, store
      ensures store.local == Some(Toggle(old(store.Saved()), propertyId))
      ensures store.session == old(store.session) && store.notified == old(store.notified)
      ensures Agrees(store)
      ensures liked == (propertyId !in old(store.Saved()))
    {
      var saved := store.Saved();
      if propertyId in saved {
        saved := Without(saved, propertyId);
        liked := false;
      } else {
        saved := saved + [propertyId];
        liked := true;
      }
      store.local := Some(saved);
    }
  }
}
