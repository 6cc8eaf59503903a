/** The public property page (pages/PropertyDetails.js): loading and its own wishlist button. */
module PropertyDetails {
  import opened Wrappers
  import opened Text
  import opened Lists
  import opened Listing
  import opened WishlistStore

  /**
   * The details page's toggle, which goes by the page's `liked` flag and not
   * by the stored list: when liked, every occurrence is removed; otherwise
   * the id is appended without looking whether it is already there.
   */
  function ToggleByFlag(saved: seq<int>, liked: bool, id: int): (r: seq<int>)
    ensures liked ==> id !in r
    ensures !liked ==> |r| == |saved| + 1 && r[|saved|] == id
  {
    if liked then Without(saved, id) else saved + [id]
  }

  /** When the flag is right, the page does what the card does. */
  lemma {:induction false} AgreeingFlagIsToggle(saved: seq<int>, liked: bool, id: int)
    requires liked == (id in saved)
    ensures ToggleByFlag(saved, liked, id) == Toggle(saved, id)
  {
  }

  /** Other ids are left where they were. */
  lemma {:induction false} FlagToggleKeepsOthers(saved: seq<int>, liked: bool, id: int)
    ensures Without(ToggleByFlag(saved, liked, id), id) == Without(saved, id)
  {
    if liked {
      WithoutTwice(saved, id);
    } else {
      WithoutAppended(saved, id);
    }
  }

  /**
   * A stale flag: the list gained the id elsewhere (the card, another tab)
   * after this page read it. Clicking the heart then stores the id twice.
   */
  lemma {:induction false} StaleFlagDuplicates(id: int)
    ensures ToggleByFlag([id], false, id) == [id, id]
    ensures !NoDup(ToggleByFlag([id], false, id))
  {
    assert ToggleByFlag([id], false, id)[0] == ToggleByFlag([id], false, id)[1];
  }

  class PropertyDetailsPage {
    /** `Number(id)` of a numeric route parameter. */
    const key: int
    var property: Option<Property>
    var loading: bool
    var liked: bool

    constructor (routeId: string)
      requires ToNumber(routeId).Finite?
      ensures key == ToNumber(routeId).value
      ensures property == None && loading && !liked
    {
      key := ToNumber(routeId).value;
      property := None;
      loading := true;
      liked := false;
    }

    /** `load`: on success the property is shown and the flag read from the stored list; `loading` ends either way. */
    method Load(answer: Remote<Property>, store: BrowserStorage)
      modifies this
      ensures answer.Ok? ==> property == Some(answer.value) && liked == (key in store.Saved())
      ensures answer.Failed? ==> property == old(property) && liked == old(liked)
      ensures !loading
    {
      if answer.Ok? {
        property := Some(answer.value);
        liked := key in store.Saved();
      }
      loading := false;
    }

    /** The flag agrees with the stored list, which holds no id twice. */
    predicate Consistent(store: BrowserStorage)
      reads this, store
    {
      liked == (key in store.Saved()) && NoDup(store.Saved())
    }

    /**
     * `toggleWishlist`: write the list changed according to the flag, flip
     * the flag, then raise a `storage` event, whose listeners read the new list.
     */
    method ToggleWishlist(store: BrowserStorage)
      modifies this, store
      ensures store.local == Some(ToggleByFlag(old(store.Saved()), old(liked), key))
      ensures liked == !old(liked)
      ensures store.notified == old(store.notified) + [store.Saved()]
      ensures store.session == old(store.session) && property == old(property) && loading == old(loading)
      ensures old(Consistent(store)) ==> Consistent(store)
    {
      var saved := store.Saved();
      ghost var before := saved;
      if liked {
        saved := Without(saved, key);
      } else {
        saved := saved + [key];
      }
      store.local := Some(saved);
      liked := !liked;
      store.notified := store.notified + [store.Saved()];
      if old(liked) == (key in before) && NoDup(before) {
        AgreeingFlagIsToggle(before, old(liked), key);
        ToggleNoDup(before, key);
      }
    }
  }
}
