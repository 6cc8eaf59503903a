/** The wishlist page (pages/Wishlist.js). */
module WishlistPage {
  import opened Wrappers
  import opened Lists
  import opened Listing
  import opened WishlistStore

  /**
   * The properties `loadWishlist` collects from the answers to its fetches,
   * one per stored id in order: an answer with data is kept, a failed fetch or
   * an empty body is skipped.
   */
  function Collected(answers: seq<Remote<Option<Property>>>): (r: seq<Property>)
    ensures |r| <= |answers|
  {
    if answers == [] then []
    else
      var last := answers[|answers| - 1];
      var init := Collected(answers[..|answers| - 1]);
      if last.Ok? && last.value.Some? then init + [last.value.value] else init
  }

  /** When every fetch brings data, every stored id gives its property, in order. */
  lemma {:induction false} AllFetched(answers: seq<Remote<Option<Property>>>)
    requires forall i :: 0 <= i < |answers| ==> answers[i].Ok? && answers[i].value.Some?
    ensures |Collected(answers)| == |answers|
    ensures forall i :: 0 <= i < |answers| ==> Collected(answers)[i] == answers[i].value.value
  {
    if answers != [] {
      AllFetched(answers[..|answers| - 1]);
    }
  }

  /** A failed fetch leaves no trace in the list. */
  lemma {:induction false} FailureSkipped(before: seq<Remote<Option<Property>>>, after: seq<Remote<Option<Property>>>)
    ensures Collected(before + [Failed] + after) == Collected(before + after)
    decreases |after|
  {
    if after == [] {
      assert (before + [Failed] + after)[..|before| + 1 - 1] == before;
      assert before + [Failed] + after == before + [Failed];
      assert before + after == before;
    } else {
      var a := after[..|after| - 1];
      FailureSkipped(before, a);
      assert (before + [Failed] + after)[..|before + [Failed] + after| - 1] == before + [Failed] + a;
      assert (before + after)[..|before + after| - 1] == before + a;
    }
  }

  function NotId(id: int): Property -> bool {
    (p: Property) => p.propertyId != id
  }

  class WishlistPage {
    var items: seq<Property>

    constructor ()
      ensures items == []
    {
      items := [];
    }

    /**
     * `loadWishlist`: one fetch per stored id, awaited in turn; `answers[i]`
     * is the answer for the i-th id. Returns the ids fetched.
     */
    method LoadWishlist(store: BrowserStorage, answers: seq<Remote<Option<Property>>>) returns (fetched: seq<int>)
      requires |answers| == |store.Saved()|
      modifies this
      ensures fetched == store.Saved()
      ensures items == Collected(answers)
      ensures |items| <= |store.Saved()|
    {
      var ids := store.Saved();
      var results: seq<Property> := [];
      fetched := [];
      var k := 0;
      while k < |ids|
        invariant 0 <= k <= |ids|
        invariant fetched == ids[..k]
        invariant results == Collected(answers[..k])
      {
        fetched := fetched + [ids[k]];
        var res := answers[k];
        if res.Ok? && res.value.Some? {
          results := results + [res.value.value];
        }
        assert answers[..k + 1][..k] == answers[..k];
        k := k + 1;
      }
      assert answers[..k] == answers;
      assert ids[..k] == ids;
      items := results;
    }

    /**
     * `removeItem`: every occurrence of the id leaves the stored list, which is
     * written identically to both storages, and every property with that id
     * leaves the page.
     */
    method RemoveItem(store: BrowserStorage, id: int)
      modifies this, store
      ensures store.local == Some(Without(old(store.Saved()), id))
      ensures store.session == store.local
      ensures store.notified == old(store.notified)
      ensures items == Keep(old(items), NotId(id))
      ensures forall i :: 0 <= i < |items| ==> items[i].propertyId != id
      ensures (forall i :: 0 <= i < |old(items)| ==> old(items)[i].propertyId != id) ==> items == old(items)
    {
      var saved := store.Saved();
      saved := Without(saved, id);
      store.local := Some(saved);
      store.session := Some(saved);
      if forall i :: 0 <= i < |items| ==> items[i].propertyId != id {
        KeepAll(items, NotId(id));
      }
      items := Keep(items, NotId(id));
    }
  }
}
