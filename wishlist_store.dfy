/**
 * The wishlist kept in the browser: a JSON list of property ids under the
 * key "wishlist" (components/PropertyCard.js, pages/PropertyDetails.js,
 * pages/Wishlist.js). A missing entry reads as the empty list.
 */
module WishlistStore {
  import opened Wrappers
  import opened Lists

  /** The "wishlist" entries of localStorage and sessionStorage, and the `storage` events raised so far. */
  class BrowserStorage {
    var local: Option<seq<int>>
    var session: Option<seq<int>>
    /** For each `storage` event dispatched, the local list a listener then reads. */
    var notified: seq<seq<int>>

    constructor ()
      ensures local == None && session == None && notified == []
    {
      local := None;
      session := None;
      notified := [];
    }

    /** `JSON.parse(localStorage.getItem("wishlist") || "[]")`. */
    function Saved(): (r: seq<int>)
      reads this
      ensures local.None? ==> r == []
    {
      local.GetOr([])
    }
  }

  /** The card's toggle: remove every occurrence of a saved id, append an unsaved one. */
  function Toggle(saved: seq<int>, id: int): (r: seq<int>)
    ensures id in r <==> id !in saved
  {
    if id in saved then Without(saved, id) else saved + [id]
  }

  /** Removing an id twice is removing it once. */
  lemma {:induction false} WithoutTwice(s: seq<int>, id: int)
    ensures Without(Without(s, id), id) == Without(s, id)
  {
    KeepKeep(s, Other(id), Other(id), Other(id));
  }

  /** Appending the id does not change what is left once it is removed. */
  lemma {:induction false} WithoutAppended(s: seq<int>, id: int)
    ensures Without(s + [id], id) == Without(s, id)
  {
    KeepAppend(s, [id], Other(id));
    assert Keep([id], Other(id)) == [];
  }

  /** A toggle leaves the other ids where they were: the same ids, in the same order. */
  lemma {:induction false} ToggleKeepsOthers(saved: seq<int>, id: int)
    ensures Without(Toggle(saved, id), id) == Without(saved, id)
    ensures forall x :: x != id ==> (x in Toggle(saved, id) <==> x in saved)
  {
    if id in saved {
      WithoutTwice(saved, id);
    } else {
      WithoutAppended(saved, id);
    }
    forall x | x != id
      ensures x in Toggle(saved, id) <==> x in saved
    {
      if x in saved {
        var i :| 0 <= i < |saved| && saved[i] == x;
        assert saved[i] in Toggle(saved, id);
      }
    }
  }

  /** Toggling twice restores membership of every id. */
  lemma {:induction false} ToggleTwice(saved: seq<int>, id: int)
    ensures forall x :: x in Toggle(Toggle(saved, id), id) <==> x in saved
  {
    ToggleKeepsOthers(saved, id);
    ToggleKeepsOthers(Toggle(saved, id), id);
  }

  /** A list without duplicates stays without duplicates. */
  lemma {:induction false} ToggleNoDup(saved: seq<int>, id: int)
    requires NoDup(saved)
    ensures NoDup(Toggle(saved, id))
  {
    if id in saved {
      KeepNoDup(saved, Other(id));
    } else {
      var r := saved + [id];
      forall i, j | 0 <= i < j < |r|
        ensures r[i] != r[j]
      {
        if j == |saved| {
          assert r[i] == saved[i];
        }
      }
    }
  }
}
