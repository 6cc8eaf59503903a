/** The admin property page (pages/AdminPropertyView.js): the image preview and the status buttons. */
module PropertyView {
  import opened Wrappers

  /** The buttons offered under a property. */
  datatype StatusAction = Approve | Reject | Edit

  /** The buttons for a status: pending can go either way, an approved or rejected one only the other way. */
  function StatusActions(status: Option<string>): (r: seq<StatusAction>)
    ensures Edit in r <==> status in {Some("pending"), Some("approved"), Some("rejected")}
    ensures Approve in r <==> status in {Some("pending"), Some("rejected")}
    ensures Reject in r <==> status in {Some("pending"), Some("approved")}
    ensures |r| <= 3 && (r != [] ==> r[|r| - 1] == Edit)
  {
    if status == Some("pending") then [Approve, Reject, Edit]
    else if status == Some("approved") then [Reject, Edit]
    else if status == Some("rejected") then [Approve, Edit]
    else []
  }

  /** A property never offers the move to the status it already has. */
  lemma {:induction false} NoMoveToSameStatus(status: Option<string>)
    ensures status == Some("approved") ==> Approve !in StatusActions(status)
    ensures status == Some("rejected") ==> Reject !in StatusActions(status)
  {
  }

  class PropertyViewPage {
    /** The number of images of the loaded property. */
    const imageCount: nat
    /** The image shown full screen, if any. */
    var activeIndex: Option<int>
    var touchStartX: int

    constructor (imageCount: nat)
      ensures this.imageCount == imageCount && activeIndex == None && touchStartX == 0
    {
      this.imageCount := imageCount;
      activeIndex := None;
      touchStartX := 0;
    }

    /** `openPreview(i)`, from the thumbnail at index `i`. */
    method OpenPreview(index: int)
      modifies this
      ensures activeIndex == Some(index) && touchStartX == old(touchStartX)
    {
      activeIndex := Some(index);
    }

    /** `closePreview`. */
    method ClosePreview()
      modifies this
      ensures activeIndex == None && touchStartX == old(touchStartX)
    {
      activeIndex := None;
    }

    method HandleTouchStart(x: int)
      modifies this
      ensures touchStartX == x && activeIndex == old(activeIndex)
    {
      touchStartX := x;
    }

    /**
     * `handleTouchEnd`, which only the open preview of a property with images
     * listens to: a swipe of more than 50 pixels to the left shows the next
     * image unless the last is shown, one to the right the previous unless the
     * first is shown; a shorter swipe changes nothing.
     */
    method HandleTouchEnd(x: int)
      requires activeIndex.Some? && imageCount > 0
      modifies this
      ensures activeIndex.Some? && touchStartX == old(touchStartX)
      ensures var i := old(activeIndex).value; var diff := touchStartX - x;
              activeIndex.value == if diff > 50 && i < imageCount - 1 then i + 1
                                   else if diff < -50 && i > 0 then i - 1
                                   else i
      ensures 0 <= old(activeIndex).value < imageCount ==> 0 <= activeIndex.value < imageCount
      ensures -50 <= touchStartX - x <= 50 ==> activeIndex == old(activeIndex)
    {
      var diff := touchStartX - x;
      if diff > 50 && activeIndex.value < imageCount - 1 {
        activeIndex := Some(activeIndex.value + 1);
      }
      if diff < -50 && activeIndex.value > 0 {
        activeIndex := Some(activeIndex.value - 1);
      }
    }
  }
}
