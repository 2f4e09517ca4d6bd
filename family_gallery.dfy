/** The gallery slider of the family landing page: always a window of three
    slides, moved by the arrow buttons. The slides are reduced to their
    number, the arrow buttons to their presence and their `disabled` flags. */
module FamilyGallery {
  import opened Slider

  class GallerySlider {
    const count: nat
    const hasPrev: bool
    const hasNext: bool
    const slidesToShow: int
    var currentIndex: int
    var prevDisabled: bool
    var nextDisabled: bool

    /** The last index a full window of three slides can start at. */
    function MaxIndex(): int
      reads this
    {
      LastWindowStart(count, slidesToShow)
    }

    ghost predicate Valid()
      reads this
    {
      && slidesToShow == 3
      && 0 <= currentIndex <= MaxIndex()
      && (count == 0 ==> !prevDisabled && !nextDisabled)
      && (count > 0 && hasPrev ==> prevDisabled == (currentIndex == 0))
      && (count > 0 && hasNext ==> nextDisabled == (currentIndex >= MaxIndex()))
      && (!hasPrev ==> !prevDisabled)
      && (!hasNext ==> !nextDisabled)
    }

    /** `new GallerySlider(element)` then `init()`, which does nothing without slides. */
    constructor(count: nat, hasPrev: bool, hasNext: bool)
      ensures Valid()
      ensures this.count == count && this.hasPrev == hasPrev && this.hasNext == hasNext
      ensures currentIndex == 0
    {
      this.count := count;
      this.hasPrev := hasPrev;
      this.hasNext := hasNext;
      slidesToShow := 3;
      currentIndex := 0;
      prevDisabled := false;
      nextDisabled := false;
      new;
      if count > 0 {
        UpdateArrowsState();
      }
    }

    /** `updateArrowsState()`. */
    method UpdateArrowsState()
      modifies this`prevDisabled, this`nextDisabled
      ensures prevDisabled == if hasPrev then currentIndex == 0 else old(prevDisabled)
      ensures nextDisabled == if hasNext then currentIndex >= MaxIndex() else old(nextDisabled)
    {
      var maxIndex := LastWindowStart(count, slidesToShow);
      if hasPrev {
        prevDisabled := currentIndex == 0;
      }
      if hasNext {
        nextDisabled := currentIndex >= maxIndex;
      }
    }

    /** `prev()`: one slide back unless at the first. */
    method Prev()
      requires Valid()
      modifies this
      ensures Valid()
      ensures currentIndex == StepBack(old(currentIndex), 0)
      ensures old(currentIndex) == 0 ==> unchanged(this)
    {
      if currentIndex > 0 {
        currentIndex := currentIndex - 1;
        UpdateArrowsState();
      }
    }

    /** `next()`: one slide on unless the last three slides are shown; with
        three slides or fewer it never moves. */
    method Next()
      requires Valid()
      modifies this
      ensures Valid()
      ensures currentIndex == StepForward(old(currentIndex), MaxIndex())
      ensures count <= 3 ==> currentIndex == 0
    {
      var maxIndex := LastWindowStart(count, slidesToShow);
      if currentIndex < maxIndex {
        currentIndex := currentIndex + 1;
        UpdateArrowsState();
      }
    }
  }
}
