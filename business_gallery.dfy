/** The gallery slider of the business landing page: a window of one to three
    slides, depending on the window width, moved by the arrow buttons. The
    slides are reduced to their number, the arrow buttons to their presence
    and their `disabled` flags. */
module BusinessGallery {
  import opened Slider

  class GallerySlider {
    const count: nat
    const hasPrev: bool
    const hasNext: bool
    var currentIndex: int
    var slidesToShow: int
    var prevDisabled: bool
    var nextDisabled: bool

    /** The last index a full window of slides can start at. */
    function MaxIndex(): int
      reads this
    {
      LastWindowStart(count, slidesToShow)
    }

    /** The index lies between 0 and the last full window start, and the
        arrows agree with it once the slider is set up. */
    ghost predicate Valid()
      reads this
    {
      && 1 <= slidesToShow <= 3
      && 0 <= currentIndex <= MaxIndex()
      && (count == 0 ==> !prevDisabled && !nextDisabled)
      && (count > 0 && hasPrev ==> prevDisabled == (currentIndex == 0))
      && (count > 0 && hasNext ==> nextDisabled == (currentIndex >= MaxIndex()))
      && (!hasPrev ==> !prevDisabled)
      && (!hasNext ==> !nextDisabled)
    }

    /** `new GallerySlider(element)` in a window `width` pixels wide, then
        `init()`, which does nothing without slides. */
    constructor(count: nat, width: int, hasPrev: bool, hasNext: bool)
      ensures Valid()
      ensures this.count == count && this.hasPrev == hasPrev && this.hasNext == hasNext
      ensures currentIndex == 0 && slidesToShow == SlidesToShow(width)
    {
      this.count := count;
      this.hasPrev := hasPrev;
      this.hasNext := hasNext;
      currentIndex := 0;
      slidesToShow := SlidesToShow(width);
      prevDisabled := false;
      nextDisabled := false;
      new;
      if count > 0 {
        UpdateArrowsState();
      }
    }

    /** `updateArrowsState()`. */
    method UpdateArrowsState()
      modifies this`prevDisabled, this`nextDisabled
      ensures prevDisabled == if hasPrev then currentIndex == 0 else old(prevDisabled)
      ensures nextDisabled == if hasNext then currentIndex >= MaxIndex() else old(nextDisabled)
    {
      var maxIndex := LastWindowStart(count, slidesToShow);
      if hasPrev {
        prevDisabled := currentIndex == 0;
      }
      if hasNext {
        nextDisabled := currentIndex >= maxIndex;
      }
    }

    /** `prev()`: one slide back unless at the first. */
    method Prev()
      requires Valid()
      modifies this`currentIndex, this`prevDisabled, this`nextDisabled
      ensures Valid()
      ensures slidesToShow == old(slidesToShow)
      ensures currentIndex == StepBack(old(currentIndex), 0)
      ensures old(currentIndex) == 0 ==> unchanged(this)
    {
      if currentIndex > 0 {
        currentIndex := currentIndex - 1;
        UpdateArrowsState();
      }
    }

    /** `next()`: one slide on unless the last full window is shown. */
    method Next()
      requires Valid()
      modifies this`currentIndex, this`prevDisabled, this`nextDisabled
      ensures Valid()
      ensures slidesToShow == old(slidesToShow)
      ensures currentIndex == StepForward(old(currentIndex), old(MaxIndex()))
      ensures old(currentIndex) >= old(MaxIndex()) ==> unchanged(this)
    {
      var maxIndex := LastWindowStart(count, slidesToShow);
      if currentIndex < maxIndex {
        currentIndex := currentIndex + 1;
        UpdateArrowsState();
      }
    }

    /** The debounced resize handler, run for a window `width` pixels wide;
        it exists only for a slider with slides. */
    method Resize(width: int)
      requires Valid()
      modifies this
      ensures Valid()
      ensures count == 0 ==> unchanged(this)
      ensures count > 0 ==> slidesToShow == SlidesToShow(width)
      ensures count > 0 ==> currentIndex == Resized(old(currentIndex), count, old(slidesToShow), SlidesToShow(width))
    {
      if count == 0 {
        return;
      }
      var newSlidesToShow := SlidesToShow(width);
      if newSlidesToShow != slidesToShow {
        slidesToShow := newSlidesToShow;
        var maxIndex := LastWindowStart(count, slidesToShow);
        if currentIndex > maxIndex {
          currentIndex := maxIndex;
        }
      }
      UpdateArrowsState();
    }
  }
}
