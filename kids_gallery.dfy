/** The gallery slider of the kids landing page, including its V5 variant in
    which the slide at the current index is the enlarged centre slide. The
    slide elements are reduced to their number and their `is-center` flags,
    the arrow buttons to their presence and their `disabled` flags. */
module KidsGallery {
  import opened Slider

  /** A side slide of the V5 layout (250 pixels) plus the gap after it (40). */
  const V5Pitch := 290

  /** The V5 track offset: slides before the one left of the centre are
      scrolled out of view; never negative. */
  function V5Offset(index: int): (px: int)
    ensures px >= 0
  {
    var offset := (index - 1) * V5Pitch;
    if offset < 0 then 0 else offset
  }

  /** The first two indices show the track unscrolled; from there each step
      right scrolls by exactly one side slide and its gap. */
  lemma V5OffsetSteps(index: int)
    ensures index <= 1 ==> V5Offset(index) == 0
    ensures index >= 1 ==> V5Offset(index + 1) == V5Offset(index) + V5Pitch
  {
  }

  class GallerySlider {
    const count: nat
    const isV5: bool
    const hasPrev: bool
    const hasNext: bool
    /** The `is-center` class of each slide. */
    const centerFlags: array<bool>
    var currentIndex: int
    var slidesToShow: int
    /** The V5 track offset in pixels. */
    var offset: int
    var prevDisabled: bool
    var nextDisabled: bool

    /** The lowest index the prev arrow moves to: V5 keeps a slide left of the centre. */
    function MinIndex(): int
      reads this
    {
      if isV5 then 1 else 0
    }

    /** The highest index the next arrow moves to: V5 keeps a slide right of
        the centre, the others stop at the last full window. */
    function MaxIndex(): int
      reads this
    {
      if isV5 then count - 2 else LastWindowStart(count, slidesToShow)
    }

    /** The index is a slide (or 0 without slides), the arrows agree with it
        once the slider is set up, and under V5 exactly the slide at the index
        is the centre slide. */
    ghost predicate Valid()
      reads this, centerFlags
    {
      && centerFlags.Length == count
      && 1 <= slidesToShow <= 3
      && 0 <= currentIndex
      && (count > 0 ==> currentIndex < count)
      && (count == 0 ==> currentIndex == 0 && !prevDisabled && !nextDisabled)
      && (count > 0 && hasPrev ==> prevDisabled == (currentIndex <= MinIndex()))
      && (count > 0 && hasNext ==> nextDisabled == (currentIndex >= MaxIndex()))
      && (!hasPrev ==> !prevDisabled)
      && (!hasNext ==> !nextDisabled)
      && (forall j :: 0 <= j < count ==> centerFlags[j] == (isV5 && j == currentIndex))
      && (isV5 && count > 0 ==> offset == V5Offset(currentIndex))
    }

    /** `new GallerySlider(element)` in a window `width` pixels wide, then
        `init()`: nothing more without slides; a V5 slider with at least three
        slides starts at index 1, every other slider at 0. */
    constructor(count: nat, isV5: bool, width: int, hasPrev: bool, hasNext: bool)
      ensures Valid() && fresh(centerFlags)
      ensures this.count == count && this.isV5 == isV5
      ensures this.hasPrev == hasPrev && this.hasNext == hasNext
      ensures slidesToShow == SlidesToShow(width)
      ensures currentIndex == if isV5 && count >= 3 then 1 else 0
    {
      this.count := count;
      this.isV5 := isV5;
      this.hasPrev := hasPrev;
      this.hasNext := hasNext;
      centerFlags := new bool[count](_ => false);
      currentIndex := 0;
      slidesToShow := SlidesToShow(width);
      offset := 0;
      prevDisabled := false;
      nextDisabled := false;
      new;
      if count > 0 {
        if isV5 && count >= 3 {
          currentIndex := 1;
        }
        CalculateSlideWidth();
        UpdatePosition();
        UpdateArrowsState();
      }
    }

    /** `updateCenterSlide()`: under V5, exactly the slide at the index gets `is-center`. */
    method UpdateCenterSlide()
      requires centerFlags.Length == count
      modifies centerFlags
      ensures isV5 ==> forall j :: 0 <= j < count ==> centerFlags[j] == (j == currentIndex)
      ensures !isV5 ==> unchanged(centerFlags)
    {
      if !isV5 {
        return;
      }
      for i := 0 to count
        invariant forall j :: 0 <= j < i ==> centerFlags[j] == (j == currentIndex)
      {
        centerFlags[i] := i == currentIndex;
      }
    }

    /** `calculateSlideWidth()`; only its V5 branch, which marks the centre
        slide, changes state the model keeps. */
    method CalculateSlideWidth()
      requires centerFlags.Length == count
      modifies centerFlags
      ensures isV5 ==> forall j :: 0 <= j < count ==> centerFlags[j] == (j == currentIndex)
      ensures !isV5 ==> unchanged(centerFlags)
    {
      if isV5 {
        UpdateCenterSlide();
      }
    }

    /** `updatePosition()`: under V5, mark the centre slide and scroll the track. */
    method UpdatePosition()
      requires centerFlags.Length == count
      modifies this`offset, centerFlags
      ensures isV5 ==> offset == V5Offset(currentIndex)
      ensures isV5 ==> forall j :: 0 <= j < count ==> centerFlags[j] == (j == currentIndex)
      ensures !isV5 ==> offset == old(offset) && unchanged(centerFlags)
    {
      if isV5 {
        UpdateCenterSlide();
        var px := (currentIndex - 1) * V5Pitch;
        if px < 0 {
          px := 0;
        }
        offset := px;
      }
    }

    /** `updateArrowsState()`: each arrow that exists is disabled exactly at its end. */
    method UpdateArrowsState()
      modifies this`prevDisabled, this`nextDisabled
      ensures prevDisabled == if hasPrev then currentIndex <= MinIndex() else old(prevDisabled)
      ensures nextDisabled == if hasNext then currentIndex >= MaxIndex() else old(nextDisabled)
    {
      var minIndex := 0;
      var maxIndex := LastWindowStart(count, slidesToShow);
      if isV5 {
        minIndex := 1;
        maxIndex := count - 2;
      }
      if hasPrev {
        prevDisabled := currentIndex <= minIndex;
      }
      if hasNext {
        nextDisabled := currentIndex >= maxIndex;
      }
    }

    /** `prev()`: one slide back when above the lowest index; otherwise nothing changes. */
    method Prev()
      requires Valid()
      modifies this, centerFlags
      ensures Valid()
      ensures currentIndex == StepBack(old(currentIndex), MinIndex())
      ensures slidesToShow == old(slidesToShow)
      ensures old(currentIndex) <= MinIndex() ==> unchanged(this) && unchanged(centerFlags)
    {
      var minIndex := if isV5 then 1 else 0;
      if currentIndex > minIndex {
        currentIndex := currentIndex - 1;
        UpdatePosition();
        UpdateArrowsState();
      }
    }

    /** `next()`: one slide on when below the highest index; otherwise nothing changes. */
    method Next()
      requires Valid()
      modifies this, centerFlags
      ensures Valid()
      ensures currentIndex == StepForward(old(currentIndex), MaxIndex())
      ensures slidesToShow == old(slidesToShow)
      ensures old(currentIndex) >= MaxIndex() ==> unchanged(this) && unchanged(centerFlags)
    {
      var maxIndex := if isV5 then count - 2 else LastWindowStart(count, slidesToShow);
      if currentIndex < maxIndex {
        currentIndex := currentIndex + 1;
        UpdatePosition();
        UpdateArrowsState();
      }
    }

    /** The debounced resize handler, run for a window `width` pixels wide.
        It exists only for a slider with slides. A changed number of visible
        slides clamps the index to the last full window, for V5 as well, so
        a V5 index can fall below the V5 lowest index 1. */
    method Resize(width: int)
      requires Valid()
      modifies this, centerFlags
      ensures Valid()
      ensures count == 0 ==> unchanged(this) && unchanged(centerFlags)
      ensures count > 0 ==> slidesToShow == SlidesToShow(width)
      ensures count > 0 ==> currentIndex == Resized(old(currentIndex), count, old(slidesToShow), SlidesToShow(width))
    {
      if count == 0 {
        return;
      }
      var newSlidesToShow := SlidesToShow(width);
      if newSlidesToShow != slidesToShow {
        slidesToShow := newSlidesToShow;
        var maxIndex := LastWindowStart(count, slidesToShow);
        if currentIndex > maxIndex {
          currentIndex := maxIndex;
        }
      }
      CalculateSlideWidth();
      UpdatePosition();
      UpdateArrowsState();
    }
  }

  /** A V5 slider of three slides centred on the middle one, resized from a
      tablet to a desktop window, moves to index 0: no slide is left of the
      centre and the prev arrow is disabled. */
  method V5ResizeLeavesCentreRange()
  {
    var g := new GallerySlider(3, true, 800, true, true);
    assert g.currentIndex == 1 && g.slidesToShow == 2;
    g.Resize(1200);
    assert g.currentIndex == 0 < g.MinIndex();
    assert g.prevDisabled && !g.nextDisabled;
  }
}
