/** The one-image sliders `GallerySliderV4` and `GallerySingleSlider`, whose
    code is the same on the kids and the business landing pages: one slide is
    shown at a time, and the arrows wrap around at either end. The slides are
    reduced to their `is-active` flags. */
module Carousel {
  import opened Slider

  class CyclicSlider {
    const count: nat
    /** The `is-active` class of each slide. */
    const active: array<bool>
    var currentIndex: int

    /** With slides, the index is a slide and exactly that slide is active. */
    ghost predicate Valid()
      reads this, active
    {
      && active.Length == count
      && (count == 0 ==> currentIndex == 0)
      && (count > 0 ==> 0 <= currentIndex < count)
      && (count > 0 ==> forall j :: 0 <= j < count ==> active[j] == (j == currentIndex))
    }

    /** The constructor then `init()`: without slides nothing more happens,
        otherwise the first slide is shown. */
    constructor(count: nat)
      ensures Valid() && fresh(active)
      ensures this.count == count && currentIndex == 0
    {
      this.count := count;
      active := new bool[count](_ => false);
      currentIndex := 0;
      new;
      if count > 0 {
        ShowSlide(0);
      }
    }

    /** `showSlide(index)`: exactly the slide at `index` becomes active. */
    method ShowSlide(index: int)
      requires active.Length == count
      modifies this`currentIndex, active
      ensures currentIndex == index
      ensures forall j :: 0 <= j < count ==> active[j] == (j == index)
    {
      for i := 0 to count
        invariant forall j :: 0 <= j < i ==> active[j] == (j == index)
      {
        active[i] := i == index;
      }
      currentIndex := index;
    }

    /** `prev()`: the slide before, or the last one from the first. The arrow
        has no listener on a slider without slides. */
    method Prev()
      requires Valid()
      modifies this, active
      ensures Valid()
      ensures count == 0 ==> unchanged(this) && unchanged(active)
      ensures count > 0 ==> currentIndex == CyclicPrev(old(currentIndex), count)
    {
      if count == 0 {
        return;
      }
      var newIndex := if currentIndex > 0 then currentIndex - 1 else count - 1;
      ShowSlide(newIndex);
    }

    /** `next()`: the slide after, or the first one from the last. The arrow
        has no listener on a slider without slides. */
    method Next()
      requires Valid()
      modifies this, active
      ensures Valid()
      ensures count == 0 ==> unchanged(this) && unchanged(active)
      ensures count > 0 ==> currentIndex == CyclicNext(old(currentIndex), count)
    {
      if count == 0 {
        return;
      }
      var newIndex := if currentIndex < count - 1 then currentIndex + 1 else 0;
      ShowSlide(newIndex);
    }
  }
}
