/** Index arithmetic shared by the gallery sliders of the landing pages: the
    responsive number of visible slides, the last index a window of slides can
    start at, the bounded steps of the arrow buttons, the clamp after a resize,
    and the wrap-around steps of the one-image sliders. */
module Slider {

  /** `calculateSlidesToShow()`: one slide below 576 pixels of window width,
      two below 992, three from there on. */
  function SlidesToShow(width: int): (n: int)
    ensures 1 <= n <= 3
    ensures n == 1 <==> width < 576
    ensures n == 3 <==> width >= 992
  {
    if width < 576 then 1
    else if width < 992 then 2
    else 3
  }

  /** A wider window never shows fewer slides. */
  lemma SlidesToShowMonotone(narrow: int, wide: int)
    requires narrow <= wide
    ensures SlidesToShow(narrow) <= SlidesToShow(wide)
  {
  }

  /** `Math.max(0, count - shown)`: the first slide of the last full window. */
  function LastWindowStart(count: int, shown: int): (m: int)
    ensures m >= 0 && m + shown >= count
    ensures m == 0 || m + shown == count
  {
    if count - shown > 0 then count - shown else 0
  }

  /** The prev arrow: one slide back when above `lo`, otherwise stay. */
  function StepBack(i: int, lo: int): int {
    if i > lo then i - 1 else i
  }

  /** The next arrow: one slide on when below `hi`, otherwise stay. */
  function StepForward(i: int, hi: int): int {
    if i < hi then i + 1 else i
  }

  /** Both arrows keep an index that lies in `[lo, hi]` there. */
  lemma StepsStayInRange(i: int, lo: int, hi: int)
    requires lo <= i <= hi
    ensures lo <= StepBack(i, lo) <= hi && lo <= StepForward(i, hi) <= hi
  {
  }

  /** A step that moves is undone by a step the other way. */
  lemma StepsUndo(i: int, lo: int, hi: int)
    requires lo <= i <= hi
    ensures i > lo ==> StepForward(StepBack(i, lo), hi) == i
    ensures i < hi ==> StepBack(StepForward(i, hi), lo) == i
  {
  }

  /** `k` clicks on the next arrow. */
  function Forwards(i: int, hi: int, k: nat): int
    decreases k
  {
    if k == 0 then i else Forwards(StepForward(i, hi), hi, k - 1)
  }

  /** `k` clicks on the prev arrow. */
  function Backwards(i: int, lo: int, k: nat): int
    decreases k
  {
    if k == 0 then i else Backwards(StepBack(i, lo), lo, k - 1)
  }

  /** Clicking next `k` times moves `k` slides on, but never past `hi`. */
  lemma {:induction false} ForwardsReachEnd(i: int, hi: int, k: nat)
    requires i <= hi
    ensures Forwards(i, hi, k) == if i + k <= hi then i + k else hi
    decreases k
  {
    if k > 0 {
      ForwardsReachEnd(StepForward(i, hi), hi, k - 1);
    }
  }

  /** Clicking prev `k` times moves `k` slides back, but never below `lo`. */
  lemma {:induction false} BackwardsReachStart(i: int, lo: int, k: nat)
    requires lo <= i
    ensures Backwards(i, lo, k) == if i - k >= lo then i - k else lo
    decreases k
  {
    if k > 0 {
      BackwardsReachStart(StepBack(i, lo), lo, k - 1);
    }
  }

  /** After a resize that changes the number of visible slides, an index past
      the new last window start moves back to it. */
  function Resized(i: int, count: int, shown: int, newShown: int): int {
    var maxIndex := LastWindowStart(count, newShown);
    if newShown != shown && i > maxIndex then maxIndex else i
  }

  /** The resize clamp puts an index back into the range of the new layout
      and moves it only when the layout changed and the index was past it. */
  lemma ResizedInRange(i: int, count: int, shown: int, newShown: int)
    requires 0 <= i
    ensures var j := Resized(i, count, shown, newShown);
      && 0 <= j <= i
      && (newShown != shown ==> j <= LastWindowStart(count, newShown))
      && (j != i <==> newShown != shown && i > LastWindowStart(count, newShown))
  {
  }

  /** The prev arrow of a one-image slider: from the first slide to the last. */
  function CyclicPrev(i: int, n: int): (j: int)
    requires 0 <= i < n
    ensures 0 <= j < n
  {
    if i > 0 then i - 1 else n - 1
  }

  /** The next arrow of a one-image slider: from the last slide to the first. */
  function CyclicNext(i: int, n: int): (j: int)
    requires 0 <= i < n
    ensures 0 <= j < n
  {
    if i < n - 1 then i + 1 else 0
  }

  /** The two wrap-around steps undo each other. */
  lemma CyclicInverse(i: int, n: int)
    requires 0 <= i < n
    ensures CyclicNext(CyclicPrev(i, n), n) == i && CyclicPrev(CyclicNext(i, n), n) == i
  {
  }

  /** `k` clicks on the next arrow of a one-image slider. */
  function CyclicForwards(i: int, n: int, k: nat): (j: int)
    requires 0 <= i < n
    ensures 0 <= j < n
    decreases k
  {
    if k == 0 then i else CyclicForwards(CyclicNext(i, n), n, k - 1)
  }

  lemma {:induction false} CyclicForwardsAdd(i: int, n: int, a: nat, b: nat)
    requires 0 <= i < n
    ensures CyclicForwards(i, n, a + b) == CyclicForwards(CyclicForwards(i, n, a), n, b)
    decreases a
  {
    if a > 0 {
      CyclicForwardsAdd(CyclicNext(i, n), n, a - 1, b);
      assert a + b - 1 == (a - 1) + b;
    }
  }

  /** Short of the last slide, `k` clicks on next move `k` slides on. */
  lemma {:induction false} CyclicForwardsAhead(i: int, n: int, k: nat)
    requires 0 <= i && i + k < n
    ensures CyclicForwards(i, n, k) == i + k
    decreases k
  {
    if k > 0 {
      CyclicForwardsAhead(i + 1, n, k - 1);
    }
  }

  /** As many clicks on next as there are slides come back to the start. */
  lemma CyclicFullTurn(i: int, n: int)
    requires 0 <= i < n
    ensures CyclicForwards(i, n, n) == i
  {
    var toLast: nat := n - 1 - i;
    CyclicForwardsAdd(i, n, toLast, i + 1);
    CyclicForwardsAhead(i, n, toLast);
    CyclicForwardsAdd(n - 1, n, 1, i);
    assert CyclicForwards(n - 1, n, 1) == 0;
    CyclicForwardsAhead(0, n, i);
  }
}
