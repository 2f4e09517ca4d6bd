/** The FAQ accordion of the dogs landing page. Each question item is reduced
    to whether it holds an answer, a toggle button and the `faq-card-v4`
    class, and to the state the script changes: its `is-open` class, its
    `faq-card-v4--expanded` class and the toggle's `aria-expanded` attribute. */
module Faq {
  import opened JsValue

  /** An attribute of an element: not set, or set to a text. */
  datatype Attribute = Unset | Present(text: string)

  // ---------------------------------------------------------------------------
  // The open flags of the items, as functions of the flags before

  /** `openItem(item)` on the flags: an item without an answer stays as it is. */
  function Opened(open: seq<bool>, hasAnswer: seq<bool>, i: nat): (r: seq<bool>)
    requires |hasAnswer| == |open| && i < |open|
    ensures |r| == |open|
    ensures forall j :: 0 <= j < |open| ==> r[j] == if j == i && hasAnswer[i] then true else open[j]
  {
    if hasAnswer[i] then open[i := true] else open
  }

  /** `closeItem(item)` on the flags: an item without an answer stays as it is. */
  function Closed(open: seq<bool>, hasAnswer: seq<bool>, i: nat): (r: seq<bool>)
    requires |hasAnswer| == |open| && i < |open|
    ensures |r| == |open|
    ensures forall j :: 0 <= j < |open| ==> r[j] == if j == i && hasAnswer[i] then false else open[j]
  {
    if hasAnswer[i] then open[i := false] else open
  }

  /** Closing every other open item that has an answer. */
  function ClosedOthers(open: seq<bool>, hasAnswer: seq<bool>, i: nat): (r: seq<bool>)
    requires |hasAnswer| == |open| && i < |open|
    ensures |r| == |open|
    ensures r[i] == open[i]
    ensures forall j :: 0 <= j < |open| && j != i ==> r[j] == (open[j] && !hasAnswer[j])
  {
    seq(|open|, j requires 0 <= j < |open| => if j != i && hasAnswer[j] then false else open[j])
  }

  /** `toggleItem(item)` on the flags. */
  function Toggled(open: seq<bool>, hasAnswer: seq<bool>, i: nat, allowMultiple: bool): seq<bool>
    requires |hasAnswer| == |open| && i < |open|
  {
    if open[i] then Closed(open, hasAnswer, i)
    else Opened(if allowMultiple then open else ClosedOthers(open, hasAnswer, i), hasAnswer, i)
  }

  /** Only items with an answer are ever open. */
  ghost predicate OnlyAnswersOpen(open: seq<bool>, hasAnswer: seq<bool>)
    requires |hasAnswer| == |open|
  {
    forall j :: 0 <= j < |open| && open[j] ==> hasAnswer[j]
  }

  ghost predicate AtMostOneOpen(open: seq<bool>) {
    forall j, k :: 0 <= j < k < |open| ==> !(open[j] && open[k])
  }

  /** Without `allowMultiple`, opening an item closes all others: afterwards
      at most that item is open, and it is open exactly when it has an answer.
      Toggling keeps at most one item open, and only items with answers. */
  lemma ToggleSingle(open: seq<bool>, hasAnswer: seq<bool>, i: nat)
    requires |hasAnswer| == |open| && i < |open|
    requires OnlyAnswersOpen(open, hasAnswer)
    ensures var r := Toggled(open, hasAnswer, i, false);
      && OnlyAnswersOpen(r, hasAnswer)
      && (!open[i] ==> forall j :: 0 <= j < |r| ==> r[j] == (j == i && hasAnswer[i]))
      && (AtMostOneOpen(open) ==> AtMostOneOpen(r))
  {
  }

  /** With `allowMultiple`, a toggle changes the toggled item only, and
      toggling an item with an answer twice restores every item. */
  lemma ToggleMultiple(open: seq<bool>, hasAnswer: seq<bool>, i: nat)
    requires |hasAnswer| == |open| && i < |open|
    ensures var r := Toggled(open, hasAnswer, i, true);
      && (forall j :: 0 <= j < |r| && j != i ==> r[j] == open[j])
      && (hasAnswer[i] ==> r[i] == !open[i] && Toggled(r, hasAnswer, i, true) == open)
  {
    var r := Toggled(open, hasAnswer, i, true);
    if hasAnswer[i] {
      assert Toggled(r, hasAnswer, i, true) == open by {
        assert forall j :: 0 <= j < |open| ==> Toggled(r, hasAnswer, i, true)[j] == open[j];
      }
    }
  }

  // ---------------------------------------------------------------------------
  // The accordion

  class FaqAccordion {
    const allowMultiple: bool
    const count: nat
    /** Whether each item holds a `[data-faq-answer]` element. */
    const hasAnswer: seq<bool>
    /** Whether each item holds a `[data-faq-toggle]` button. */
    const hasToggle: seq<bool>
    /** Whether each item carries the `faq-card-v4` class. */
    const isV4Card: seq<bool>
    /** The `is-open` class of each item. */
    const open: array<bool>
    /** The `faq-card-v4--expanded` class of each item. */
    const expanded: array<bool>
    /** The `aria-expanded` attribute of each item's toggle. */
    const ariaExpanded: array<Attribute>

    /** Only items with an answer are open; a V4 card is expanded exactly
        when it is open; a toggle says `true` exactly when its item is open,
        and only toggles of items with an answer have the attribute at all. */
    ghost predicate Valid()
      reads this, open, expanded, ariaExpanded
    {
      && |hasAnswer| == count && |hasToggle| == count && |isV4Card| == count
      && open.Length == count && expanded.Length == count && ariaExpanded.Length == count
      && open != expanded
      && (forall j :: 0 <= j < count && open[j] ==> hasAnswer[j])
      && (forall j :: 0 <= j < count ==> expanded[j] == (isV4Card[j] && open[j]))
      && (forall j :: 0 <= j < count ==>
            if hasToggle[j] && hasAnswer[j]
            then (ariaExpanded[j] == Present("true") <==> open[j]) && (ariaExpanded[j] != Unset ==> ariaExpanded[j] in {Present("true"), Present("false")})
            else ariaExpanded[j] == Unset)
    }

    /** `new FAQAccordion({ allowMultiple })` over items that start closed;
        `allowMultiple` is whatever the option is truthy as, false when left out. */
    constructor(allowMultipleOption: Value, hasAnswer: seq<bool>, hasToggle: seq<bool>, isV4Card: seq<bool>)
      requires |hasToggle| == |hasAnswer| && |isV4Card| == |hasAnswer|
      ensures Valid() && fresh(open) && fresh(expanded) && fresh(ariaExpanded)
      ensures allowMultiple == Truthy(allowMultipleOption)
      ensures count == |hasAnswer| && this.hasAnswer == hasAnswer
      ensures this.hasToggle == hasToggle && this.isV4Card == isV4Card
      ensures forall j :: 0 <= j < count ==> !open[j]
    {
      allowMultiple := Truthy(allowMultipleOption);
      count := |hasAnswer|;
      this.hasAnswer := hasAnswer;
      this.hasToggle := hasToggle;
      this.isV4Card := isV4Card;
      open := new bool[|hasAnswer|](_ => false);
      expanded := new bool[|hasAnswer|](_ => false);
      ariaExpanded := new Attribute[|hasAnswer|](_ => Unset);
    }

    /** `init()`: without items nothing happens, otherwise the first item opens. */
    method Init()
      requires Valid()
      modifies open, expanded, ariaExpanded
      ensures Valid()
      ensures count == 0 ==> open[..] == old(open[..])
      ensures count > 0 ==> open[..] == Opened(old(open[..]), hasAnswer, 0)
      ensures count > 0 && hasAnswer[0] && hasToggle[0] ==> ariaExpanded[0] == Present("true")
      ensures forall j :: 0 <= j < count && (j != 0 || !hasAnswer[0]) ==> ariaExpanded[j] == old(ariaExpanded[j])
    {
      if count == 0 {
        return;
      }
      OpenItem(0);
    }

    /** `openItem(item)`: an item without an answer is left alone; otherwise
        it opens, a V4 card expands and the toggle says `true`. */
    method OpenItem(i: nat)
      requires Valid() && i < count
      modifies open, expanded, ariaExpanded
      ensures Valid()
      ensures open[..] == Opened(old(open[..]), hasAnswer, i)
      ensures hasAnswer[i] && hasToggle[i] ==> ariaExpanded[i] == Present("true")
      ensures forall j :: 0 <= j < count && j != i ==> ariaExpanded[j] == old(ariaExpanded[j])
      ensures !hasAnswer[i] ==> ariaExpanded[..] == old(ariaExpanded[..]) && expanded[..] == old(expanded[..])
    {
      if !hasAnswer[i] {
        return;
      }
      open[i] := true;
      if isV4Card[i] {
        expanded[i] := true;
      }
      if hasToggle[i] {
        ariaExpanded[i] := Present("true");
      }
    }

    /** `closeItem(item)`: an item without an answer is left alone; otherwise
        it closes, a V4 card collapses and the toggle says `false`. */
    method CloseItem(i: nat)
      requires Valid() && i < count
      modifies open, expanded, ariaExpanded
      ensures Valid()
      ensures open[..] == Closed(old(open[..]), hasAnswer, i)
      ensures hasAnswer[i] && hasToggle[i] ==> ariaExpanded[i] == Present("false")
      ensures forall j :: 0 <= j < count && j != i ==> ariaExpanded[j] == old(ariaExpanded[j])
      ensures !hasAnswer[i] ==> ariaExpanded[..] == old(ariaExpanded[..]) && expanded[..] == old(expanded[..])
    {
      if !hasAnswer[i] {
        return;
      }
      open[i] := false;
      if isV4Card[i] {
        expanded[i] := false;
      }
      if hasToggle[i] {
        ariaExpanded[i] := Present("false");
      }
    }

    /** `toggleItem(item)`: an open item closes; a closed one opens, after
        the other open items have closed unless several may be open. */
    method ToggleItem(i: nat)
      requires Valid() && i < count
      modifies open, expanded, ariaExpanded
      ensures Valid()
      ensures open[..] == Toggled(old(open[..]), hasAnswer, i, allowMultiple)
      ensures forall j :: 0 <= j < count && hasToggle[j] && hasAnswer[j] && old(open[j]) && !open[j] ==> ariaExpanded[j] == Present("false")
      ensures forall j :: 0 <= j < count && open[j] == old(open[j]) ==> ariaExpanded[j] == old(ariaExpanded[j])
    {
      var isOpen := open[i];
      if isOpen {
        CloseItem(i);
      } else {
        if !allowMultiple {
          ghost var before := open[..];
          ghost var beforeAria := ariaExpanded[..];
          for j := 0 to count
            invariant Valid()
            invariant forall m :: 0 <= m < count ==> open[m] == if m < j then ClosedOthers(before, hasAnswer, i)[m] else before[m]
            invariant forall m :: 0 <= m < count && open[m] == before[m] ==> ariaExpanded[m] == beforeAria[m]
            invariant forall m :: 0 <= m < count && hasToggle[m] && hasAnswer[m] && before[m] && !open[m] ==> ariaExpanded[m] == Present("false")
          {
            if j != i && open[j] {
              CloseItem(j);
            }
          }
          assert open[..] == ClosedOthers(before, hasAnswer, i);
        }
        OpenItem(i);
      }
    }

    /** `openAll()`: every item with an answer opens. */
    method OpenAll()
      requires Valid()
      modifies open, expanded, ariaExpanded
      ensures Valid()
      ensures forall j :: 0 <= j < count ==> open[j] == hasAnswer[j]
    {
      for j := 0 to count
        invariant Valid()
        invariant forall m :: 0 <= m < j ==> open[m] == hasAnswer[m]
      {
        OpenItem(j);
      }
    }

    /** `closeAll()`: every item closes, and every toggle of an item with an
        answer says `false`. */
    method CloseAll()
      requires Valid()
      modifies open, expanded, ariaExpanded
      ensures Valid()
      ensures forall j :: 0 <= j < count ==> !open[j] && !expanded[j]
      ensures forall j :: 0 <= j < count && hasToggle[j] && hasAnswer[j] ==> ariaExpanded[j] == Present("false")
    {
      for j := 0 to count
        invariant Valid()
        invariant forall m :: 0 <= m < j ==> !open[m]
        invariant forall m :: 0 <= m < j && hasToggle[m] && hasAnswer[m] ==> ariaExpanded[m] == Present("false")
      {
        CloseItem(j);
      }
    }
  }

  /** The page's accordion (`allowMultiple: false`) with three answered
      items: the first starts open, opening the third closes it, and toggling
      the third again leaves all closed. */
  method SingleOpenScenario()
  {
    var faq := new FaqAccordion(Bool(false), [true, true, true], [true, true, true], [true, false, false]);
    faq.Init();
    assert faq.open[..] == [true, false, false];
    faq.ToggleItem(2);
    assert faq.open[..] == [false, false, true];
    assert !faq.expanded[0] && faq.ariaExpanded[0] != Present("true");
    faq.ToggleItem(2);
    assert faq.open[..] == [false, false, false];
  }
}
