/** The step-page quiz script of the family landing page. It keeps the
    answers of each sub-landing (`hochzeit`, `familie`, `tier`, `business`)
    apart by choosing the localStorage key from the page's path, and besides
    option clicks it handles a multiple-choice step, a date step, a free-text
    step and a second form layout that collects time slots. */
module FamilyQuizNav {
  import opened Text
  import opened JsValue
  import opened QuizStore

  /** The sub-landings in the order the path pattern lists them. */
  const Sublandings: seq<string> := ["hochzeit", "familie", "tier", "business"]

  /** The sub-landing whose `/name/` starts at position `i` of the path, trying
      the names in pattern order. */
  function SublandingAt(path: string, i: nat): (seg: Option<string>)
    requires i <= |path|
    ensures seg.Some? ==> seg.value in Sublandings && StartsWith(path[i..], "/" + seg.value + "/")
  {
    if StartsWith(path[i..], "/hochzeit/") then Some("hochzeit")
    else if StartsWith(path[i..], "/familie/") then Some("familie")
    else if StartsWith(path[i..], "/tier/") then Some("tier")
    else if StartsWith(path[i..], "/business/") then Some("business")
    else None
  }

  /** The leftmost sub-landing name between two slashes in `path`, looking
      from position `i` on. */
  function FirstSublanding(path: string, i: nat): Option<string>
    requires i <= |path|
    decreases |path| - i
  {
    if i == |path| then None
    else if SublandingAt(path, i).Some? then SublandingAt(path, i)
    else FirstSublanding(path, i + 1)
  }

  /** `getStorageKey()`: `quiz_answers_` plus the first sub-landing in the
      path, or plain `quiz_answers` when the path names none. */
  function StorageKey(path: string): (key: string)
    ensures key == "quiz_answers" || exists s :: s in Sublandings && key == "quiz_answers_" + s
  {
    match FirstSublanding(path, 0)
    case Some(seg) =>
      assert seg in Sublandings by { FirstSublandingFound(path, 0); }
      "quiz_answers_" + seg
    case None => "quiz_answers"
  }

  lemma {:induction false} FirstSublandingFound(path: string, i: nat)
    requires i <= |path|
    ensures FirstSublanding(path, i).Some? ==> FirstSublanding(path, i).value in Sublandings
    decreases |path| - i
  {
    if i < |path| && SublandingAt(path, i).None? {
      FirstSublandingFound(path, i + 1);
    }
  }

  /** At most one name matches at a position: the names already differ in
      their first letter. */
  lemma OneSublandingAt(path: string, i: nat, seg: string)
    requires i <= |path| && seg in Sublandings && StartsWith(path[i..], "/" + seg + "/")
    ensures SublandingAt(path, i) == Some(seg)
  {
    assert path[i..][1] == ("/" + seg + "/")[1] == seg[0];
  }

  /** The scan from `i` finds the name at the first position from `i` where
      one occurs. */
  lemma {:induction false} FirstSublandingAt(path: string, i: nat, at: nat, seg: string)
    requires i <= at <= |path| && seg in Sublandings && StartsWith(path[at..], "/" + seg + "/")
    requires forall j :: i <= j < at ==> SublandingAt(path, j).None?
    ensures FirstSublanding(path, i) == Some(seg)
    decreases at - i
  {
    OneSublandingAt(path, at, seg);
    if i < at {
      FirstSublandingAt(path, i + 1, at, seg);
    }
  }

  /** A path with no sub-landing anywhere scans to nothing. */
  lemma {:induction false} NoSublanding(path: string, i: nat)
    requires i <= |path|
    requires forall j :: i <= j <= |path| ==> SublandingAt(path, j).None?
    ensures FirstSublanding(path, i).None?
    decreases |path| - i
  {
    if i < |path| {
      NoSublanding(path, i + 1);
    }
  }

  /** The key names the sub-landing whose `/name/` comes first in the path;
      a path without one uses the shared key. */
  lemma StorageKeyOfPath(path: string, at: nat, seg: string)
    ensures at <= |path| && seg in Sublandings && StartsWith(path[at..], "/" + seg + "/")
         && (forall j :: 0 <= j < at ==> SublandingAt(path, j).None?)
         ==> StorageKey(path) == "quiz_answers_" + seg
    ensures (forall j :: 0 <= j <= |path| ==> SublandingAt(path, j).None?) ==> StorageKey(path) == "quiz_answers"
  {
    if at <= |path| && seg in Sublandings && StartsWith(path[at..], "/" + seg + "/")
       && (forall j :: 0 <= j < at ==> SublandingAt(path, j).None?) {
      FirstSublandingAt(path, 0, at, seg);
    }
    if forall j :: 0 <= j <= |path| ==> SublandingAt(path, j).None? {
      NoSublanding(path, 0);
    }
  }

  /** Two sub-landings never share a key, and none shares the plain key. */
  lemma StorageKeysApart(s: string, t: string)
    requires s in Sublandings && t in Sublandings && s != t
    ensures "quiz_answers_" + s != "quiz_answers_" + t
    ensures "quiz_answers_" + s != "quiz_answers"
  {
    var p := "quiz_answers_";
    assert ("quiz_answers_" + s)[|p|..] == s && ("quiz_answers_" + t)[|p|..] == t;
    assert |"quiz_answers_" + s| > |"quiz_answers"|;
  }

  /** `handleOptionClick(e)` on a page under `path`, with the 200 ms delay
      left out: the answer is recorded under that path's key and the page
      to go to is the option's link. */
  method HandleOptionClick(storage: LocalStorage, path: string, step: Value, value: Value, now: string, href: Value)
    returns (target: Value)
    modifies storage
    ensures target == href
    ensures storage.items == old(storage.items)[StorageKey(path) := Json(Stringified(Recorded(Answers(old(storage.items), StorageKey(path)), step, value, now)))]
  {
    RecordAnswer(storage, StorageKey(path), step, value, now);
    target := href;
  }

  /** A checkbox of the multiple-choice step. */
  datatype Checkbox = Checkbox(checked: bool, value: string)

  /** The values of the checked boxes, in document order. */
  function CheckedValues(boxes: seq<Checkbox>): (values: seq<string>)
    ensures |values| <= |boxes|
    decreases |boxes|
  {
    if boxes == [] then []
    else CheckedValues(boxes[..|boxes| - 1]) + (if boxes[|boxes| - 1].checked then [boxes[|boxes| - 1].value] else [])
  }

  /** A value is collected exactly when some checked box carries it. */
  lemma {:induction false} CheckedValuesSpec(boxes: seq<Checkbox>, v: string)
    ensures v in CheckedValues(boxes) <==> exists i :: 0 <= i < |boxes| && boxes[i].checked && boxes[i].value == v
    decreases |boxes|
  {
    if boxes != [] {
      var front := boxes[..|boxes| - 1];
      CheckedValuesSpec(front, v);
      if v in CheckedValues(front) {
        var i :| 0 <= i < |front| && front[i].checked && front[i].value == v;
        assert boxes[i] == front[i];
      }
      if exists i :: 0 <= i < |boxes| && boxes[i].checked && boxes[i].value == v {
        var i :| 0 <= i < |boxes| && boxes[i].checked && boxes[i].value == v;
        if i < |front| {
          assert front[i] == boxes[i];
        }
      }
    }
  }

  /** Collecting is compositional: the boxes of a page split in two give the
      values of the first part followed by those of the second. */
  lemma {:induction false} CheckedValuesAppend(a: seq<Checkbox>, b: seq<Checkbox>)
    ensures CheckedValues(a + b) == CheckedValues(a) + CheckedValues(b)
    decreases |b|
  {
    if b == [] {
      assert a + b == a;
    } else {
      var b' := b[..|b| - 1];
      assert (a + b)[..|a + b| - 1] == a + b';
      assert (a + b)[|a + b| - 1] == b[|b| - 1];
      CheckedValuesAppend(a, b');
    }
  }

  /** The continue button's pass over the checkboxes, pushing the value of
      each checked one. */
  method CollectSelected(boxes: seq<Checkbox>) returns (selected: seq<string>)
    ensures selected == CheckedValues(boxes)
  {
    selected := [];
    for i := 0 to |boxes|
      invariant selected == CheckedValues(boxes[..i])
    {
      assert boxes[..i + 1][..i] == boxes[..i];
      if boxes[i].checked {
        selected := selected + [boxes[i].value];
      }
    }
    assert boxes[..|boxes|] == boxes;
  }

  /** The strings as a JavaScript array. */
  function Strings(values: seq<string>): (v: Value)
    ensures v.List? && |v.items| == |values|
    ensures forall k :: 0 <= k < |values| ==> v.items[k] == Str(values[k])
  {
    List(seq(|values|, k requires 0 <= k < |values| => Str(values[k])))
  }

  /** The multiple-choice step's continue button: the checked values, in
      order, are the step's answer; the page to go to is the button's link. */
  method HandleMultiselectContinue(storage: LocalStorage, path: string, step: Value, boxes: seq<Checkbox>, now: string, href: Value)
    returns (target: Value)
    modifies storage
    ensures target == href
    ensures storage.items == old(storage.items)[StorageKey(path) := Json(Stringified(Recorded(Answers(old(storage.items), StorageKey(path)), step, Strings(CheckedValues(boxes)), now)))]
  {
    var selected := CollectSelected(boxes);
    RecordAnswer(storage, StorageKey(path), step, Strings(selected), now);
    target := href;
  }

  /** The date step's continue button (and, identically, the free-text
      step's): the input's text is the step's answer. */
  method HandleInputContinue(storage: LocalStorage, path: string, step: Value, text: string, now: string, href: Value)
    returns (target: Value)
    modifies storage
    ensures target == href
    ensures storage.items == old(storage.items)[StorageKey(path) := Json(Stringified(Recorded(Answers(old(storage.items), StorageKey(path)), step, Str(text), now)))]
  {
    RecordAnswer(storage, StorageKey(path), step, Str(text), now);
    target := href;
  }

  /** `handleConditionalNavigation(option)`: a non-empty `data-next-page`
      overrides the option's link. */
  function ConditionalNavigation(nextPage: Option<string>, href: Value): (target: Value)
    ensures nextPage.Some? && nextPage.value != "" ==> target == Str(nextPage.value)
    ensures nextPage.None? || nextPage.value == "" ==> target == href
  {
    if nextPage.Some? && Truthy(Str(nextPage.value)) then Str(nextPage.value) else href
  }

  /** `handleFormSubmit(e)` on a page under `path`. */
  method HandleFormSubmit(storage: LocalStorage, path: string, form: FormData, action: Value, now: string, url: string)
    returns (target: Value)
    modifies storage
    ensures target == Or(action, Str("quiz-success.html"))
    ensures storage.items == old(storage.items)[StorageKey(path) := Json(Stringified(Overlay(Answers(old(storage.items), StorageKey(path)), FormSubmission(form, now, url))))]
  {
    target := SubmitForm(storage, StorageKey(path), form, action, now, url);
  }

  /** The object the V5 form adds to the answers: every `timeslot[]` field in
      order instead of a single availability. */
  function V5Submission(form: FormData, now: string, url: string): (extra: Fields)
    ensures DistinctKeys(extra)
  {
    [("name", FormGet(form, "name")), ("email", FormGet(form, "email")),
     ("phone", FormGet(form, "phone")), ("timeslots", Strings(FormGetAll(form, "timeslot[]"))),
     ("privacy", Privacy(form)), ("submittedAt", Str(now)), ("source", Str(url))]
  }

  /** The V5 submission lists every chosen time slot in order and carries
      the privacy flag. */
  lemma V5SubmissionGet(answers: Fields, form: FormData, now: string, url: string)
    ensures var data := Overlay(answers, V5Submission(form, now, url));
      && Get(data, "timeslots") == Some(Strings(FormGetAll(form, "timeslot[]")))
      && Get(data, "privacy") == Some(Privacy(form))
  {
    var extra := V5Submission(form, now, url);
    GetDistinct(extra, 3);
    OverlayGet(answers, extra, extra[3].0);
    GetDistinct(extra, 4);
    OverlayGet(answers, extra, extra[4].0);
  }

  /** The V5 form sets no availability: an earlier `availability` answer is
      kept as it was. */
  lemma V5SubmissionKeepsAvailability(answers: Fields, form: FormData, now: string, url: string)
    ensures Get(Overlay(answers, V5Submission(form, now, url)), "availability") == Get(answers, "availability")
  {
    var extra := V5Submission(form, now, url);
    OverlayGet(answers, extra, "availability");
    assert Get(extra, "availability").None? by {
      forall i | 0 <= i < |extra| ensures extra[i].0 != "availability" {
        assert extra[i].0[1] != 'v' == "availability"[1];
      }
    }
  }

  /** `handleFormV5Submit(e)` on a page under `path`. */
  method HandleFormV5Submit(storage: LocalStorage, path: string, form: FormData, action: Value, now: string, url: string)
    returns (target: Value)
    modifies storage
    ensures target == Or(action, Str("quiz-success.html"))
    ensures storage.items == old(storage.items)[StorageKey(path) := Json(Stringified(Overlay(Answers(old(storage.items), StorageKey(path)), V5Submission(form, now, url))))]
  {
    var successPage := if Truthy(action) then action else Str("quiz-success.html");
    var answers := Answers(storage.items, StorageKey(path));
    var data := Overlay(answers, V5Submission(form, now, url));
    storage.SetItem(StorageKey(path), Json(Stringified(data)));
    target := successPage;
  }

  /** Answers given on one sub-landing leave those of another untouched. */
  lemma SublandingsKeptApart(items: map<string, Stored>, s: string, t: string, step: Value, value: Value, now: string)
    requires s in Sublandings && t in Sublandings && s != t
    ensures var written := items["quiz_answers_" + s := Json(Stringified(Recorded(Answers(items, "quiz_answers_" + s), step, value, now)))];
      Answers(written, "quiz_answers_" + t) == Answers(items, "quiz_answers_" + t)
  {
    StorageKeysApart(s, t);
  }
}
