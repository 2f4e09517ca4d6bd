/** The in-page quiz of the dogs landing page (the `Quiz` class). The panels
    are the elements carrying `data-quiz-step`, in document order: the
    numbered steps, the form panel `form` and the success panel `success`.
    Each answer option is reduced to its `data-quiz-option` value and the
    panel that encloses it. Saved answers live in localStorage under
    `quiz_answers`, the step under `quiz_step`. */
module Quiz {
  import opened Text
  import opened JsValue
  import opened Slider
  import opened QuizStore

  const AnswersKey := "quiz_answers"
  const StepStorageKey := "quiz_step"

  /** `options.totalSteps || 4`: a missing or zero step count means four
      steps (the page passes `parseInt(data-quiz-steps) || 4`, so a
      non-numeric attribute means four as well). */
  function TotalSteps(option: Option<int>): (n: int)
    ensures n != 0
    ensures option.None? || option.value == 0 ==> n == 4
    ensures option.Some? && option.value != 0 ==> n == option.value
  {
    if option.Some? && option.value != 0 then option.value else 4
  }

  /** `document.querySelector('[data-quiz-step="label"]')`: the first panel
      with that label, or -1 when there is none. */
  function FirstPanel(labels: seq<string>, wanted: string): (r: int)
    ensures -1 <= r < |labels|
    ensures r == -1 <==> wanted !in labels
    ensures r >= 0 ==> labels[r] == wanted && forall j :: 0 <= j < r ==> labels[j] != wanted
    decreases |labels|
  {
    if labels == [] then -1
    else if labels[0] == wanted then 0
    else
      var r := FirstPanel(labels[1..], wanted);
      if r == -1 then -1 else r + 1
  }

  /** The panel `nextStep()` shows for a step number: the numbered step while
      there are steps left, the form after the last one. */
  function StepLabel(step: nat, totalSteps: int): string {
    if step >= totalSteps then "form" else NatToString(step)
  }

  /** Different steps show different panels, the form only once the steps
      are used up, and never the success panel. */
  lemma StepLabelsDistinct(n: nat, m: nat, totalSteps: int)
    ensures StepLabel(n, totalSteps) == "form" <==> n >= totalSteps
    ensures StepLabel(n, totalSteps) != "success"
    ensures n != m && n < totalSteps && m < totalSteps ==> StepLabel(n, totalSteps) != StepLabel(m, totalSteps)
  {
    if n < totalSteps {
      assert NatToString(n)[0] != "form"[0] && NatToString(n)[0] != "success"[0];
      if m < totalSteps && NatToString(n) == NatToString(m) {
        NatToStringRoundTrip(n);
        NatToStringRoundTrip(m);
      }
    }
    assert "form" != "success" by { assert "form"[0] != "success"[0]; }
  }

  /** The object `submitForm` builds: the answers overlaid by the contact
      fields, every checked availability, the privacy flag, the time and
      the page address. */
  function QuizSubmission(form: FormData, now: string, url: string): (extra: Fields)
    ensures DistinctKeys(extra)
  {
    var slots := FormGetAll(form, "availability");
    [("name", FormGet(form, "name")), ("email", FormGet(form, "email")),
     ("phone", FormGet(form, "phone")),
     ("availability", List(seq(|slots|, k requires 0 <= k < |slots| => Str(slots[k])))),
     ("privacy", Privacy(form)), ("timestamp", Str(now)), ("source", Str(url))]
  }

  /** The submitted object lists every `availability` field in order and
      carries the privacy flag. */
  lemma QuizSubmissionGet(answers: Fields, form: FormData, now: string, url: string)
    ensures var data := Overlay(answers, QuizSubmission(form, now, url));
      var slots := FormGetAll(form, "availability");
      && Get(data, "availability").Some?
      && Get(data, "availability").value.List?
      && |Get(data, "availability").value.items| == |slots|
      && (forall k :: 0 <= k < |slots| ==> Get(data, "availability").value.items[k] == Str(slots[k]))
      && Get(data, "privacy") == Some(Privacy(form))
  {
    var extra := QuizSubmission(form, now, url);
    GetDistinct(extra, 3);
    OverlayGet(answers, extra, extra[3].0);
    GetDistinct(extra, 4);
    OverlayGet(answers, extra, extra[4].0);
  }

  /** The submitted object keeps the answer of every step. */
  lemma QuizSubmissionKeepsAnswers(answers: Fields, form: FormData, now: string, url: string, step: Value)
    ensures Get(Overlay(answers, QuizSubmission(form, now, url)), StepKey(step)) == Get(answers, StepKey(step))
  {
    var extra := QuizSubmission(form, now, url);
    OverlayGet(answers, extra, StepKey(step));
    assert Get(extra, StepKey(step)).None? by {
      forall i | 0 <= i < |extra| ensures extra[i].0 != StepKey(step) {
        assert extra[i].0[1] != 't' == StepKey(step)[1];
      }
    }
  }

  class Quiz {
    const totalSteps: int
    const storage: LocalStorage
    /** The `data-quiz-step` label of each panel. */
    const labels: seq<string>
    /** The `is-active` class of each panel. */
    const active: array<bool>
    /** The `data-quiz-option` value of each option. */
    const optionValue: seq<string>
    /** The panel enclosing each option, or -1 for an option outside every panel. */
    const optionPanel: seq<int>
    /** The `is-selected` class of each option. */
    const selected: array<bool>
    var currentStep: nat
    var answers: Fields
    /** The `is-open` class of the quiz element. */
    var isOpen: bool

    /** At most one panel is active, and it is the first panel with its label. */
    ghost predicate Valid()
      reads this, active, selected
    {
      && active.Length == |labels| && selected.Length == |optionValue|
      && |optionPanel| == |optionValue| && active != selected
      && (forall k :: 0 <= k < |optionPanel| ==> -1 <= optionPanel[k] < |labels|)
      && (forall j :: 0 <= j < |labels| && active[j] ==> FirstPanel(labels, labels[j]) == j)
      && (forall j, m :: 0 <= j < m < |labels| ==> !(active[j] && active[m]))
    }

    /** `new Quiz({ totalSteps })` on a page whose panels and options start
        neither active nor selected. */
    constructor(totalStepsOption: Option<int>, storage: LocalStorage, labels: seq<string>,
                optionValue: seq<string>, optionPanel: seq<int>)
      requires |optionPanel| == |optionValue|
      requires forall k :: 0 <= k < |optionPanel| ==> -1 <= optionPanel[k] < |labels|
      ensures Valid() && fresh(active) && fresh(selected)
      ensures totalSteps == TotalSteps(totalStepsOption)
      ensures currentStep == 0 && answers == [] && !isOpen
      ensures this.storage == storage && this.labels == labels
      ensures this.optionValue == optionValue && this.optionPanel == optionPanel
    {
      totalSteps := TotalSteps(totalStepsOption);
      this.storage := storage;
      this.labels := labels;
      this.optionValue := optionValue;
      this.optionPanel := optionPanel;
      active := new bool[|labels|](_ => false);
      selected := new bool[|optionValue|](_ => false);
      currentStep := 0;
      answers := [];
      isOpen := false;
    }

    /** `init()` on a page that has the quiz element: restore the saved
        answers, then hide every panel. */
    method Init()
      requires Valid()
      modifies this, active
      ensures Valid()
      ensures answers == Restored(old(answers), storage.items)
      ensures !isOpen && forall j :: 0 <= j < |labels| ==> !active[j]
      ensures currentStep == old(currentStep)
    {
      LoadSavedAnswers();
      HideAllSteps();
    }

    /** What `loadSavedAnswers()` leaves in the answers: the saved object if
        there is one; the answers as they were when nothing is saved or the
        saved text cannot be read as an object. */
    static function Restored(answers: Fields, items: map<string, Stored>): (r: Fields)
      ensures AnswersKey in items && items[AnswersKey].Json? ==> r == items[AnswersKey].fields
      ensures AnswersKey !in items || items[AnswersKey].Other? ==> r == answers
    {
      if AnswersKey in items && items[AnswersKey].Json? then items[AnswersKey].fields else answers
    }

    /** `loadSavedAnswers()`. The saved step is read but not used. */
    method LoadSavedAnswers()
      modifies this`answers
      ensures answers == Restored(old(answers), storage.items)
    {
      if AnswersKey in storage.items {
        var saved := storage.items[AnswersKey];
        if saved.Json? {
          answers := saved.fields;
        }
      }
    }

    /** `saveAnswers()`: the answers as JSON and the step number as text. */
    method SaveAnswers()
      modifies storage
      ensures storage.items == old(storage.items)[AnswersKey := Json(Stringified(answers))][StepStorageKey := Other(NatToString(currentStep))]
    {
      storage.SetItem(AnswersKey, Json(Stringified(answers)));
      storage.SetItem(StepStorageKey, Other(NatToString(currentStep)));
    }

    /** `clearSavedAnswers()`: both keys go, every other item stays. */
    method ClearSavedAnswers()
      modifies storage
      ensures storage.items == old(storage.items) - {AnswersKey, StepStorageKey}
    {
      storage.RemoveItem(AnswersKey);
      storage.RemoveItem(StepStorageKey);
    }

    /** `hideAllSteps()`: the quiz closes and no panel is active. */
    method HideAllSteps()
      requires Valid()
      modifies this`isOpen, active
      ensures Valid()
      ensures !isOpen && forall j :: 0 <= j < |labels| ==> !active[j]
    {
      isOpen := false;
      for j := 0 to |labels|
        invariant Valid() && !isOpen
        invariant forall m :: 0 <= m < j ==> !active[m]
      {
        active[j] := false;
      }
    }

    /** `showStep(label)`: the quiz opens and exactly the first panel with the
        label is active (none when no panel has it). */
    method ShowStep(wanted: string)
      requires Valid()
      modifies this`isOpen, active
      ensures Valid()
      ensures isOpen
      ensures forall j :: 0 <= j < |labels| ==> active[j] == (j == FirstPanel(labels, wanted))
    {
      isOpen := true;
      for j := 0 to |labels|
        invariant Valid() && isOpen
        invariant forall m :: 0 <= m < j ==> !active[m]
      {
        active[j] := false;
      }
      var target := FirstPanel(labels, wanted);
      if target >= 0 {
        active[target] := true;
      }
    }

    /** The CTA buttons: back to the first step, shown. */
    method OpenFromCta()
      requires Valid()
      modifies this, active
      ensures Valid()
      ensures currentStep == 0 && answers == old(answers) && isOpen
      ensures forall j :: 0 <= j < |labels| ==> active[j] == (j == FirstPanel(labels, "0"))
    {
      currentStep := 0;
      ShowStep(NatToString(currentStep));
    }

    /** `nextStep()`: one step on; the form panel once the steps are used up. */
    method NextStep()
      requires Valid()
      modifies this, active
      ensures Valid()
      ensures currentStep == old(currentStep) + 1 && answers == old(answers) && isOpen
      ensures forall j :: 0 <= j < |labels| ==> active[j] == (j == FirstPanel(labels, StepLabel(currentStep, totalSteps)))
    {
      currentStep := currentStep + 1;
      if currentStep >= totalSteps {
        ShowStep("form");
      } else {
        ShowStep(NatToString(currentStep));
      }
    }

    /** `prevStep()`: one step back and shown; on the first step nothing happens. */
    method PrevStep()
      requires Valid()
      modifies this, active
      ensures Valid()
      ensures currentStep == StepBack(old(currentStep), 0) && answers == old(answers)
      ensures old(currentStep) == 0 ==> isOpen == old(isOpen) && active[..] == old(active[..])
      ensures old(currentStep) > 0 ==> isOpen && forall j :: 0 <= j < |labels| ==> active[j] == (j == FirstPanel(labels, NatToString(currentStep)))
    {
      if currentStep > 0 {
        currentStep := currentStep - 1;
        ShowStep(NatToString(currentStep));
      }
    }

    /** The step an option's answer is recorded for: its panel's label, or the
        current step number for an option outside every panel. */
    function OptionStep(k: nat): string
      requires Valid() && k < |optionValue|
      reads this, active, selected
    {
      if optionPanel[k] >= 0 then labels[optionPanel[k]] else NatToString(currentStep)
    }

    /** `selectOption(e)`, with the 300 ms delay before `nextStep()` left out.
        The answer is recorded and saved; an option outside every panel then
        stops the handler with a TypeError, since it has no panel to look for
        siblings in. Otherwise the option becomes the only selected one of its
        panel and the quiz moves on. */
    method SelectOption(k: nat)
      requires Valid() && k < |optionValue|
      modifies this, active, selected, storage
      ensures Valid()
      ensures answers == Set(old(answers), StepKey(Str(old(OptionStep(k)))), Str(optionValue[k]))
      ensures storage.items == old(storage.items)[AnswersKey := Json(Stringified(answers))][StepStorageKey := Other(NatToString(old(currentStep)))]
      ensures optionPanel[k] < 0 ==> currentStep == old(currentStep) && isOpen == old(isOpen)
      ensures optionPanel[k] < 0 ==> active[..] == old(active[..]) && selected[..] == old(selected[..])
      ensures optionPanel[k] >= 0 ==> isOpen
      ensures optionPanel[k] >= 0 ==> forall j :: 0 <= j < |optionValue| ==>
        selected[j] == if optionPanel[j] == optionPanel[k] then j == k else old(selected[j])
      ensures optionPanel[k] >= 0 ==> currentStep == old(currentStep) + 1
      ensures optionPanel[k] >= 0 ==> forall j :: 0 <= j < |labels| ==>
        active[j] == (j == FirstPanel(labels, StepLabel(currentStep, totalSteps)))
    {
      var panel := optionPanel[k];
      var stepIndex := if panel >= 0 then labels[panel] else NatToString(currentStep);
      answers := Set(answers, StepKey(Str(stepIndex)), Str(optionValue[k]));
      SaveAnswers();
      if panel < 0 {
        return;
      }
      MarkSelected(k);
      NextStep();
    }

    /** The visual feedback of `selectOption`: every option of the panel loses
        `is-selected`, then the chosen one gets it. */
    method MarkSelected(k: nat)
      requires Valid() && k < |optionValue| && optionPanel[k] >= 0
      modifies selected
      ensures Valid()
      ensures forall j :: 0 <= j < |optionValue| ==>
        selected[j] == if optionPanel[j] == optionPanel[k] then j == k else old(selected[j])
    {
      var panel := optionPanel[k];
      for j := 0 to |optionValue|
        invariant Valid()
        invariant forall m :: 0 <= m < |optionValue| ==>
          selected[m] == if m < j && optionPanel[m] == panel then false else old(selected[m])
      {
        if optionPanel[j] == panel {
          selected[j] := false;
        }
      }
      selected[k] := true;
    }

    /** `submitForm(e)` without the optional POST, whose failure is ignored:
        the data handed to `onComplete` is the answers overlaid by the form;
        the success panel shows and the saved answers are cleared, while the
        answers in memory and the step stay. */
    method SubmitForm(form: FormData, now: string, url: string) returns (data: Fields)
      requires Valid()
      modifies this`isOpen, active, storage
      ensures Valid()
      ensures data == Overlay(answers, QuizSubmission(form, now, url))
      ensures storage.items == old(storage.items) - {AnswersKey, StepStorageKey}
      ensures isOpen && forall j :: 0 <= j < |labels| ==> active[j] == (j == FirstPanel(labels, "success"))
    {
      data := Overlay(answers, QuizSubmission(form, now, url));
      ShowStep("success");
      ClearSavedAnswers();
    }

    /** `reset()`: back to the first step with no answers, nothing saved, the
        quiz hidden and no option selected. */
    method Reset()
      requires Valid()
      modifies this, active, selected, storage
      ensures Valid()
      ensures currentStep == 0 && answers == [] && !isOpen
      ensures storage.items == old(storage.items) - {AnswersKey, StepStorageKey}
      ensures forall j :: 0 <= j < |labels| ==> !active[j]
      ensures forall j :: 0 <= j < |optionValue| ==> !selected[j]
    {
      currentStep := 0;
      answers := [];
      ClearSavedAnswers();
      HideAllSteps();
      ClearSelection();
    }

    /** Every option loses `is-selected`. */
    method ClearSelection()
      requires Valid()
      modifies selected
      ensures Valid()
      ensures forall j :: 0 <= j < |optionValue| ==> !selected[j]
    {
      for j := 0 to |optionValue|
        invariant Valid()
        invariant forall m :: 0 <= m < j ==> !selected[m]
      {
        selected[j] := false;
      }
    }
  }

  /** A two-step quiz whose panels are `0`, `1`, `form` and `success`: the
      CTA shows step 0, and an answer there moves to step 1 and selects it. */
  method TwoStepScenario()
  {
    var storage := new LocalStorage(map[]);
    var quiz := new Quiz(Some(2), storage, ["0", "1", "form", "success"], ["a", "b"], [0, 1]);
    quiz.Init();
    quiz.OpenFromCta();
    assert FirstPanel(quiz.labels, "0") == 0;
    assert quiz.active[0];
    quiz.SelectOption(0);
    assert quiz.currentStep == 1 && quiz.selected[0];
    assert StepLabel(1, 2) == "1";
    assert FirstPanel(quiz.labels, "1") == 1;
    assert quiz.active[1] && !quiz.active[0];
  }
}
