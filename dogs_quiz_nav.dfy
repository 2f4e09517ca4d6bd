/** The step-page quiz script of the dogs landing page: every step is its own
    page, an option click records the answer in localStorage under the fixed
    key `quiz_answers` and follows the option's link, and the form page
    saves the answers together with the form fields. The success page reads
    the answers and leaves them in place. */
module DogsQuizNav {
  import opened JsValue
  import opened QuizStore

  const StorageKey := "quiz_answers"

  /** `getAnswers()`. */
  function GetAnswers(storage: LocalStorage): (answers: Fields)
    reads storage
    ensures StorageKey !in storage.items ==> answers == []
    ensures StorageKey in storage.items && storage.items[StorageKey].Json? ==> answers == storage.items[StorageKey].fields
  {
    Answers(storage.items, StorageKey)
  }

  /** `handleOptionClick(e)` for an option with `data-value` `value` and link
      `href` on the page of step `step`, with the 200 ms delay left out: the
      answer is recorded and the page to go to is the link. */
  method HandleOptionClick(storage: LocalStorage, step: Value, value: Value, now: string, href: Value)
    returns (target: Value)
    modifies storage
    ensures target == href
    ensures storage.items == old(storage.items)[StorageKey := Json(Stringified(Recorded(Answers(old(storage.items), StorageKey), step, value, now)))]
  {
    RecordAnswer(storage, StorageKey, step, value, now);
    target := href;
  }

  /** `handleFormSubmit(e)`: the answers overlaid by the form are saved and
      the page to go to is the form's action, or `quiz-success.html`. */
  method HandleFormSubmit(storage: LocalStorage, form: FormData, action: Value, now: string, url: string)
    returns (target: Value)
    modifies storage
    ensures target == Or(action, Str("quiz-success.html"))
    ensures storage.items == old(storage.items)[StorageKey := Json(Stringified(Overlay(Answers(old(storage.items), StorageKey), FormSubmission(form, now, url))))]
  {
    target := SubmitForm(storage, StorageKey, form, action, now, url);
  }

  /** What `init()` does on the success page: it reads the answers and
      changes nothing, since the call that would clear them is commented out. */
  method SuccessPage(storage: LocalStorage) returns (answers: Fields)
    ensures answers == GetAnswers(storage)
  {
    answers := Answers(storage.items, StorageKey);
  }

  /** Submitting the form and then landing on the success page: the success
      page finds exactly the submitted data (less its undefined properties),
      and it is still stored afterwards. */
  method SubmitThenSuccess(storage: LocalStorage, form: FormData, action: Value, now: string, url: string)
    returns (shown: Fields)
    modifies storage
    ensures shown == Stringified(Overlay(Answers(old(storage.items), StorageKey), FormSubmission(form, now, url)))
    ensures StorageKey in storage.items && storage.items[StorageKey] == Json(shown)
  {
    var _ := HandleFormSubmit(storage, form, action, now, url);
    shown := SuccessPage(storage);
  }
}
