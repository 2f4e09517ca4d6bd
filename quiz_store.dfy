/** What the quiz scripts keep in the browser's localStorage and how they read
    and write it: the answers object stored as JSON under a key, the form
    fields they read through FormData, and the object a submitted form
    produces. Shared by the quiz of the dogs landing page and the quiz page
    scripts of the family and dogs landing pages. */
module QuizStore {
  import opened Text
  import opened JsValue

  /** The text localStorage holds under a key: the JSON text of an object, or
      any other text. */
  datatype Stored = Json(fields: Fields) | Other(text: string)

  /** `window.localStorage`. */
  class LocalStorage {
    var items: map<string, Stored>

    constructor(items: map<string, Stored>)
      ensures this.items == items
    {
      this.items := items;
    }

    /** `localStorage.setItem(key, value)`. */
    method SetItem(key: string, value: Stored)
      modifies this
      ensures items == old(items)[key := value]
    {
      items := items[key := value];
    }

    /** `localStorage.removeItem(key)`. */
    method RemoveItem(key: string)
      modifies this
      ensures items == old(items) - {key}
    {
      items := items - {key};
    }
  }

  /** `JSON.stringify` of an object leaves out the properties whose value is
      `undefined` (a missing `data-value` attribute, say). */
  function Stringified(f: Fields): (r: Fields)
    ensures |r| <= |f|
    decreases |f|
  {
    if f == [] then []
    else if f[0].1.Undefined? then Stringified(f[1..])
    else [f[0]] + Stringified(f[1..])
  }

  /** Reading back what was stored gives every property except the undefined ones. */
  lemma {:induction false} StringifiedGet(f: Fields, k: string)
    requires DistinctKeys(f)
    ensures Get(Stringified(f), k) == if Get(f, k) == Some(Undefined) then None else Get(f, k)
    decreases |f|
  {
    if f != [] {
      assert DistinctKeys(f[1..]) by {
        forall i, j | 0 <= i < j < |f[1..]| ensures f[1..][i].0 != f[1..][j].0 {
          assert f[1..][i] == f[i + 1] && f[1..][j] == f[j + 1];
        }
      }
      StringifiedGet(f[1..], k);
      if f[0].0 == k {
        assert Get(f[1..], k).None? by {
          forall i | 0 <= i < |f[1..]| ensures f[1..][i].0 != k {
            assert f[1..][i] == f[i + 1];
          }
        }
      }
    }
  }

  /** `getAnswers()`: the parsed object stored under `key`; an empty object
      when nothing is stored or the text does not parse. */
  function Answers(items: map<string, Stored>, key: string): (answers: Fields)
    ensures key !in items || items[key].Other? ==> answers == []
  {
    if key in items && items[key].Json? then items[key].fields else []
  }

  /** `{ ...base, k1: v1, …, kn: vn }`: the properties of `extra` are
      assigned on a copy of `base`, one after another. */
  function Overlay(base: Fields, extra: Fields): Fields
    decreases |extra|
  {
    if extra == [] then base else Overlay(Set(base, extra[0].0, extra[0].1), extra[1..])
  }

  /** In the overlaid object, a property of `extra` wins and every other
      property is the one of `base`. */
  lemma {:induction false} OverlayGet(base: Fields, extra: Fields, k: string)
    requires DistinctKeys(extra)
    ensures Get(Overlay(base, extra), k) == if Get(extra, k).Some? then Get(extra, k) else Get(base, k)
    decreases |extra|
  {
    if extra != [] {
      var rest := extra[1..];
      assert DistinctKeys(rest) by {
        forall i, j | 0 <= i < j < |rest| ensures rest[i].0 != rest[j].0 {
          assert rest[i] == extra[i + 1] && rest[j] == extra[j + 1];
        }
      }
      OverlayGet(Set(base, extra[0].0, extra[0].1), rest, k);
      SetGet(base, extra[0].0, extra[0].1, k);
      if extra[0].0 == k {
        assert Get(rest, k).None? by {
          forall i | 0 <= i < |rest| ensures rest[i].0 != k {
            assert rest[i] == extra[i + 1];
          }
        }
      }
    }
  }

  /** The fields of a submitted form, in document order. */
  datatype FormData = FormData(entries: seq<(string, string)>)

  /** `formData.get(name)`: the first value under `name`, or null. */
  function FormGet(form: FormData, name: string): Value
    decreases |form.entries|
  {
    if form.entries == [] then Null
    else if form.entries[0].0 == name then Str(form.entries[0].1)
    else FormGet(FormData(form.entries[1..]), name)
  }

  /** `formData.getAll(name)`: every value under `name`, in order. */
  function FormGetAll(form: FormData, name: string): (values: seq<string>)
    ensures |values| <= |form.entries|
    decreases |form.entries|
  {
    if form.entries == [] then []
    else
      var rest := FormGetAll(FormData(form.entries[1..]), name);
      if form.entries[0].0 == name then [form.entries[0].1] + rest else rest
  }

  /** `get` finds the first of the values `getAll` lists, and null exactly
      when there is none. */
  lemma {:induction false} FormGetFirst(form: FormData, name: string)
    ensures FormGet(form, name).Null? <==> FormGetAll(form, name) == []
    ensures FormGetAll(form, name) != [] ==> FormGet(form, name) == Str(FormGetAll(form, name)[0])
    decreases |form.entries|
  {
    if form.entries != [] && form.entries[0].0 != name {
      FormGetFirst(FormData(form.entries[1..]), name);
    }
  }

  /** `formData.get('privacy') === 'on'`. */
  function Privacy(form: FormData): Value {
    Bool(FormGet(form, "privacy") == Str("on"))
  }

  /** The privacy flag is true exactly when the first `privacy` field is `on`. */
  lemma PrivacyIsOn(form: FormData)
    ensures Privacy(form) == Bool(FormGetAll(form, "privacy") != [] && FormGetAll(form, "privacy")[0] == "on")
  {
    FormGetFirst(form, "privacy");
  }

  /** The property an answer of quiz step `step` is stored under: `step_${step}`. */
  function StepKey(step: Value): string {
    "step_" + ToStr(step)
  }

  /** The answers with this step's answer and the `lastUpdated` time set. */
  function Recorded(answers: Fields, step: Value, value: Value, now: string): Fields {
    Set(Set(answers, StepKey(step), value), "lastUpdated", Str(now))
  }

  /** Recording an answer sets that step's answer and the time and keeps
      every other stored answer. */
  lemma RecordedGet(answers: Fields, step: Value, value: Value, now: string, k: string)
    ensures Get(Recorded(answers, step, value, now), k)
         == if k == "lastUpdated" then Some(Str(now))
            else if k == StepKey(step) then Some(value)
            else Get(answers, k)
  {
    SetGet(answers, StepKey(step), value, k);
    SetGet(Set(answers, StepKey(step), value), "lastUpdated", Str(now), k);
  }

  /** A step page's answer handler: read the answers, record the answer and
      the time, write the answers back under `key`. */
  method RecordAnswer(storage: LocalStorage, key: string, step: Value, value: Value, now: string)
    modifies storage
    ensures storage.items == old(storage.items)[key := Json(Stringified(Recorded(Answers(old(storage.items), key), step, value, now)))]
  {
    var answers := Answers(storage.items, key);
    answers := Set(answers, StepKey(step), value);
    answers := Set(answers, "lastUpdated", Str(now));
    storage.SetItem(key, Json(Stringified(answers)));
  }

  /** After an answer is recorded, reading the answers back finds it (unless
      it is undefined, which JSON drops), the time, and every earlier answer. */
  lemma RecordedReadBack(items: map<string, Stored>, key: string, step: Value, value: Value, now: string, k: string)
    requires DistinctKeys(Answers(items, key))
    ensures var stored := items[key := Json(Stringified(Recorded(Answers(items, key), step, value, now)))];
      Get(Answers(stored, key), k)
        == if k == "lastUpdated" then Some(Str(now))
           else if k == StepKey(step) then (if value.Undefined? then None else Some(value))
           else if Get(Answers(items, key), k) == Some(Undefined) then None
           else Get(Answers(items, key), k)
  {
    var answers := Answers(items, key);
    SetKeys(answers, StepKey(step), value);
    SetKeys(Set(answers, StepKey(step), value), "lastUpdated", Str(now));
    StringifiedGet(Recorded(answers, step, value, now), k);
    RecordedGet(answers, step, value, now, k);
  }

  /** The object the step-page form sends: the answers overlaid by the
      contact fields, the privacy flag, the time and the page address. */
  function FormSubmission(form: FormData, now: string, url: string): (extra: Fields)
    ensures DistinctKeys(extra)
  {
    [("name", FormGet(form, "name")), ("email", FormGet(form, "email")),
     ("phone", FormGet(form, "phone")), ("availability", FormGet(form, "availability")),
     ("privacy", Privacy(form)), ("submittedAt", Str(now)), ("source", Str(url))]
  }

  /** A step-page form submit: save the answers overlaid by the form fields
      under `key` and go to the form's action, or `quiz-success.html` without one. */
  method SubmitForm(storage: LocalStorage, key: string, form: FormData, action: Value, now: string, url: string)
    returns (target: Value)
    modifies storage
    ensures target == Or(action, Str("quiz-success.html"))
    ensures storage.items == old(storage.items)[key := Json(Stringified(Overlay(Answers(old(storage.items), key), FormSubmission(form, now, url))))]
  {
    var successPage := if Truthy(action) then action else Str("quiz-success.html");
    var answers := Answers(storage.items, key);
    var data := Overlay(answers, FormSubmission(form, now, url));
    storage.SetItem(key, Json(Stringified(data)));
    target := successPage;
  }

  /** The names a step-page form submission sets. */
  const FormNames: set<string> := {"name", "email", "phone", "availability", "privacy", "submittedAt", "source"}

  /** The submission sets nothing but the form names. */
  lemma FormSubmissionNames(form: FormData, now: string, url: string, k: string)
    requires k !in FormNames
    ensures Get(FormSubmission(form, now, url), k).None?
  {
    var extra := FormSubmission(form, now, url);
    forall i | 0 <= i < |extra| ensures extra[i].0 != k {
      assert extra[i].0 in FormNames;
    }
  }

  /** The submitted object holds the contact fields, the privacy flag and the
      time from the form, and keeps every answer whose name is not a form name. */
  lemma SubmissionGet(answers: Fields, form: FormData, now: string, url: string, k: string)
    ensures var data := Overlay(answers, FormSubmission(form, now, url));
      && Get(data, "name") == Some(FormGet(form, "name"))
      && Get(data, "privacy") == Some(Privacy(form))
      && Get(data, "submittedAt") == Some(Str(now))
      && (k !in FormNames ==> Get(data, k) == Get(answers, k))
  {
    var extra := FormSubmission(form, now, url);
    GetDistinct(extra, 0);
    OverlayGet(answers, extra, extra[0].0);
    GetDistinct(extra, 4);
    OverlayGet(answers, extra, extra[4].0);
    GetDistinct(extra, 5);
    OverlayGet(answers, extra, extra[5].0);
    if k !in FormNames {
      OverlayGet(answers, extra, k);
      FormSubmissionNames(form, now, url, k);
    }
  }

  /** `clearAnswers()`: remove the answers and nothing else. */
  method ClearAnswers(storage: LocalStorage, key: string)
    modifies storage
    ensures storage.items == old(storage.items) - {key}
    ensures forall other :: other != key && other in old(storage.items) ==>
      other in storage.items && storage.items[other] == old(storage.items)[other]
  {
    storage.RemoveItem(key);
  }
}
