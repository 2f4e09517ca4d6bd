# Landing generator: template engine and page scripts in Dafny

This project models the core of a static landing-page generator and of the
browser scripts it ships.

- **Template engine.** `replacePlaceholders` in `generator.js` renders a
  Handlebars-like template in five stages:
  1. it strips `{{!-- … --}}` comments;
  2. it resolves conditionals without `{{else}}` until nothing changes;
  3. it does the same for conditionals with `{{else}}`;
  4. it expands `{{#each}}` loops, with `{{this}}`, `{{this.key}}`, `{{key}}`,
     `{{@index}}`, `{{@number}}` and the `{{#if @first}}` / `{{#if @last}}`
     blocks inside each copy;
  5. it fills the top-level `{{key}}` placeholders.

  The options list of a quiz step page is part of this core as well.
- **Gallery sliders.** The sliders of the kids landing page (including its V5
  variant with an enlarged centre slide), the business landing page and the
  family landing page. Also the one-image sliders `GallerySliderV4` and
  `GallerySingleSlider`.
- **In-page quiz.** The `Quiz` class of the dogs landing page.
- **FAQ accordion.** The `FAQAccordion` of the dogs landing page.
- **Step-page quizzes.** The quiz-navigation scripts of the family and dogs
  landing pages: one HTML page per step, with the answers kept in
  localStorage.

## Modules

- `Text`: string helpers.
  - `Find`, `Contains`, `Join`, splitting at newlines.
  - Decimal `String(n)` of a natural number.
- `JsValue`: JavaScript values as they appear in the configuration.
  - Truthiness, `String(v)`, `a || b`.
  - Property lookup and assignment on objects kept as ordered lists of
    properties.
  - `data[key]` including the members every object inherits from
    `Object.prototype`.
- `Template`: the specification of the engine.
  - Every regular expression of `replacePlaceholders` becomes a scanner that
    tries a match at the start of the text.
  - A global `replace` is a left-to-right pass over those matches
    (`ReplaceAll`).
  - The do-while loops are `Resolve`, the loop stage is `EachPass`, and the
    whole engine is `Render`.
- `TemplateLaws`: what the engine does to templates, proved about `Template`.
  - How each construct renders.
  - That the repetition loops stop exactly when no match is left.
  - That comment stripping is not idempotent.
- `Generator`: the engine as the code runs it, with imperative methods and
  loops.
  - Each is proved equal to its `Template` function.
  - Also the option mapping of `generateQuizStepPage`.
- `Slider`: index arithmetic shared by the sliders.
- `KidsGallery`, `BusinessGallery`, `FamilyGallery`: classes that model the
  three `GallerySlider` classes.
- `Carousel`: a class modelling the one-image sliders.
- `QuizStore`: localStorage as a class, JSON stringification, `FormData`, and
  the answer and submission objects.
- `Quiz`: the `Quiz` class.
- `Faq`: the accordion, as a class over arrays of per-item flags.
- `DogsQuizNav`, `FamilyQuizNav`: the step-page handlers.

## Modelling decisions

- **Template inputs.** Property names are runs of `\w` and are distinct, and
  string values contain no `$`.
  - Under these conditions every `RegExp` the code builds from a key matches
    the key literally.
  - Every replacement string is inserted as it is.
  - `ReplacePlaceholders` requires this (`JsValue.Wellformed`).
- **Conditionals.** The key of a conditional is looked up the way JavaScript
  does it: `{{#if constructor}}` on data without that key is true.
- **Numbers.** Configuration numbers are integers.
- **Object key order.** `Object.keys` order is the order of the property
  list.
- **Slider variants.** The kids and business one-image sliders have identical
  code, so both are modelled by `Carousel.CyclicSlider`. The source lines cited
  below are those of the kids page.
- **Time and location.** `new Date().toISOString()` and
  `window.location.href` are parameters (`now`, `url`).
  - The path the family script matches is a parameter (`path`).
  - The window width is a parameter of the slider constructors and of the
    resize handler.
- **Timers.** Delayed actions run at once: the 200 ms and 300 ms navigation
  delays, and the 150 ms resize debounce.
  - A handler's navigation target is its result.
- **DOM state.** Pages start with every quiz panel inactive, every option
  unselected and every FAQ item closed.
  - Every FAQ toggle starts without an `aria-expanded` attribute.
  - Quiz and FAQ elements are reduced to the classes and attributes the
    scripts change. The step-page scripts' `is-selected` class is the
    exception: it is listed under "Left out".
- **localStorage contents.** A value in localStorage is either the JSON text
  of an object (`Stored.Json`) or some other text (`Stored.Other`).
  - The step-page scripts read other text as no answers.
  - The `Quiz` class keeps its answers when it finds other text.
- **Behaviour the model follows.** The source does the following, and the
  model does the same:
  - Under V5 the kids slider's resize handler clamps the index with the
    non-V5 bound. A V5 slider can then sit at index 0, left of its lowest
    index 1. The example method `KidsGallery.V5ResizeLeavesCentreRange`
    walks through such a case.
  - The dogs success page reads the answers and keeps them: its call to
    `clearAnswers()` is commented out.
  - Neither navigation script ever calls its `clearAnswers()`.
    `handleConditionalNavigation` is defined but never called. Both are
    modelled as operations anyway.
  - In the `Quiz` class, an option outside every step panel records and saves
    its answer, then stops with a TypeError before any visual feedback.

## Model

| member | source | states |
|---|---|---|
| Generator.ReplacePlaceholders | generator.js:36-116 | The five stages, run in order, produce exactly `Template.Render(template, data)` for well-formed data |
| Generator.RepeatUntilUnchanged | generator.js:45-54 | The do-while loop terminates. Its result is `Resolve(r, s)`, in which the rule matches nowhere (see `TemplateLaws.ResolveLeavesNoMatch`) |
| Generator.EachStage | generator.js:66-104 | The global replace with the loop pattern equals the specification pass `EachPass` |
| Generator.EachStep | generator.js:66-67 | A match or a copied character advances the pass by at least one character. The pass splits there into the piece and the pass over the rest |
| Generator.ExpandLoop | generator.js:67-104 | The callback returns `ExpandEach`: nothing unless the name is an own array property, otherwise the copies joined by newlines |
| Generator.CopyItems | generator.js:71-103 | `items.map` yields exactly one copy per item, in array order |
| Generator.ExpandItem | generator.js:71-102 | One item's copy is `ItemCopy`: the item is bound, then the position markers and the `@first`/`@last` blocks are resolved |
| Generator.StepOptions | generator.js:148-152 | One option per configured option, in order. Every option is an object with the step's `nextPage` and a truthy `cardStyle` (the quiz's, else `square`), and has the configured option's own value for every other property |
| Generator.StepOptionFields | generator.js:148-152 | Each option carries the step's `nextPage` and a truthy `cardStyle` (the quiz's, else `square`). Every other property is the option's own |
| Generator.StepOptionKeys | generator.js:148-152 | An option's property names stay distinct: its own names plus at most `nextPage` and `cardStyle` |
| Template.OpenTagAt | generator.js:50 | A matched opening tag starts with the opener and white space and names a `\w+` key |
| Template.SimpleBodyLen | generator.js:50 | A matched body of a conditional without else ends right before a `{{/if}}` |
| Template.TrueNames | generator.js:52-53 | A name counts as true exactly when `data[name]` is truthy |
| Template.CommentAt | generator.js:40 | A comment match starts with `{{`, is non-empty and is replaced by nothing |
| Template.SimpleIfAt | generator.js:50-53 | A conditional match without else starts with `{{` and is replaced by shorter text |
| Template.IfElseAt | generator.js:59-62 | A conditional match with else starts with `{{` and is replaced by shorter text |
| Template.ScopedIfAt | generator.js:92-100 | A `@first`/`@last` block match is replaced by shorter text |
| Template.ReplaceAll | generator.js:40 | A global replace with a shrinking pattern either changes nothing or shortens the text |
| Template.Resolve | generator.js:45-63 | The repeated replace reaches a text the pattern leaves unchanged, no longer than the input |
| Template.EachAt | generator.js:66 | A loop match starts with `{{#` and covers at least one character |
| TemplateLaws.NoMatchUnchanged | generator.js:51 | Where the pattern matches nowhere, the replace changes nothing |
| TemplateLaws.UnchangedMeansNoMatch | generator.js:46-54 | For a shrinking pattern, an unchanged text has no match. So the `result !== prevResult` test stops exactly when no match is left |
| TemplateLaws.ResolveLeavesNoMatch | generator.js:45-54 | After the loop, the conditional pattern matches nowhere in the result |
| TemplateLaws.ResolveNoMatch | generator.js:57-63 | Text without a match leaves the loop unchanged |
| TemplateLaws.CommentFreeUnchanged | generator.js:40 | Text without `{{!--` passes comment stripping unchanged |
| TemplateLaws.CommentRemoved | generator.js:40 | A comment is removed up to the first `--}}`, and the text after it is stripped in turn |
| TemplateLaws.CommentStrippingNotIdempotent | generator.js:40 | One stripping pass can leave a comment formed by joining pieces around an inner comment. A second pass removes it |
| TemplateLaws.SimpleIfMatch | generator.js:50-53 | A conditional without else is matched from its tag to its `{{/if}}`. It is replaced by the body when the key is true, by nothing otherwise |
| TemplateLaws.SimpleIfBlock | generator.js:45-54 | `{{#if key}}body{{/if}}` resolves to the body when `data[key]` is truthy, to nothing otherwise |
| TemplateLaws.SimpleBodyStopsAtElse | generator.js:50 | The body of a conditional without else cannot extend past an `{{else}}` |
| TemplateLaws.IfElseLeftToItsStage | generator.js:50 | The first conditional stage leaves a conditional with `{{else}}` to the second stage |
| TemplateLaws.IfElseMatch | generator.js:59-62 | A conditional with else is matched up to the first `{{/if}}` after its `{{else}}` and replaced by the branch the key selects |
| TemplateLaws.IfElseBlock | generator.js:57-63 | `{{#if key}}a{{else}}b{{/if}}` resolves to `a` when `data[key]` is truthy, to `b` otherwise |
| TemplateLaws.PositionBlocksSurviveConditionals | generator.js:45-63 | The top-level conditional stages leave `{{#if @first}}` and `{{#if @last}}` blocks for the loop stage |
| TemplateLaws.EachMatch | generator.js:66 | A loop is matched from its tag to the first `{{/each}}` after it, with the key as array name and the text between as body |
| TemplateLaws.EachBlock | generator.js:66-104 | A loop followed by text without `{` becomes its expansion followed by that text |
| TemplateLaws.EachPassBraceFree | generator.js:66 | The loop stage leaves text without `{` unchanged |
| TemplateLaws.ExpandEachEmpty | generator.js:68-69 | A name that is not an own array, or an empty array, expands to nothing |
| TemplateLaws.LoopLines | generator.js:71-103 | Splitting an expansion at newlines gives back exactly the copies, one per item and in order, when no copy holds a newline |
| TemplateLaws.LoopOfPrimitives | generator.js:74-76 | A `{{this}}` loop over strings and numbers lists their texts, one per line |
| TemplateLaws.PrimitiveItemThis | generator.js:75-76 | A primitive item replaces `{{this}}` by its text |
| TemplateLaws.ObjectItemField | generator.js:78-83 | An object item replaces `{{key}}` and `{{this.key}}` by the value of its own property `key` |
| TemplateLaws.BindFieldsPlaceholder | generator.js:79-83 | Binding the item's properties one after another turns both placeholders of each property into its value |
| TemplateLaws.BindFieldsMissing | generator.js:79-83 | A placeholder naming no property of the item stays for the last stage |
| TemplateLaws.IndexCopy | generator.js:87 | `{{@index}}` in a copy becomes the item's zero-based index |
| TemplateLaws.NumberCopy | generator.js:88 | `{{@number}}` in a copy becomes the index plus one |
| TemplateLaws.FirstBlock | generator.js:91-94 | A `{{#if @first}}` block keeps its body in the first copy only |
| TemplateLaws.LastBlock | generator.js:97-100 | A `{{#if @last}}` block keeps its body in the last copy only |
| TemplateLaws.OneItemKeepsBoth | generator.js:91-100 | The single copy of a one-item array keeps both blocks |
| TemplateLaws.FillScalarsPlaceholder | generator.js:107-113 | A top-level string or number property replaces its placeholder |
| TemplateLaws.FillScalarsVerbatim | generator.js:107-113 | A placeholder whose key has no string or number value stays verbatim |
| TemplateLaws.PlaceholderPassesStages | generator.js:39-104 | The first four stages pass a bare `{{key}}` through untouched |
| TemplateLaws.RenderPlain | generator.js:36-116 | Text without `{` renders as itself |
| TemplateLaws.RenderScalar | generator.js:106-113 | `{{key}}` renders as the text of a top-level string or number property |
| TemplateLaws.RenderUnfilled | generator.js:106-113 | `{{key}}` stays verbatim when the key is missing or bound to a boolean, null, an array or an object |
| TemplateLaws.RenderSkipsComment | generator.js:39-40 | A leading comment contributes nothing to the rendering |
| TemplateLaws.RenderIf | generator.js:42-54 | `{{#if key}}body{{/if}}` renders as the body when `data[key]` is truthy, as nothing otherwise |
| TemplateLaws.RenderIfElse | generator.js:56-63 | `{{#if key}}a{{else}}b{{/if}}` renders as `a` when `data[key]` is truthy, as `b` otherwise |
| JsValue.FalsyValues | generator.js:52 | Exactly `''`, `0`, `false`, `null` and `undefined` are falsy. Arrays and objects are truthy |
| JsValue.Get | generator.js:68 | A property is found exactly when some entry has that name |
| JsValue.SetGet | dist/landing3-dogs/js/quiz-navigation.js:64-65 | After an assignment `o[k] = v`, `o[k]` is `v` and every other property is unchanged |
| JsValue.SetKeys | dist/landing3-dogs/js/quiz-navigation.js:64-65 | Assignment keeps names distinct and adds at most the assigned name |
| JsValue.OwnEntries | generator.js:79-80 | An array's own entries are one per item |
| JsValue.LookupTruthy | generator.js:52 | `data[key]` is truthy exactly for an own truthy property or an inherited `Object.prototype` member |
| JsValue.InheritedNamesAreTruthy | generator.js:52 | `{{#if constructor}}` and `{{#if toString}}` are true on data that lacks them. An ordinary missing name is false |
| Text.NatToString | generator.js:87 | The decimal text of a number is non-empty and made of digits |
| Text.NatToStringRoundTrip | generator.js:87-88 | Reading the decimal text back gives the number, so different indices give different texts |
| Text.SplitJoinLines | generator.js:103 | Splitting a newline-joined list of newline-free strings gives the list back |
| Slider.SlidesToShow | dist/landing4-kids/js/gallery-slider.js:30-35 | Between 1 and 3 slides: 1 exactly below 576 px, 3 exactly from 992 px |
| Slider.SlidesToShowMonotone | dist/landing4-kids/js/gallery-slider.js:30-35 | A wider window never shows fewer slides |
| Slider.LastWindowStart | dist/landing4-kids/js/gallery-slider.js:182 | The last window start is non-negative. Its window reaches the last slide, and it is 0 or exactly `count - shown` |
| Slider.StepsStayInRange | dist/landing5-business/js/gallery-slider.js:114-129 | Both arrows keep the index within its bounds |
| Slider.StepsUndo | dist/landing5-business/js/gallery-slider.js:114-129 | A step that moves is undone by a step the other way |
| Slider.ForwardsReachEnd | dist/landing5-business/js/gallery-slider.js:122-129 | `k` clicks on next move `k` slides on, capped at the last window |
| Slider.BackwardsReachStart | dist/landing5-business/js/gallery-slider.js:114-120 | `k` clicks on prev move `k` slides back, capped at the first slide |
| Slider.ResizedInRange | dist/landing5-business/js/gallery-slider.js:46-57 | The resize clamp only lowers the index, and only when the layout changed and the index was past the new last window. The result lies in the new range |
| Slider.CyclicPrev | dist/landing4-kids/js/gallery-slider.js:268-271 | The wrap-around prev stays a slide index |
| Slider.CyclicNext | dist/landing4-kids/js/gallery-slider.js:273-276 | The wrap-around next stays a slide index |
| Slider.CyclicInverse | dist/landing4-kids/js/gallery-slider.js:268-276 | Wrap-around prev and next undo each other |
| Slider.CyclicFullTurn | dist/landing4-kids/js/gallery-slider.js:273-276 | As many clicks on next as there are slides return to the starting slide |
| KidsGallery.V5Offset | dist/landing4-kids/js/gallery-slider.js:166-170 | The V5 track offset is never negative |
| KidsGallery.V5OffsetSteps | dist/landing4-kids/js/gallery-slider.js:166-170 | The first two indices leave the track unscrolled. After that, each step scrolls by one side slide and its gap (290 px) |
| KidsGallery.GallerySlider.constructor | dist/landing4-kids/js/gallery-slider.js:8-47 | The slider starts valid: index 1 for a V5 slider of at least three slides, 0 otherwise, with responsive slides-to-show |
| KidsGallery.GallerySlider.UpdateCenterSlide | dist/landing4-kids/js/gallery-slider.js:104-111 | Under V5 exactly the current slide is the centre slide. Otherwise nothing changes |
| KidsGallery.GallerySlider.CalculateSlideWidth | dist/landing4-kids/js/gallery-slider.js:75-101 | Its V5 branch marks the centre slide. Nothing else the model keeps changes |
| KidsGallery.GallerySlider.UpdatePosition | dist/landing4-kids/js/gallery-slider.js:163-178 | Under V5 the offset is `V5Offset(index)` and the centre slide is marked |
| KidsGallery.GallerySlider.UpdateArrowsState | dist/landing4-kids/js/gallery-slider.js:180-199 | Each existing arrow is disabled exactly at its end: the V5 or window bound, or the slide count |
| KidsGallery.GallerySlider.Prev | dist/landing4-kids/js/gallery-slider.js:143-150 | One slide back above the lowest index (1 under V5), otherwise no change. The slider stays valid |
| KidsGallery.GallerySlider.Next | dist/landing4-kids/js/gallery-slider.js:152-161 | One slide on below the highest index (`count - 2` under V5), otherwise no change. The slider stays valid |
| KidsGallery.GallerySlider.Resize | dist/landing4-kids/js/gallery-slider.js:52-70 | The new slides-to-show is set, the index is clamped with `Resized`, and the slider stays valid |
| BusinessGallery.GallerySlider.constructor | dist/landing5-business/js/gallery-slider.js:8-41 | The slider starts at index 0 with responsive slides-to-show and consistent arrows |
| BusinessGallery.GallerySlider.UpdateArrowsState | dist/landing5-business/js/gallery-slider.js:136-149 | Prev is disabled exactly at 0 and next exactly at the last window start |
| BusinessGallery.GallerySlider.Prev | dist/landing5-business/js/gallery-slider.js:114-120 | One slide back unless at 0, with slides-to-show kept. Only the index and the arrow flags may change, and the slider stays valid |
| BusinessGallery.GallerySlider.Next | dist/landing5-business/js/gallery-slider.js:122-129 | One slide on unless at the last window start before the call, with slides-to-show kept. At that start nothing changes. Only the index and the arrow flags may change, and the slider stays valid |
| BusinessGallery.GallerySlider.Resize | dist/landing5-business/js/gallery-slider.js:43-62 | The slides-to-show is updated and the index is clamped into the new range |
| FamilyGallery.GallerySlider.constructor | dist/landing1-family/js/gallery-slider.js:8-35 | The slider starts at index 0, always with three slides shown, and consistent arrows |
| FamilyGallery.GallerySlider.UpdateArrowsState | dist/landing1-family/js/gallery-slider.js:107-120 | Prev is disabled exactly at 0 and next exactly at `max(0, count - 3)` |
| FamilyGallery.GallerySlider.Prev | dist/landing1-family/js/gallery-slider.js:85-91 | One slide back unless at 0 |
| FamilyGallery.GallerySlider.Next | dist/landing1-family/js/gallery-slider.js:93-100 | One slide on unless the last three slides are shown. With at most three slides the index stays at 0 |
| Carousel.CyclicSlider.constructor | dist/landing4-kids/js/gallery-slider.js:224-239 | The slider starts at slide 0, which alone is active when there are slides |
| Carousel.CyclicSlider.ShowSlide | dist/landing4-kids/js/gallery-slider.js:278-283 | Exactly the slide at the index becomes active |
| Carousel.CyclicSlider.Prev | dist/landing4-kids/js/gallery-slider.js:268-271 | The previous slide, or the last from the first, becomes the only active one |
| Carousel.CyclicSlider.Next | dist/landing4-kids/js/gallery-slider.js:273-276 | The next slide, or the first from the last, becomes the only active one |
| Faq.Opened | dist/landing3-dogs/js/faq.js:58-77 | Opening sets only the opened item, and only if it has an answer |
| Faq.Closed | dist/landing3-dogs/js/faq.js:79-97 | Closing clears only the closed item, and only if it has an answer |
| Faq.ClosedOthers | dist/landing3-dogs/js/faq.js:46-52 | Every other item with an answer is closed. The toggled item is untouched |
| Faq.ToggleSingle | dist/landing3-dogs/js/faq.js:39-56 | Without `allowMultiple`, opening leaves at most the toggled item open. Toggling keeps at most one item open, and only items with answers |
| Faq.ToggleMultiple | dist/landing3-dogs/js/faq.js:39-56 | With `allowMultiple`, a toggle changes only the toggled item. Toggling an item with an answer twice restores all items |
| Faq.FaqAccordion.constructor | dist/landing3-dogs/js/faq.js:9-18 | `allowMultiple` is the option's truthiness (false when absent), and all items start closed |
| Faq.FaqAccordion.Init | dist/landing3-dogs/js/faq.js:20-28 | Without items nothing changes. Otherwise the first item opens and its toggle says `true`. Every other toggle keeps its `aria-expanded` |
| Faq.FaqAccordion.OpenItem | dist/landing3-dogs/js/faq.js:58-77 | The item opens, a V4 card expands, and the toggle says `true`. An item without an answer is left alone |
| Faq.FaqAccordion.CloseItem | dist/landing3-dogs/js/faq.js:79-97 | The item closes, a V4 card collapses, and the toggle says `false`. An item without an answer is left alone |
| Faq.FaqAccordion.ToggleItem | dist/landing3-dogs/js/faq.js:39-56 | The new open flags are `Toggled` of the old ones (see `ToggleSingle` and `ToggleMultiple`). Every toggle of an item it closed says `false`, and every item whose flag did not change keeps its `aria-expanded` |
| Faq.FaqAccordion.OpenAll | dist/landing3-dogs/js/faq.js:100-102 | Exactly the items with an answer are open |
| Faq.FaqAccordion.CloseAll | dist/landing3-dogs/js/faq.js:104-106 | No item is open or expanded, and every toggle of an item with an answer says `false` |
| QuizStore.LocalStorage.SetItem | dist/landing3-dogs/js/quiz.js:210 | The key now holds the value and nothing else changes |
| QuizStore.LocalStorage.RemoveItem | dist/landing3-dogs/js/quiz.js:237 | The key is gone and nothing else changes |
| QuizStore.Stringified | dist/landing3-dogs/js/quiz-navigation.js:32-38 | The JSON text never has more properties than the object |
| QuizStore.StringifiedGet | dist/landing3-dogs/js/quiz-navigation.js:32-38 | Reading back gives every property except the undefined ones |
| QuizStore.Answers | dist/landing3-dogs/js/quiz-navigation.js:19-27 | Nothing stored, or unreadable text, gives `{}` |
| QuizStore.OverlayGet | dist/landing3-dogs/js/quiz-navigation.js:97-106 | In `{...base, extra}` a property of `extra` wins. Every other property is the base's |
| QuizStore.FormGetAll | dist/landing3-dogs/js/quiz.js:162 | `getAll` returns no more values than the form has fields |
| QuizStore.FormGetFirst | dist/landing3-dogs/js/quiz.js:159-163 | `get` is null exactly when `getAll` is empty, otherwise it is the first value `getAll` lists |
| QuizStore.PrivacyIsOn | dist/landing3-dogs/js/quiz.js:163 | The privacy flag is true exactly when the first `privacy` field is `on` |
| QuizStore.RecordedGet | dist/landing3-dogs/js/quiz-navigation.js:63-65 | Recording sets the step's answer and `lastUpdated` and keeps every other answer |
| QuizStore.RecordAnswer | dist/landing3-dogs/js/quiz-navigation.js:63-66 | The key then holds the stringified answers with the step's answer and the time recorded. Every other key is unchanged |
| QuizStore.RecordedReadBack | dist/landing3-dogs/js/quiz-navigation.js:19-38 | Reading back after a record finds the answer (unless undefined), the time, and every earlier answer |
| QuizStore.FormSubmission | dist/landing3-dogs/js/quiz-navigation.js:97-106 | The submitted fields have distinct names |
| QuizStore.SubmitForm | dist/landing3-dogs/js/quiz-navigation.js:86-126 | The answers overlaid by the form are saved. The target is the form's action, or `quiz-success.html` |
| QuizStore.FormSubmissionNames | dist/landing3-dogs/js/quiz-navigation.js:97-106 | The submission sets nothing but its seven form names |
| QuizStore.SubmissionGet | dist/landing3-dogs/js/quiz-navigation.js:97-106 | The saved object holds the name, privacy flag and time from the form, and keeps every answer not shadowed by a form name |
| QuizStore.ClearAnswers | dist/landing3-dogs/js/quiz-navigation.js:43-49 | The answers key is gone and every other item is kept |
| Quiz.TotalSteps | dist/landing3-dogs/js/quiz.js:11 | A missing or zero step count means 4, any other count is kept |
| Quiz.FirstPanel | dist/landing3-dogs/js/quiz.js:120-123 | The result is the first panel with the label, or -1 exactly when no panel has it |
| Quiz.StepLabelsDistinct | dist/landing3-dogs/js/quiz.js:132-141 | The form shows exactly once the steps are used up. Distinct steps show distinct panels, and never the success panel |
| Quiz.QuizSubmission | dist/landing3-dogs/js/quiz.js:157-166 | The submitted fields have distinct names |
| Quiz.QuizSubmissionGet | dist/landing3-dogs/js/quiz.js:157-166 | `availability` lists every checked slot in order, and the privacy flag is set |
| Quiz.QuizSubmissionKeepsAnswers | dist/landing3-dogs/js/quiz.js:157-166 | The submission keeps the answer of every step |
| Quiz.Quiz.constructor | dist/landing3-dogs/js/quiz.js:9-23 | Step 0, no answers, quiz closed, step count `TotalSteps(option)` |
| Quiz.Quiz.Init | dist/landing3-dogs/js/quiz.js:25-33 | Saved answers are restored, the quiz is closed, and no panel is active |
| Quiz.Quiz.Restored | dist/landing3-dogs/js/quiz.js:217-233 | The saved object replaces the answers. Nothing saved or unreadable text keeps them |
| Quiz.Quiz.LoadSavedAnswers | dist/landing3-dogs/js/quiz.js:217-233 | The answers become `Restored(old answers, storage)` |
| Quiz.Quiz.SaveAnswers | dist/landing3-dogs/js/quiz.js:208-215 | Storage holds the stringified answers and the step number as text. Nothing else changes |
| Quiz.Quiz.ClearSavedAnswers | dist/landing3-dogs/js/quiz.js:235-242 | Both quiz keys are removed and every other item is kept |
| Quiz.Quiz.HideAllSteps | dist/landing3-dogs/js/quiz.js:35-51 | The quiz closes and no panel is active |
| Quiz.Quiz.ShowStep | dist/landing3-dogs/js/quiz.js:98-130 | The quiz opens, and exactly the first panel with the label is active (none if absent) |
| Quiz.Quiz.OpenFromCta | dist/landing3-dogs/js/quiz.js:55-60 | Back to step 0, with its panel shown |
| Quiz.Quiz.NextStep | dist/landing3-dogs/js/quiz.js:132-141 | The step goes up by one. The numbered panel is shown, or the form once the steps are used up |
| Quiz.Quiz.PrevStep | dist/landing3-dogs/js/quiz.js:143-148 | One step back with its panel shown. On step 0 nothing changes |
| Quiz.Quiz.SelectOption | dist/landing3-dogs/js/quiz.js:77-96 | The answer is recorded under the panel's step and saved. For an option in a panel, that option becomes the only selected one there, the quiz moves on and is open. Otherwise the step, the open class, the panels and the selection are unchanged |
| Quiz.Quiz.MarkSelected | dist/landing3-dogs/js/quiz.js:87-90 | Among the options of the panel only the chosen one is selected. Other panels' options keep their state |
| Quiz.Quiz.SubmitForm | dist/landing3-dogs/js/quiz.js:150-206 | The data is the answers overlaid by the form. The success panel shows and the saved keys are cleared |
| Quiz.Quiz.Reset | dist/landing3-dogs/js/quiz.js:267-277 | Step 0, no answers, nothing saved, the quiz hidden, and no option selected |
| Quiz.Quiz.ClearSelection | dist/landing3-dogs/js/quiz.js:273-276 | No option is selected |
| DogsQuizNav.GetAnswers | dist/landing3-dogs/js/quiz-navigation.js:19-27 | The stored object, or `{}` when nothing is stored |
| DogsQuizNav.HandleOptionClick | dist/landing3-dogs/js/quiz-navigation.js:54-81 | The answer and time are recorded under `quiz_answers`, and the target is the option's link |
| DogsQuizNav.HandleFormSubmit | dist/landing3-dogs/js/quiz-navigation.js:86-126 | The answers overlaid by the form are saved. The target is the action or `quiz-success.html` |
| DogsQuizNav.SuccessPage | dist/landing3-dogs/js/quiz-navigation.js:159-174 | The success page reads the stored answers and changes nothing |
| DogsQuizNav.SubmitThenSuccess | dist/landing3-dogs/js/quiz-navigation.js:86-174 | After a submit, the success page finds exactly the submitted data, and it stays stored |
| FamilyQuizNav.SublandingAt | dist/landing1-family/js/quiz-navigation.js:20 | A match at a position is a sub-landing name between two slashes |
| FamilyQuizNav.StorageKey | dist/landing1-family/js/quiz-navigation.js:18-25 | The key is `quiz_answers` or `quiz_answers_` plus a sub-landing name |
| FamilyQuizNav.FirstSublandingFound | dist/landing1-family/js/quiz-navigation.js:20 | The scan only ever finds sub-landing names |
| FamilyQuizNav.OneSublandingAt | dist/landing1-family/js/quiz-navigation.js:20 | At most one name matches at a position |
| FamilyQuizNav.FirstSublandingAt | dist/landing1-family/js/quiz-navigation.js:20 | The scan finds the name at the leftmost matching position |
| FamilyQuizNav.NoSublanding | dist/landing1-family/js/quiz-navigation.js:20-24 | A path without a sub-landing scans to nothing |
| FamilyQuizNav.StorageKeyOfPath | dist/landing1-family/js/quiz-navigation.js:18-25 | The key names the sub-landing that comes first in the path. A path without any gets `quiz_answers` |
| FamilyQuizNav.StorageKeysApart | dist/landing1-family/js/quiz-navigation.js:22-24 | Different sub-landings have different keys, and none has the plain key |
| FamilyQuizNav.HandleOptionClick | dist/landing1-family/js/quiz-navigation.js:67-94 | The answer is recorded under the path's key, and the target is the option's link |
| FamilyQuizNav.CheckedValues | dist/landing1-family/js/quiz-navigation.js:179-183 | No more values than checkboxes |
| FamilyQuizNav.CheckedValuesSpec | dist/landing1-family/js/quiz-navigation.js:179-183 | A value is collected exactly when some checked box carries it |
| FamilyQuizNav.CheckedValuesAppend | dist/landing1-family/js/quiz-navigation.js:179-183 | Collecting over two runs of boxes is collecting each and concatenating |
| FamilyQuizNav.CollectSelected | dist/landing1-family/js/quiz-navigation.js:177-183 | The loop pushes exactly `CheckedValues(boxes)` |
| FamilyQuizNav.Strings | dist/landing1-family/js/quiz-navigation.js:187 | The array holds the strings, one per value, in order |
| FamilyQuizNav.HandleMultiselectContinue | dist/landing1-family/js/quiz-navigation.js:174-195 | The checked values are recorded as the step's answer, and the target is the button's link |
| FamilyQuizNav.HandleInputContinue | dist/landing1-family/js/quiz-navigation.js:201-223 | The input's text is recorded as the step's answer, and the target is the button's link |
| FamilyQuizNav.ConditionalNavigation | dist/landing1-family/js/quiz-navigation.js:256-262 | A non-empty `data-next-page` wins. Otherwise the target is the link |
| FamilyQuizNav.HandleFormSubmit | dist/landing1-family/js/quiz-navigation.js:99-139 | The answers overlaid by the form are saved under the path's key. The target is the action or `quiz-success.html` |
| FamilyQuizNav.V5Submission | dist/landing1-family/js/quiz-navigation.js:279-288 | The V5 fields have distinct names |
| FamilyQuizNav.V5SubmissionGet | dist/landing1-family/js/quiz-navigation.js:276-288 | `timeslots` lists every chosen slot in order, and the privacy flag is set |
| FamilyQuizNav.V5SubmissionKeepsAvailability | dist/landing1-family/js/quiz-navigation.js:279-288 | The V5 form leaves an earlier `availability` answer as it was |
| FamilyQuizNav.HandleFormV5Submit | dist/landing1-family/js/quiz-navigation.js:267-306 | The answers overlaid by the V5 fields are saved under the path's key. The target is the action or `quiz-success.html` |
| FamilyQuizNav.SublandingsKeptApart | dist/landing1-family/js/quiz-navigation.js:18-25 | Answers recorded on one sub-landing leave another sub-landing's stored answers untouched |

## Left out

- I/O is not modelled: reading template files, writing pages, `console` output, analytics calls (`gtag`, `fbq`), and the optional `fetch` POST of the quiz, whose failure the source ignores anyway.
- Scrolling, the `max-height` animation of the accordion, touch swipes (they call the same prev and next), and the non-V5 slide widths and track offsets, which are floating-point pixel values.
- The rest of the generator (section assembly, configuration loading, the other page builders) is not part of this model. The screenshot and test scripts are not part of it either.
- `ReplacePlaceholders`: keys outside `\w+` and strings containing `$` are excluded by its precondition. For such data the code's `RegExp` and replacement-pattern semantics differ from literal substitution.
- Text in localStorage that parses as JSON but not as an object (a number, an array) is treated like unreadable text. Throwing localStorage calls are not modelled.
- JSON stringification drops top-level `undefined` properties only. Nested values are kept as they are.
- The `is-checked` class that the multiple-choice step mirrors from its checkboxes.
- The `is-selected` class that both step-page option handlers add to the clicked option (landing3-dogs and landing1-family `handleOptionClick`) right before the page navigates away. `DogsQuizNav.HandleOptionClick` and `FamilyQuizNav.HandleOptionClick` model the stored answer and the target only.
- KidsGallery.V5Offset: the model assumes the `.gallery-slider__viewport` element exists. Without it `calculateSlideWidth` returns before the side-slide width is set, and the source's V5 offset is `NaN`, which the model's integer offset does not capture.
- The family success page only logs the stored answers, so it has no member of its own.
- The textarea continue button of the family script is identical to the date one and is modelled once, as `FamilyQuizNav.HandleInputContinue`.
- `Quiz.Quiz.Init`: the page is assumed to have the quiz element. Page load creates the quiz only when it exists.
- The family gallery's resize handler only recomputes pixel widths and offsets, so it changes nothing the model keeps.
