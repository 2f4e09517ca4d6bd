/** The page generator's template engine as the code runs it, and the option
    list it builds for a quiz step page (generator.js). Every method here is
    proved to compute the function of the Template module that states what it
    does; TemplateLaws proves what those functions do to templates. */
module Generator {
  import opened Text
  import opened JsValue
  import opened Template
  import opened TemplateLaws

  /** `replacePlaceholders(template, data)`. Property names are taken to be
      runs of `\w` and string values to hold no `$`, so that every pattern
      the code builds matches its text literally and every replacement is
      inserted as it is. */
  method ReplacePlaceholders(template: string, data: Fields) returns (result: string)
    requires Wellformed(Obj(data))
    ensures result == Render(template, data)
  {
    var truths := TrueNames(data);
    RuleShapes(truths, "", false);
    result := ReplaceAll(StripComment(), template);
    result := RepeatUntilUnchanged(SimpleIf(truths), result);
    result := RepeatUntilUnchanged(IfElse(truths), result);
    result := EachStage(result, data);
    ghost var looped := result;
    var j := 0;
    while j < |data|
      invariant j <= |data|
      invariant FillScalars(data[j..], result) == FillScalars(data, looped)
    {
      var (key, value) := data[j];
      assert data[j..][1..] == data[j + 1..];
      if value.Str? || value.Int? {
        result := ReplaceAll(Literal("{{" + key + "}}", ToStr(value)), result);
      }
      j := j + 1;
    }
  }

  /** The do-while loop that applies a rule until the text stops changing.
      Every round that changes the text shortens it, so the loop ends. */
  method RepeatUntilUnchanged(r: Rule, s: string) returns (result: string)
    requires Shrinks(r)
    ensures result == Resolve(r, s)
  {
    var prev := s;
    result := ReplaceAll(r, prev);
    while result != prev
      invariant result == ReplaceAll(r, prev)
      invariant Resolve(r, prev) == Resolve(r, s)
      decreases |prev|
    {
      prev := result;
      result := ReplaceAll(r, prev);
    }
  }

  /** The loop stage: `result.replace(eachRegex, callback)`, the callback
      called on each loop from left to right. */
  method EachStage(s: string, data: Fields) returns (out: string)
    ensures out == EachPass(s, data)
  {
    out := [];
    var i := 0;
    assert s[i..] == s;
    while i < |s|
      invariant i <= |s|
      invariant out + EachPass(s[i..], data) == EachPass(s, data)
      decreases |s| - i
    {
      var piece, j := EachStep(s, i, data);
      AppendAssoc(out, piece, EachPass(s[j..], data));
      out, i := out + piece, j;
    }
    assert s[i..] == [];
    assert EachPass(s[i..], data) == [];
    assert out + [] == out;
  }

  /** One match of the pass at position `i` of `s`: the callback's result for
      a loop there, otherwise the character there, and the position after it. */
  method EachStep(s: string, i: nat, data: Fields) returns (piece: string, j: nat)
    requires i < |s|
    ensures i < j <= |s|
    ensures EachPass(s[i..], data) == piece + EachPass(s[j..], data)
  {
    var rest := s[i..];
    var loop := EachAt(rest);
    var n: nat;
    if loop.Some? {
      piece := ExpandLoop(loop.value.name, loop.value.body, data);
      n := loop.value.len;
    } else {
      piece, n := [s[i]], 1;
    }
    EachPassAt(rest, data, piece, n);
    j := i + n;
    assert rest[n..] == s[j..];
  }

  lemma AppendAssoc(a: string, b: string, c: string)
    ensures (a + b) + c == a + (b + c)
  {
  }

  /** The pass over `s` is the contribution at its start followed by the
      pass over what follows it. */
  lemma EachPassAt(s: string, data: Fields, piece: string, n: nat)
    requires s != []
    requires EachAt(s).Some? ==> piece == ExpandEach(EachAt(s).value.name, EachAt(s).value.body, data) && n == EachAt(s).value.len
    requires EachAt(s).None? ==> piece == [s[0]] && n == 1
    ensures n <= |s| && EachPass(s, data) == piece + EachPass(s[n..], data)
  {
  }

  /** The callback for one loop: nothing unless `data[arrayName]` is an
      array, otherwise `items.map(...).join('\n')`. */
  method ExpandLoop(arrayName: string, itemTemplate: string, data: Fields) returns (out: string)
    ensures out == ExpandEach(arrayName, itemTemplate, data)
  {
    var found := Lookup(data, arrayName);
    if !(found.Own? && found.value.List?) {
      return "";
    }
    var copies := CopyItems(itemTemplate, found.value.items);
    out := Join("\n", copies);
  }

  /** `items.map(...)`: one copy of the body per item, in order. */
  method CopyItems(itemTemplate: string, items: seq<Value>) returns (copies: seq<string>)
    ensures copies == Copies(itemTemplate, items)
  {
    copies := [];
    for index := 0 to |items|
      invariant copies == CopiesUpTo(itemTemplate, items, index)
    {
      var copy := ExpandItem(itemTemplate, items[index], index, |items|);
      copies := copies + [copy];
    }
  }

  /** The copy of a loop body for one item: bind the item, then the position
      markers and the `@first` / `@last` blocks. */
  method ExpandItem(itemTemplate: string, item: Value, index: nat, count: nat) returns (itemResult: string)
    ensures itemResult == ItemCopy(itemTemplate, item, index, count)
  {
    itemResult := itemTemplate;
    if IsPrimitive(item) {
      itemResult := ReplaceAll(Literal("{{this}}", ToStr(item)), itemResult);
    } else {
      var entries := OwnEntries(item);
      for j := 0 to |entries|
        invariant BindFields(entries[j..], itemResult) == BindFields(entries, itemTemplate)
      {
        var (key, value) := entries[j];
        assert entries[j..][1..] == entries[j + 1..];
        var text := ToStr(value);
        itemResult := ReplaceAll(Literal("{{this." + key + "}}", text), itemResult);
        itemResult := ReplaceAll(Literal("{{" + key + "}}", text), itemResult);
      }
    }
    itemResult := ReplaceAll(Literal("{{@index}}", NatToString(index)), itemResult);
    itemResult := ReplaceAll(Literal("{{@number}}", NatToString(index + 1)), itemResult);
    var isFirst := index == 0;
    itemResult := ReplaceAll(ScopedIf("{{#if @first}}", isFirst), itemResult);
    var isLast := index + 1 == count;
    itemResult := ReplaceAll(ScopedIf("{{#if @last}}", isLast), itemResult);
  }

  // ---------------------------------------------------------------------------
  // The options of a quiz step page

  /** The own properties `{...v}` copies: an object's, an array's indices, a
      string's characters under their indices; other primitives have none. */
  function Spread(v: Value): Fields {
    match v
    case Str(s) => seq(|s|, k requires 0 <= k < |s| => (NatToString(k), Str([s[k]])))
    case _ => OwnEntries(v)
  }

  /** One option of a step page: the configured option with the step's
      `nextPage` and the quiz's card style (`square` when it has none) added. */
  function StepOption(opt: Value, nextPage: Value, cardStyle: Value): Value {
    Obj(Set(Set(Spread(opt), "nextPage", nextPage), "cardStyle", Or(cardStyle, Str("square"))))
  }

  /** `stepConfig.options.map(...)`: one option per configured option, in
      order, each an object with the step's `nextPage`, a truthy card style
      and otherwise the configured option's own properties. */
  function StepOptions(options: seq<Value>, nextPage: Value, cardStyle: Value): (r: seq<Value>)
    ensures |r| == |options|
    ensures forall i :: 0 <= i < |r| ==>
      && r[i].Obj?
      && Get(r[i].fields, "nextPage") == Some(nextPage)
      && Get(r[i].fields, "cardStyle") == Some(Or(cardStyle, Str("square")))
      && Truthy(Get(r[i].fields, "cardStyle").value)
    ensures forall i, k :: 0 <= i < |r| && k != "nextPage" && k != "cardStyle" ==>
      Get(r[i].fields, k) == Get(Spread(options[i]), k)
  {
    var r := seq(|options|, i requires 0 <= i < |options| => StepOption(options[i], nextPage, cardStyle));
    EveryStepOption(options, nextPage, cardStyle, r);
    r
  }

  /** `StepOptionFields` for every option of the list. */
  lemma EveryStepOption(options: seq<Value>, nextPage: Value, cardStyle: Value, r: seq<Value>)
    requires |r| == |options|
    requires forall i :: 0 <= i < |r| ==> r[i] == StepOption(options[i], nextPage, cardStyle)
    ensures forall i :: 0 <= i < |r| ==>
      && r[i].Obj?
      && Get(r[i].fields, "nextPage") == Some(nextPage)
      && Get(r[i].fields, "cardStyle") == Some(Or(cardStyle, Str("square")))
      && Truthy(Get(r[i].fields, "cardStyle").value)
    ensures forall i, k :: 0 <= i < |r| && k != "nextPage" && k != "cardStyle" ==>
      Get(r[i].fields, k) == Get(Spread(options[i]), k)
  {
    forall i, k | 0 <= i < |r|
      ensures k != "nextPage" && k != "cardStyle" ==> Get(r[i].fields, k) == Get(Spread(options[i]), k)
    {
      StepOptionFields(options[i], nextPage, cardStyle, k);
    }
    forall i | 0 <= i < |r|
      ensures Get(r[i].fields, "nextPage") == Some(nextPage) && Get(r[i].fields, "cardStyle") == Some(Or(cardStyle, Str("square")))
    {
      StepOptionFields(options[i], nextPage, cardStyle, "");
    }
  }

  /** Each option carries the step's next page and a truthy card style (the
      quiz's, or `'square'` when that is falsy); every other property is the
      option's own. */
  lemma StepOptionFields(opt: Value, nextPage: Value, cardStyle: Value, k: string)
    ensures var f := StepOption(opt, nextPage, cardStyle).fields;
      && Get(f, "nextPage") == Some(nextPage)
      && Get(f, "cardStyle") == Some(Or(cardStyle, Str("square")))
      && Truthy(Get(f, "cardStyle").value)
      && (k != "nextPage" && k != "cardStyle" ==> Get(f, k) == Get(Spread(opt), k))
  {
    var s := Spread(opt);
    var t := Set(s, "nextPage", nextPage);
    SetGet(s, "nextPage", nextPage, "nextPage");
    SetGet(t, "cardStyle", Or(cardStyle, Str("square")), "nextPage");
    SetGet(t, "cardStyle", Or(cardStyle, Str("square")), "cardStyle");
    SetGet(s, "nextPage", nextPage, k);
    SetGet(t, "cardStyle", Or(cardStyle, Str("square")), k);
  }

  /** An object option with distinct property names gives an option with
      distinct names: its own, plus `nextPage` and `cardStyle` if it lacked them. */
  lemma StepOptionKeys(fields: Fields, nextPage: Value, cardStyle: Value)
    requires DistinctKeys(fields)
    ensures var f := StepOption(Obj(fields), nextPage, cardStyle).fields;
      && DistinctKeys(f)
      && forall i :: 0 <= i < |f| ==>
        f[i].0 == "nextPage" || f[i].0 == "cardStyle" || exists j :: 0 <= j < |fields| && fields[j].0 == f[i].0
  {
    var t := Set(fields, "nextPage", nextPage);
    SetKeys(fields, "nextPage", nextPage);
    SetKeys(t, "cardStyle", Or(cardStyle, Str("square")));
  }
}
