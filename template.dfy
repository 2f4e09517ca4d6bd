/** The template engine of the page generator, `replacePlaceholders` in
    generator.js, as functions. Every regular-expression replacement the
    engine makes is modelled as the scan String.prototype.replace performs
    with a global pattern: try to match at the current position; on a match
    emit the replacement and continue after the match, otherwise emit one
    character and move on. None of the patterns looks behind, so the scan of
    a suffix does not depend on what precedes it.

    The stages, in order: strip `{{!-- --}}` comments; resolve conditionals
    without `{{else}}` until the text stops changing; resolve conditionals
    with `{{else}}` until it stops changing; expand `{{#each}}` loops in one
    pass; substitute the top-level string and number values. */
module Template {
  import opened Text
  import opened JsValue


  /** Length of the leading run of `\s` characters. */
  function SpaceRun(s: string): (n: nat)
    ensures n <= |s| && (forall i :: 0 <= i < n ==> IsSpace(s[i])) && (n < |s| ==> !IsSpace(s[n]))
    decreases |s|
  {
    if s != [] && IsSpace(s[0]) then 1 + SpaceRun(s[1..]) else 0
  }

  /** Length of the leading run of `\w` characters. */
  function WordRun(s: string): (n: nat)
    ensures n <= |s| && (forall i :: 0 <= i < n ==> IsWordChar(s[i])) && (n < |s| ==> !IsWordChar(s[n]))
    decreases |s|
  {
    if s != [] && IsWordChar(s[0]) then 1 + WordRun(s[1..]) else 0
  }

  /** An opening tag: its length and the key it names. */
  datatype Tag = Tag(len: nat, key: string)

  /** `opener\s+(\w+)}}` at the start of `s`, for `{{#if` and `{{#each`. The
      greedy runs cannot give back characters: `\s`, `\w` and `}` are disjoint. */
  function OpenTagAt(s: string, opener: string): (t: Option<Tag>)
    ensures t.Some? ==> StartsWith(s, opener) && |opener| < |s| && IsSpace(s[|opener|])
    ensures t.Some? ==> |opener| < t.value.len <= |s| && WordKey(t.value.key)
  {
    if !StartsWith(s, opener) then None
    else
      var start := |opener| + SpaceRun(s[|opener|..]);
      var end := start + WordRun(s[start..]);
      if start == |opener| || end == start || !StartsWith(s[end..], "}}") then None
      else Some(Tag(end + 2, s[start..end]))
  }

  /** A nested `{{#if` followed by white space, which a conditional without
      `{{else}}` must not contain. */
  predicate NestedIfAt(t: string) {
    StartsWith(t, "{{#if") && |t| > 5 && IsSpace(t[5])
  }

  predicate NestedIfFree(s: string)
    decreases |s|
  {
    s == [] || (!NestedIfAt(s) && NestedIfFree(s[1..]))
  }

  /** The body of a conditional without `{{else}}`:
      `((?:(?!{{else}})(?!{{#if\s)[\s\S])*?){{/if}}`. The lazy body grows one
      character at a time until `{{/if}}` follows; it may not grow over a
      position where `{{else}}` or a nested `{{#if` starts. */
  function SimpleBodyLen(t: string): (r: Option<nat>)
    ensures r.Some? ==> r.value + |"{{/if}}"| <= |t| && StartsWith(t[r.value..], "{{/if}}")
    decreases |t|
  {
    if StartsWith(t, "{{/if}}") then Some(0)
    else if t == [] || StartsWith(t, "{{else}}") || NestedIfAt(t) then None
    else
      match SimpleBodyLen(t[1..])
      case Some(k) => assert t[1..][k..] == t[k + 1..]; Some(k + 1)
      case None => None
  }

  /** What `{{#if key}}` tests: the JavaScript truthiness of `data[key]`. */
  predicate Holds(data: Fields, key: string) {
    FoundTruthy(Lookup(data, key))
  }

  /** The names a conditional treats as true: the own properties with a truthy
      value and the inherited members of Object.prototype the data does not
      shadow. */
  function TrueNames(data: Fields): (names: set<string>)
    ensures forall k :: k in names <==> Holds(data, k)
  {
    var own := set i | 0 <= i < |data| && Truthy(Get(data, data[i].0).value) :: data[i].0;
    var inherited := set k | k in ObjectPrototypeMembers && Get(data, k).None?;
    assert forall k :: Holds(data, k) && Get(data, k).Some? ==> k in own by {
      forall k | Holds(data, k) && Get(data, k).Some? ensures k in own {
        var i :| 0 <= i < |data| && data[i].0 == k;
      }
    }
    own + inherited
  }

  /** A match: how many characters it covers and what replaces them. */
  datatype Hit = Hit(len: nat, out: string)

  /** A global replacement with a fixed pattern: `at(s)` is the match of the
      pattern at the start of `s`, with its replacement, if there is one. */
  datatype Rule = Rule(at: string -> Option<Hit>)

  /** `/{{!--[\s\S]*?--}}/g`, replaced by the empty string. */
  function StripComment(): Rule {
    Rule(CommentAt)
  }

  /** Conditionals without `{{else}}`, given the names that test true. */
  function SimpleIf(truths: set<string>): Rule {
    Rule(s => SimpleIfAt(truths, s))
  }

  /** Conditionals with `{{else}}`, given the names that test true. */
  function IfElse(truths: set<string>): Rule {
    Rule(s => IfElseAt(truths, s))
  }

  /** `{{#if @first}}` or `{{#if @last}}` blocks in one copy of a loop body. */
  function ScopedIf(tag: string, keep: bool): Rule {
    Rule(s => ScopedIfAt(tag, keep, s))
  }

  /** A fixed pattern such as `{{name}}`, replaced by a fixed string. */
  function Literal(p: string, rep: string): Rule {
    Rule(s => LiteralAt(p, rep, s))
  }

  /** Every replacement is shorter than the text it replaces. */
  ghost predicate Shrinks(r: Rule) {
    forall s :: r.at(s).Some? ==> |r.at(s).value.out| < r.at(s).value.len
  }

  /** Every match starts with `{{`. */
  ghost predicate Braced(r: Rule) {
    forall s :: r.at(s).Some? ==> StartsWith(s, "{{")
  }

  /** The match of `r` at the start of `s`. A match covers at least one
      character and stays within `s`; every matcher below guarantees this in
      its contract, so the bound only makes the scan's progress evident. */
  function MatchAt(r: Rule, s: string): (m: Option<Hit>)
    ensures m.Some? ==> 0 < m.value.len <= |s| && m == r.at(s)
  {
    match r.at(s)
    case Some(h) => if 0 < h.len <= |s| then Some(h) else None
    case None => None
  }

  /** `{{!--[\s\S]*?--}}`: a comment ends at the first `--}}` after its opener. */
  function CommentAt(s: string): (m: Option<Hit>)
    ensures m.Some? ==> 0 < m.value.len <= |s| && m.value.out == [] && StartsWith(s, "{{")
  {
    if !StartsWith(s, "{{!--") then None
    else
      assert s[..2] == s[..5][..2];
      match Find(s[5..], "--}}")
      case None => None
      case Some(k) => Some(Hit(5 + k + 4, ""))
  }

  /** `{{#if\s+(\w+)}}` then a simple body then `{{/if}}`, replaced by the body
      when the key tests true and by nothing otherwise. */
  function SimpleIfAt(truths: set<string>, s: string): (m: Option<Hit>)
    ensures m.Some? ==> 0 < m.value.len <= |s| && |m.value.out| < m.value.len && StartsWith(s, "{{")
  {
    var t := OpenTagAt(s, "{{#if");
    if t.None? then None
    else
      var n := t.value.len;
      var b := SimpleBodyLen(s[n..]);
      if b.None? then None
      else
        assert s[..2] == s[..5][..2];
        Some(Hit(n + b.value + 7, if t.value.key in truths then s[n..n + b.value] else ""))
  }

  /** `{{#if\s+(\w+)}}a{{else}}b{{/if}}` with the first `{{else}}` after the tag
      and the first `{{/if}}` after that, replaced by `a` when the key tests
      true and by `b` otherwise. */
  function IfElseAt(truths: set<string>, s: string): (m: Option<Hit>)
    ensures m.Some? ==> 0 < m.value.len <= |s| && |m.value.out| < m.value.len && StartsWith(s, "{{")
  {
    match OpenTagAt(s, "{{#if")
    case None => None
    case Some(t) =>
      assert s[..2] == s[..5][..2];
      IfElseBranches(t.len, t.key in truths, s[t.len..])
  }

  /** The two branches after a tag of `n` characters: `u` is the text after
      the tag, and `first` says whether the key tests true. */
  function IfElseBranches(n: nat, first: bool, u: string): (m: Option<Hit>)
    ensures m.Some? ==> n < m.value.len <= n + |u| && |m.value.out| < m.value.len
  {
    match Find(u, "{{else}}")
    case None => None
    case Some(j) =>
      match Find(u[j + 8..], "{{/if}}")
      case None => None
      case Some(k) => Some(Hit(n + j + 8 + k + 7, if first then u[..j] else u[j + 8..j + 8 + k]))
  }

  /** `tag([\s\S]*?){{/if}}`, replaced by the body when `keep` holds. */
  function ScopedIfAt(tag: string, keep: bool, s: string): (m: Option<Hit>)
    ensures m.Some? ==> 0 < m.value.len <= |s| && |m.value.out| < m.value.len
    ensures m.Some? && StartsWith(tag, "{{") ==> StartsWith(s, "{{")
  {
    if !StartsWith(s, tag) then None
    else
      assert |tag| >= 2 && StartsWith(tag, "{{") ==> s[..2] == s[..|tag|][..2];
      match Find(s[|tag|..], "{{/if}}")
      case None => None
      case Some(k) => Some(Hit(|tag| + k + 7, if keep then s[|tag|..|tag| + k] else ""))
  }

  /** A fixed non-empty pattern, replaced by a fixed string. */
  function LiteralAt(p: string, rep: string, s: string): (m: Option<Hit>)
    ensures m.Some? ==> 0 < m.value.len <= |s|
    ensures m.Some? && StartsWith(p, "{{") ==> StartsWith(s, "{{")
  {
    if |p| > 0 && StartsWith(s, p) then
      assert StartsWith(p, "{{") ==> s[..2] == s[..|p|][..2];
      Some(Hit(|p|, rep))
    else None
  }

  /** `s.replace(pattern, replacement)` with a global pattern. */
  function ReplaceAll(r: Rule, s: string): (out: string)
    ensures Shrinks(r) ==> out == s || |out| < |s|
    decreases |s|
  {
    if s == [] then []
    else
      match MatchAt(r, s)
      case Some(h) => h.out + ReplaceAll(r, s[h.len..])
      case None =>
        var rest := ReplaceAll(r, s[1..]);
        assert rest == s[1..] ==> [s[0]] + rest == s;
        [s[0]] + rest
  }

  /** The rule matches nowhere in `s`. */
  ghost predicate NoMatch(r: Rule, s: string) {
    forall i :: 0 <= i < |s| ==> MatchAt(r, s[i..]).None?
  }

  /** Replace until the text stops changing. For a shrinking rule a round
      either changes nothing or shortens the text (ReplaceAll's contract), so
      stopping at the first round that does not shorten it is stopping where
      the loop stops. */
  function Resolve(r: Rule, s: string): (out: string)
    ensures Shrinks(r) ==> ReplaceAll(r, out) == out
    ensures |out| <= |s|
    decreases |s|
  {
    var t := ReplaceAll(r, s);
    if |t| < |s| then Resolve(r, t) else s
  }

  /** A `{{#each name}}body{{/each}}` loop: its length, the array's name, the body. */
  datatype Loop = Loop(len: nat, name: string, body: string)

  /** `{{#each\s+(\w+)}}([\s\S]*?){{/each}}` at the start of `s`: the body ends
      at the first `{{/each}}`, so loops do not nest. */
  function EachAt(s: string): (l: Option<Loop>)
    ensures l.Some? ==> 0 < l.value.len <= |s| && StartsWith(s, "{{#")
  {
    match OpenTagAt(s, "{{#each")
    case None => None
    case Some(t) =>
      assert s[..3] == s[..7][..3];
      match Find(s[t.len..], "{{/each}}")
      case None => None
      case Some(b) => Some(Loop(t.len + b + 9, t.key, s[t.len..t.len + b]))
  }

  /** The loop stage: one global pass replacing every loop by its expansion. */
  function EachPass(s: string, data: Fields): string
    decreases |s|
  {
    if s == [] then []
    else
      match EachAt(s)
      case Some(l) => ExpandEach(l.name, l.body, data) + EachPass(s[l.len..], data)
      case None => [s[0]] + EachPass(s[1..], data)
  }

  /** The expansion of one loop: nothing unless `data[name]` is an array,
      otherwise one copy of the body per item joined by newlines. */
  function ExpandEach(name: string, body: string, data: Fields): string {
    match Lookup(data, name)
    case Own(List(items)) => Join("\n", Copies(body, items))
    case _ => ""
  }

  function Copies(body: string, items: seq<Value>): seq<string> {
    CopiesUpTo(body, items, |items|)
  }

  /** The copies for the first `n` items. */
  function CopiesUpTo(body: string, items: seq<Value>, n: nat): seq<string>
    requires n <= |items|
  {
    if n == 0 then [] else CopiesUpTo(body, items, n - 1) + [CopyOf(body, items, n - 1)]
  }

  /** The copy for the item at index `i`. */
  function CopyOf(body: string, items: seq<Value>, i: nat): string
    requires i < |items|
  {
    ItemCopy(body, items[i], i, |items|)
  }

  /** The copy of the body for the item at `index` of an array of `count` items. */
  function ItemCopy(body: string, item: Value, index: nat, count: nat): string {
    PositionMarkers(BindItem(body, item), index, count)
  }

  /** A primitive item replaces `{{this}}`; an object (or array) item replaces
      `{{this.k}}` and then `{{k}}` for each own key `k`, key by key. */
  function BindItem(body: string, item: Value): string {
    if IsPrimitive(item) then ReplaceAll(Literal("{{this}}", ToStr(item)), body)
    else BindFields(OwnEntries(item), body)
  }

  function BindFields(entries: Fields, s: string): string
    decreases |entries|
  {
    if entries == [] then s
    else BindFields(entries[1..], BindField(entries[0], s))
  }

  function BindField(entry: (string, Value), s: string): string {
    var v := ToStr(entry.1);
    ReplaceAll(Literal("{{" + entry.0 + "}}", v), ReplaceAll(Literal("{{this." + entry.0 + "}}", v), s))
  }

  /** `{{@index}}`, `{{@number}}`, then the `{{#if @first}}` and `{{#if @last}}` blocks. */
  function PositionMarkers(s: string, index: nat, count: nat): string {
    var a := ReplaceAll(Literal("{{@index}}", NatToString(index)), s);
    var b := ReplaceAll(Literal("{{@number}}", NatToString(index + 1)), a);
    var c := ReplaceAll(ScopedIf("{{#if @first}}", index == 0), b);
    ReplaceAll(ScopedIf("{{#if @last}}", index + 1 == count), c)
  }

  /** The last stage: each top-level string or number value replaces its
      `{{key}}`, key by key in the data's order. */
  function FillScalars(entries: Fields, s: string): string
    decreases |entries|
  {
    if entries == [] then s
    else FillScalars(entries[1..], FillScalar(entries[0], s))
  }

  predicate IsScalar(v: Value) {
    v.Str? || v.Int?
  }

  function FillScalar(entry: (string, Value), s: string): string {
    if IsScalar(entry.1) then ReplaceAll(Literal("{{" + entry.0 + "}}", ToStr(entry.1)), s) else s
  }

  /** `replacePlaceholders(template, data)`. */
  function Render(template: string, data: Fields): string {
    var uncommented := ReplaceAll(StripComment(), template);
    var plain := Resolve(SimpleIf(TrueNames(data)), uncommented);
    var branched := Resolve(IfElse(TrueNames(data)), plain);
    var looped := EachPass(branched, data);
    FillScalars(data, looped)
  }
}
