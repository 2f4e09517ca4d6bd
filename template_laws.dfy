/** What the template engine promises, proved about the functions of module
    Template: how each stage treats the constructs it targets, the text it
    leaves alone, and where its behaviour departs from what a reader of the
    template syntax might expect. */
module TemplateLaws {
  import opened Text
  import opened JsValue
  import opened Template

  // ---------------------------------------------------------------------------
  // Facts about sequences, kept apart from the engine's functions

  lemma Split3(p: string, q: string, w: string)
    ensures var s := p + q + w;
      s == p + (q + w) && s[|p|..] == q + w && s[..|p|] == p && s[|p|..|p| + |q|] == q
      && s[|p| + |q|..] == w
  {
  }

  lemma Split4(p: string, q: string, r: string, w: string)
    ensures var s := p + q + r + w;
      && s == p + (q + r + w) && s[|p|..] == q + r + w && s[|p|..|p| + |q|] == q
      && s[|p| + |q|..] == r + w && s[|p| + |q| + |r|..] == w
  {
    var s := p + q + r + w;
    assert s[|p|..] == q + r + w;
  }

  lemma Split6(p: string, q: string, r: string, u: string, v: string, w: string)
    ensures var s := p + q + r + u + v + w;
      && s == p + (q + r + u + v + w) && s[|p|..] == q + r + u + v + w
      && s[|p|..] == q + r + (u + v + w)
      && s[|p| + |q| + |r|..] == u + v + w && s[|p|..|p| + |q|] == q
      && s[|p| + |q| + |r|..|p| + |q| + |r| + |u|] == u
  {
    var s := p + q + r + u + v + w;
    assert s[|p|..] == q + r + u + v + w;
  }

  /** `a + e + b + c + w` cut after `a` and after `e`. */
  lemma Branches(a: string, e: string, b: string, c: string, w: string)
    ensures var u := a + e + b + c + w;
      && u == a + e + (b + c + w) && u[..|a|] == a && u[|a| + |e|..] == b + c + w
      && u[|a| + |e|..|a| + |e| + |b|] == b
  {
    var u := a + e + b + c + w;
    assert u[|a| + |e|..] == b + c + w;
  }

  /** The text after a prefix `t`. */
  lemma Regroup(t: string, a: string, e: string, b: string, c: string, w: string)
    ensures var u := a + e + b + c + w;
      && t + a + e + b + c + w == t + u && (t + u)[|t|..] == u
      && |t + a + e + b + c| == |t| + |a| + |e| + |b| + |c|
  {
  }

  lemma TagsDoubled()
    ensures DoubledTag("{{/if}}") && DoubledTag("{{else}}") && DoubledTag("{{/each}}")
    ensures DoubledTag("{{#if") && DoubledTag("--}}")
  {
  }

  /** Text without `{`. */
  predicate BraceFree(s: string) {
    forall i :: 0 <= i < |s| ==> s[i] != '{'
  }

  lemma {:induction false} BraceFreeNoContains(s: string, p: string)
    requires BraceFree(s) && |p| > 0 && p[0] == '{'
    ensures !Contains(s, p)
    decreases |s|
  {
    if s != [] {
      BraceFreeNoContains(s[1..], p);
    }
  }

  lemma {:induction false} ShortNoContains(s: string, p: string)
    requires |s| < |p|
    ensures !Contains(s, p)
    decreases |s|
  {
    if s != [] {
      ShortNoContains(s[1..], p);
    }
  }

  // ---------------------------------------------------------------------------
  // The global replacement scan

  /** Where the rule matches nowhere, a global replacement changes nothing. */
  lemma {:induction false} NoMatchUnchanged(r: Rule, s: string)
    requires NoMatch(r, s)
    ensures ReplaceAll(r, s) == s
    decreases |s|
  {
    if s != [] {
      assert s[0..] == s;
      assert forall i :: 0 <= i < |s[1..]| ==> s[1..][i..] == s[i + 1..];
      NoMatchUnchanged(r, s[1..]);
    }
  }

  lemma HitShrinks(r: Rule, s: string)
    requires Shrinks(r) && s != []
    ensures MatchAt(r, s).Some? ==> |ReplaceAll(r, s)| < |s|
  {
    if MatchAt(r, s).Some? {
      var h := MatchAt(r, s).value;
      assert ReplaceAll(r, s) == h.out + ReplaceAll(r, s[h.len..]);
    }
  }

  /** For a shrinking rule the converse holds too: a replacement that changes
      nothing found no match. So the loop `while (result !== prev)` stops
      exactly when no match is left. */
  lemma {:induction false} UnchangedMeansNoMatch(r: Rule, s: string)
    requires Shrinks(r) && ReplaceAll(r, s) == s
    ensures NoMatch(r, s)
    decreases |s|
  {
    if s != [] {
      assert s[0..] == s;
      HitShrinks(r, s);
      assert MatchAt(r, s).None?;
      assert ReplaceAll(r, s) == [s[0]] + ReplaceAll(r, s[1..]);
      assert ReplaceAll(r, s[1..]) == ReplaceAll(r, s)[1..];
      UnchangedMeansNoMatch(r, s[1..]);
      forall i | 1 <= i < |s| ensures MatchAt(r, s[i..]).None? {
        assert s[1..][i - 1..] == s[i..];
      }
    }
  }

  /** Resolving a shrinking rule leaves text in which it matches nowhere. */
  lemma ResolveLeavesNoMatch(r: Rule, s: string)
    requires Shrinks(r)
    ensures NoMatch(r, Resolve(r, s))
  {
    UnchangedMeansNoMatch(r, Resolve(r, s));
  }

  /** Text without a match is its own resolution. */
  lemma ResolveNoMatch(r: Rule, s: string)
    requires NoMatch(r, s)
    ensures Resolve(r, s) == s
  {
    NoMatchUnchanged(r, s);
  }

  /** A prefix where the rule cannot match is copied unchanged. */
  lemma {:induction false} SkipPrefix(r: Rule, a: string, t: string)
    requires forall i :: 0 <= i < |a| ==> MatchAt(r, (a + t)[i..]).None?
    ensures ReplaceAll(r, a + t) == a + ReplaceAll(r, t)
    decreases |a|
  {
    if a != [] {
      assert (a + t)[0..] == a + t;
      assert (a + t)[1..] == a[1..] + t;
      forall i | 0 <= i < |a[1..]| ensures MatchAt(r, (a[1..] + t)[i..]).None? {
        assert (a[1..] + t)[i..] == (a + t)[i + 1..];
      }
      SkipPrefix(r, a[1..], t);
    } else {
      assert a + t == t;
    }
  }

  /** A match covering a prefix is replaced, and the scan resumes after it. */
  lemma HitPrefix(r: Rule, a: string, t: string, out: string)
    requires r.at(a + t) == Some(Hit(|a|, out)) && a != []
    ensures ReplaceAll(r, a + t) == out + ReplaceAll(r, t)
  {
    assert (a + t)[|a|..] == t;
  }

  /** A match covering the whole text is its whole replacement. */
  lemma HitWhole(r: Rule, s: string, out: string)
    requires r.at(s) == Some(Hit(|s|, out)) && s != []
    ensures ReplaceAll(r, s) == out
  {
    assert s + [] == s;
    HitPrefix(r, s, [], out);
    assert out + [] == out;
  }

  lemma BracedSkip(r: Rule, a: string, t: string)
    requires Braced(r) && BraceFree(a)
    ensures ReplaceAll(r, a + t) == a + ReplaceAll(r, t)
  {
    forall i | 0 <= i < |a| ensures MatchAt(r, (a + t)[i..]).None? {
      assert (a + t)[i..][0] == a[i];
    }
    SkipPrefix(r, a, t);
  }

  /** Text without `{` is left alone by every braced rule. */
  lemma BracedUnchanged(r: Rule, s: string)
    requires Braced(r) && BraceFree(s)
    ensures ReplaceAll(r, s) == s
  {
    BracedSkip(r, s, "");
    assert s + "" == s;
  }

  // ---------------------------------------------------------------------------
  // The rules

  /** Every rule the stages resolve repeatedly shrinks the text it replaces,
      and every rule matches only at `{{`. */
  lemma RuleShapes(truths: set<string>, tag: string, keep: bool)
    ensures Shrinks(StripComment()) && Shrinks(SimpleIf(truths)) && Shrinks(IfElse(truths))
    ensures Shrinks(ScopedIf(tag, keep))
    ensures Braced(StripComment()) && Braced(SimpleIf(truths)) && Braced(IfElse(truths))
    ensures StartsWith(tag, "{{") ==> Braced(ScopedIf(tag, keep))
  {
  }

  lemma LiteralBraced(p: string, rep: string)
    requires StartsWith(p, "{{")
    ensures Braced(Literal(p, rep))
  {
  }

  /** A literal pattern that does not occur is not replaced. */
  lemma LiteralAbsent(p: string, rep: string, s: string)
    requires !Contains(s, p)
    ensures ReplaceAll(Literal(p, rep), s) == s
  {
    forall i | 0 <= i < |s| ensures MatchAt(Literal(p, rep), s[i..]).None? {
      if StartsWith(s[i..], p) {
        ContainsAt(s, p, i);
      }
    }
    NoMatchUnchanged(Literal(p, rep), s);
  }

  /** A literal pattern covering the whole text is replaced once. */
  lemma LiteralWhole(p: string, rep: string)
    requires |p| > 0
    ensures ReplaceAll(Literal(p, rep), p) == rep
  {
    assert p[..|p|] == p;
    HitWhole(Literal(p, rep), p, rep);
  }

  // ---------------------------------------------------------------------------
  // Stage 1: comments

  /** Stripping comments leaves text without `{{!--` unchanged. */
  lemma CommentFreeUnchanged(s: string)
    requires !Contains(s, "{{!--")
    ensures ReplaceAll(StripComment(), s) == s
  {
    forall i | 0 <= i < |s| ensures MatchAt(StripComment(), s[i..]).None? {
      if StartsWith(s[i..], "{{!--") {
        ContainsAt(s, "{{!--", i);
      }
    }
    NoMatchUnchanged(StripComment(), s);
  }

  /** A comment is removed up to the first `--}}` after its opener, and the
      text after it is stripped in its turn. */
  lemma CommentRemoved(c: string, rest: string)
    requires !Contains(c, "--}}")
    ensures ReplaceAll(StripComment(), "{{!--" + c + "--}}" + rest) == ReplaceAll(StripComment(), rest)
  {
    var s := "{{!--" + c + "--}}" + rest;
    Split4("{{!--", c, "--}}", rest);
    TagsDoubled();
    FindAfter(c, "--}}", rest);
    CommentAtParts(s, |c|);
    HitPrefix(StripComment(), "{{!--" + c + "--}}", rest, "");
  }

  lemma CommentAtParts(s: string, k: nat)
    requires StartsWith(s, "{{!--") && Find(s[5..], "--}}") == Some(k)
    ensures CommentAt(s) == Some(Hit(5 + k + 4, ""))
  {
  }

  /** Stripping comments once is not always enough: removing an inner comment
      can join the pieces around it into a new one (`{{!{{!--x--}}--y--}}`
      becomes `{{!--y--}}`), which a second stripping removes. */
  lemma CommentStrippingNotIdempotent(c: string, y: string)
    requires !Contains(c, "--}}") && !Contains(y, "--}}") && BraceFree(y)
    ensures ReplaceAll(StripComment(), "{{!" + "{{!--" + c + "--}}" + "--" + y + "--}}")
         == "{{!--" + y + "--}}"
    ensures ReplaceAll(StripComment(), "{{!--" + y + "--}}") == ""
  {
    var tail := "--" + y + "--}}";
    var inner := "{{!--" + c + "--}}" + tail;
    DanglingOpenerShape(c, y);
    SkipPrefix(StripComment(), "{{!", inner);
    CommentRemoved(c, tail);
    BraceFreeNoContains(tail, "{{!--");
    CommentFreeUnchanged(tail);
    CommentRemoved(y, "");
  }

  /** The pieces of the text in CommentStrippingNotIdempotent. */
  lemma DanglingOpenerShape(c: string, y: string)
    requires BraceFree(y)
    ensures var tail := "--" + y + "--}}";
      var inner := "{{!--" + c + "--}}" + tail;
      && "{{!" + inner == "{{!" + "{{!--" + c + "--}}" + "--" + y + "--}}"
      && (forall i :: 0 <= i < 3 ==> MatchAt(StripComment(), ("{{!" + inner)[i..]).None?)
      && BraceFree(tail)
      && "{{!" + tail == "{{!--" + y + "--}}"
      && "{{!--" + y + "--}}" + "" == "{{!--" + y + "--}}"
  {
    var tail := "--" + y + "--}}";
    var inner := "{{!--" + c + "--}}" + tail;
    assert forall i :: 2 <= i < 2 + |y| ==> tail[i] == y[i - 2];
    var s := "{{!" + inner;
    assert s[..4] == "{{!{";
    NoCommentAtDanglingOpener(s);
  }

  lemma NoCommentAtDanglingOpener(s: string)
    requires |s| >= 4 && s[..4] == "{{!{"
    ensures forall i :: 0 <= i < 3 ==> CommentAt(s[i..]).None?
  {
    assert s[3] == '{' && s[2] == '!' && s[1] == '{';
    assert !StartsWith(s, "{{!--") by {
      if |s| >= 5 {
        assert s[..5][3] != "{{!--"[3];
      }
    }
    assert !StartsWith(s[1..], "{{!--") by {
      if |s| >= 6 {
        assert s[1..][..5][1] != "{{!--"[1];
      }
    }
    assert !StartsWith(s[2..], "{{!--") by {
      if |s| >= 7 {
        assert s[2..][..5][0] != "{{!--"[0];
      }
    }
  }

  // ---------------------------------------------------------------------------
  // Opening tags

  lemma {:induction false} WordRunOfKey(key: string, tail: string)
    requires WordKey(key) && tail != [] && !IsWordChar(tail[0])
    ensures WordRun(key + tail) == |key|
    decreases |key|
  {
    if |key| > 1 {
      assert (key + tail)[1..] == key[1..] + tail;
      WordRunOfKey(key[1..], tail);
    } else {
      assert (key + tail)[1..] == tail;
    }
  }

  /** A tag written `opener key}}` with one space names `key` and ends after `}}`. */
  lemma OpenTagOfKey(opener: string, key: string, rest: string)
    requires WordKey(key)
    ensures OpenTagAt(opener + " " + key + "}}" + rest, opener) == Some(Tag(|opener| + 1 + |key| + 2, key))
  {
    var s := opener + " " + key + "}}" + rest;
    var n := |opener|;
    TagPieces(opener, key, rest);
    assert !IsSpace(key[0]);
    assert SpaceRun(" " + (key + ("}}" + rest))) == 1 by {
      assert (" " + (key + ("}}" + rest)))[1..] == key + ("}}" + rest);
    }
    WordRunOfKey(key, "}}" + rest);
    assert key + "}}" + rest == key + ("}}" + rest);
    OpenTagParts(s, opener, key);
  }

  lemma TagPieces(opener: string, key: string, rest: string)
    ensures var s := opener + " " + key + "}}" + rest; var n := |opener|;
      && s[..n] == opener && s[n..] == " " + (key + ("}}" + rest))
      && s[n + 1..] == key + "}}" + rest && s[n + 1 + |key|..] == "}}" + rest
      && s[n + 1..n + 1 + |key|] == key
  {
    var s := opener + " " + key + "}}" + rest;
    var n := |opener|;
    assert s[n..] == " " + (key + ("}}" + rest));
  }

  lemma OpenTagParts(s: string, opener: string, key: string)
    requires |opener| + 1 + |key| + 2 <= |s| && s[..|opener|] == opener
    requires SpaceRun(s[|opener|..]) == 1 && WordRun(s[|opener| + 1..]) == |key| && |key| > 0
    requires s[|opener| + 1 + |key|..][..2] == "}}" && s[|opener| + 1..|opener| + 1 + |key|] == key
    ensures OpenTagAt(s, opener) == Some(Tag(|opener| + 1 + |key| + 2, key))
  {
  }

  /** The same for `{{#if key}}`. */
  lemma IfTagOfKey(key: string, rest: string)
    requires WordKey(key)
    ensures OpenTagAt("{{#if " + key + "}}" + rest, "{{#if") == Some(Tag(|key| + 8, key))
  {
    assert "{{#if" + " " == "{{#if ";
    OpenTagOfKey("{{#if", key, rest);
  }

  // ---------------------------------------------------------------------------
  // Stage 2: conditionals without {{else}}

  lemma {:induction false} NestedIfFreeAt(s: string, i: nat)
    requires NestedIfFree(s) && i < |s|
    ensures !NestedIfAt(s[i..])
    decreases i
  {
    if i > 0 {
      assert s[1..][i - 1..] == s[i..];
      NestedIfFreeAt(s[1..], i - 1);
    } else {
      assert s[0..] == s;
    }
  }

  /** Text without a nested `{{#if` followed by white space holds no conditional
      of either form. */
  lemma NoConditionals(truths: set<string>, s: string)
    requires NestedIfFree(s)
    ensures NoMatch(SimpleIf(truths), s) && NoMatch(IfElse(truths), s)
  {
    forall i | 0 <= i < |s| ensures SimpleIfAt(truths, s[i..]).None? && IfElseAt(truths, s[i..]).None? {
      NestedIfFreeAt(s, i);
    }
  }

  /** The lazy body scan stops at the first `{{/if}}` when the body holds no
      `{{/if}}`, no `{{else}}` and no nested `{{#if`. */
  lemma {:induction false} SimpleBodyScan(body: string, rest: string)
    requires !Contains(body, "{{/if}}") && !Contains(body, "{{else}}") && NestedIfFree(body)
    ensures SimpleBodyLen(body + "{{/if}}" + rest) == Some(|body|)
    decreases |body|
  {
    var t := body + "{{/if}}" + rest;
    if body == [] {
      assert t == "{{/if}}" + rest;
      assert t[..7] == "{{/if}}";
    } else {
      TagsDoubled();
      NoStraddle(body, "{{/if}}", "{{/if}}", rest);
      NoStraddle(body, "{{else}}", "{{/if}}", rest);
      assert !NestedIfAt(t) by {
        if |body| > 5 {
          assert t[..5] == body[..5] && t[5] == body[5];
        } else if |body| == 5 {
          assert t[5] == '{';
        } else {
          ShortNoContains(body, "{{#if");
          NoStraddle(body, "{{#if", "{{/if}}", rest);
        }
      }
      assert t[1..] == body[1..] + "{{/if}}" + rest;
      SimpleBodyScan(body[1..], rest);
    }
  }

  lemma SimpleIfAtParts(truths: set<string>, s: string, n: nat, key: string, b: nat)
    requires OpenTagAt(s, "{{#if") == Some(Tag(n, key)) && SimpleBodyLen(s[n..]) == Some(b)
    ensures var m := SimpleIfAt(truths, s);
      && m.Some? && m.value.len == n + b + 7
      && m.value.out == if key in truths then s[n..n + b] else ""
  {
  }

  lemma SimpleIfSplit(truths: set<string>, key: string, n: nat, body: string, s: string)
    requires OpenTagAt(s, "{{#if") == Some(Tag(n, key)) && SimpleBodyLen(s[n..]) == Some(|body|)
    requires s[n..n + |body|] == body
    ensures var m := SimpleIfAt(truths, s);
      && m.Some? && m.value.len == n + |body| + 7
      && m.value.out == if key in truths then body else ""
  {
    SimpleIfAtParts(truths, s, n, key, |body|);
  }

  /** A conditional without `{{else}}` is matched from its tag to its `{{/if}}`
      and replaced by its body when the key tests true, by nothing otherwise. */
  lemma SimpleIfMatch(truths: set<string>, key: string, body: string, rest: string)
    requires WordKey(key)
    requires !Contains(body, "{{/if}}") && !Contains(body, "{{else}}") && NestedIfFree(body)
    ensures var block := "{{#if " + key + "}}" + body + "{{/if}}";
      var m := SimpleIfAt(truths, block + rest);
      && m.Some? && m.value.len == |block|
      && m.value.out == if key in truths then body else ""
  {
    var tagText := "{{#if " + key + "}}";
    var s := tagText + body + "{{/if}}" + rest;
    var n := |tagText|;
    Split4(tagText, body, "{{/if}}", rest);
    IfTagOfKey(key, body + "{{/if}}" + rest);
    assert OpenTagAt(s, "{{#if") == Some(Tag(n, key));
    SimpleBodyScan(body, rest);
    assert SimpleBodyLen(s[n..]) == Some(|body|);
    SimpleIfAtParts(truths, s, n, key, |body|);
  }

  /** `{{#if key}}body{{/if}}` resolves to `body` when `data[key]` is truthy and
      to nothing otherwise. */
  lemma SimpleIfBlock(data: Fields, key: string, body: string)
    requires WordKey(key)
    requires !Contains(body, "{{/if}}") && !Contains(body, "{{else}}") && NestedIfFree(body)
    ensures Resolve(SimpleIf(TrueNames(data)), "{{#if " + key + "}}" + body + "{{/if}}")
         == if Holds(data, key) then body else ""
  {
    var r := SimpleIf(TrueNames(data));
    var block := "{{#if " + key + "}}" + body + "{{/if}}";
    var out := if Holds(data, key) then body else "";
    SimpleIfMatch(TrueNames(data), key, body, "");
    assert block + "" == block;
    assert r.at(block) == Some(Hit(|block|, out));
    HitWhole(r, block, out);
    NoConditionals(TrueNames(data), out);
    ResolveNoMatch(r, out);
  }

  // ---------------------------------------------------------------------------
  // Stage 3: conditionals with {{else}}

  /** After the tag: the first `{{else}}` ends the first branch and the first
      `{{/if}}` after it ends the second. */
  lemma IfElseBranchesOf(n: nat, first: bool, a: string, b: string, rest: string)
    requires !Contains(a, "{{else}}") && !Contains(b, "{{/if}}")
    ensures var m := IfElseBranches(n, first, a + "{{else}}" + b + "{{/if}}" + rest);
      && m.Some? && m.value.len == n + |a| + 8 + |b| + 7
      && m.value.out == if first then a else b
  {
    ElseFound(a, b, rest);
    CloseFound(a, b, rest);
    BranchSlices(a, b, rest);
    IfElseBranchesSplit(n, first, a, b, a + "{{else}}" + b + "{{/if}}" + rest);
  }

  lemma IfElseBranchesSplit(n: nat, first: bool, a: string, b: string, u: string)
    requires Find(u, "{{else}}") == Some(|a|) && Find(u[|a| + 8..], "{{/if}}") == Some(|b|)
    requires u[..|a|] == a && u[|a| + 8..|a| + 8 + |b|] == b
    ensures var m := IfElseBranches(n, first, u);
      && m.Some? && m.value.len == n + |a| + 8 + |b| + 7
      && m.value.out == if first then a else b
  {
    IfElseBranchesParts(n, first, u, |a|, |b|);
  }

  lemma BranchSlices(a: string, b: string, rest: string)
    ensures var u := a + "{{else}}" + b + "{{/if}}" + rest;
      u[..|a|] == a && u[|a| + 8..|a| + 8 + |b|] == b
  {
    Branches(a, "{{else}}", b, "{{/if}}", rest);
  }

  lemma ElseFound(a: string, b: string, rest: string)
    requires !Contains(a, "{{else}}")
    ensures Find(a + "{{else}}" + b + "{{/if}}" + rest, "{{else}}") == Some(|a|)
  {
    Branches(a, "{{else}}", b, "{{/if}}", rest);
    TagsDoubled();
    FindAfter(a, "{{else}}", b + "{{/if}}" + rest);
  }

  lemma CloseFound(a: string, b: string, rest: string)
    requires !Contains(b, "{{/if}}")
    ensures Find((a + "{{else}}" + b + "{{/if}}" + rest)[|a| + 8..], "{{/if}}") == Some(|b|)
  {
    Branches(a, "{{else}}", b, "{{/if}}", rest);
    TagsDoubled();
    FindAfter(b, "{{/if}}", rest);
  }

  lemma IfElseBranchesParts(n: nat, first: bool, u: string, j: nat, k: nat)
    requires Find(u, "{{else}}") == Some(j)
    requires Find(u[j + 8..], "{{/if}}") == Some(k)
    ensures var m := IfElseBranches(n, first, u);
      && m.Some? && m.value.len == n + j + 8 + k + 7
      && m.value.out == if first then u[..j] else u[j + 8..j + 8 + k]
  {
  }

  lemma IfElseAtParts(truths: set<string>, s: string, n: nat, key: string)
    requires OpenTagAt(s, "{{#if") == Some(Tag(n, key))
    ensures IfElseAt(truths, s) == IfElseBranches(n, key in truths, s[n..])
  {
  }

  /** A conditional with `{{else}}` is matched from its tag to the first
      `{{/if}}` after its first `{{else}}`, and replaced by the branch the key
      selects. */
  lemma IfElseMatch(truths: set<string>, key: string, a: string, b: string, rest: string)
    requires WordKey(key) && !Contains(a, "{{else}}") && !Contains(b, "{{/if}}")
    ensures var block := "{{#if " + key + "}}" + a + "{{else}}" + b + "{{/if}}";
      var m := IfElseAt(truths, block + rest);
      && m.Some? && m.value.len == |block|
      && m.value.out == if key in truths then a else b
  {
    var tagText := "{{#if " + key + "}}";
    var u := a + "{{else}}" + b + "{{/if}}" + rest;
    Regroup(tagText, a, "{{else}}", b, "{{/if}}", rest);
    IfTagOfKey(key, u);
    IfElseAtParts(truths, tagText + u, |tagText|, key);
    IfElseBranchesOf(|tagText|, key in truths, a, b, rest);
  }

  /** `{{#if key}}a{{else}}b{{/if}}` resolves to `a` when `data[key]` is truthy
      and to `b` otherwise. */
  lemma IfElseBlock(data: Fields, key: string, a: string, b: string)
    requires WordKey(key) && !Contains(a, "{{else}}") && !Contains(b, "{{/if}}")
    requires NestedIfFree(a) && NestedIfFree(b)
    ensures Resolve(IfElse(TrueNames(data)), "{{#if " + key + "}}" + a + "{{else}}" + b + "{{/if}}")
         == if Holds(data, key) then a else b
  {
    var r := IfElse(TrueNames(data));
    var block := "{{#if " + key + "}}" + a + "{{else}}" + b + "{{/if}}";
    var out := if Holds(data, key) then a else b;
    IfElseMatch(TrueNames(data), key, a, b, "");
    assert block + "" == block;
    assert r.at(block) == Some(Hit(|block|, out));
    HitWhole(r, block, out);
    NoConditionals(TrueNames(data), out);
    ResolveNoMatch(r, out);
  }

  /** The body scan of a conditional without `{{else}}` fails on reaching an
      `{{else}}`, when the text before it holds no `{{/if}}` and no nested `{{#if`. */
  lemma {:induction false} SimpleBodyStopsAtElse(a: string, t: string)
    requires !Contains(a, "{{/if}}") && NestedIfFree(a)
    ensures SimpleBodyLen(a + "{{else}}" + t) == None
    decreases |a|
  {
    var u := a + "{{else}}" + t;
    if a == [] {
      assert u == "{{else}}" + t;
      assert u[..8] == "{{else}}";
      assert u[2] != "{{/if}}"[2];
    } else {
      TagsDoubled();
      NoStraddle(a, "{{/if}}", "{{else}}", t);
      if !StartsWith(u, "{{else}}") && !NestedIfAt(u) {
        assert u[1..] == a[1..] + "{{else}}" + t;
        SimpleBodyStopsAtElse(a[1..], t);
      }
    }
  }

  /** So the stage for conditionals without `{{else}}` leaves a conditional
      with `{{else}}` to the next stage. */
  lemma IfElseLeftToItsStage(truths: set<string>, key: string, a: string, t: string)
    requires WordKey(key) && !Contains(a, "{{/if}}") && NestedIfFree(a)
    ensures SimpleIfAt(truths, "{{#if " + key + "}}" + a + "{{else}}" + t) == None
  {
    var tagText := "{{#if " + key + "}}";
    Split4(tagText, a, "{{else}}", t);
    IfTagOfKey(key, a + "{{else}}" + t);
    SimpleBodyStopsAtElse(a, t);
  }

  // ---------------------------------------------------------------------------
  // Position blocks pass through the top-level conditional stages

  /** Every `{{#if` in `s` is followed by ` @`, as in `{{#if @first}}` and
      `{{#if @last}}`. */
  predicate OnlyPositionIfs(s: string) {
    forall i :: 0 <= i <= |s| && StartsWith(s[i..], "{{#if") ==> StartsWith(s[i..][5..], " @")
  }

  /** `@` is not a word character, so an opening tag with `@` after the space
      is not a tag the conditional stages recognise. */
  lemma NoTagBeforeAt(s: string)
    requires StartsWith(s, "{{#if") && StartsWith(s[5..], " @")
    ensures OpenTagAt(s, "{{#if") == None
  {
    assert s[5..][0] == ' ' && s[5..][1] == '@';
    assert s[5..][1..][0] == '@';
    assert SpaceRun(s[5..]) == 1 by {
      assert !IsSpace(s[5..][1..][0]);
    }
    assert s[6..] == s[5..][1..];
    assert WordRun(s[6..]) == 0;
  }

  /** The top-level conditional stages leave `{{#if @first}}` and
      `{{#if @last}}` blocks alone: they are resolved per loop item later. */
  lemma PositionBlocksSurviveConditionals(truths: set<string>, s: string)
    requires OnlyPositionIfs(s)
    ensures Resolve(SimpleIf(truths), s) == s && Resolve(IfElse(truths), s) == s
  {
    forall i | 0 <= i < |s|
      ensures SimpleIfAt(truths, s[i..]).None? && IfElseAt(truths, s[i..]).None?
    {
      if StartsWith(s[i..], "{{#if") {
        NoTagBeforeAt(s[i..]);
      }
    }
    ResolveNoMatch(SimpleIf(truths), s);
    ResolveNoMatch(IfElse(truths), s);
  }

  // ---------------------------------------------------------------------------
  // Placeholders: `{{key}}` and `{{this.key}}`

  /** A literal `{{...}}` pattern applied to text that opens with `{{` and holds
      no other `{`: it is replaced once at the start, or not at all. */
  lemma TagReplace(p: string, rep: string, s: string)
    requires StartsWith(p, "{{") && StartsWith(s, "{{") && BraceFree(s[2..])
    ensures ReplaceAll(Literal(p, rep), s) == if StartsWith(s, p) then rep + s[|p|..] else s
  {
    LiteralBraced(p, rep);
    if StartsWith(s, p) {
      TagReplaceHit(p, rep, s);
    } else {
      TagReplaceMiss(p, rep, s);
    }
  }

  lemma TagReplaceHit(p: string, rep: string, s: string)
    requires StartsWith(p, "{{") && StartsWith(s, p) && BraceFree(s[2..]) && Braced(Literal(p, rep))
    ensures ReplaceAll(Literal(p, rep), s) == rep + s[|p|..]
  {
    var r := Literal(p, rep);
    assert s[..|p|] + s[|p|..] == s;
    assert BraceFree(s[|p|..]) by {
      forall i | 0 <= i < |s[|p|..]| ensures s[|p|..][i] != '{' {
        assert s[|p|..][i] == s[2..][i + |p| - 2];
      }
    }
    HitPrefix(r, s[..|p|], s[|p|..], rep);
    BracedUnchanged(r, s[|p|..]);
  }

  lemma TagReplaceMiss(p: string, rep: string, s: string)
    requires StartsWith(p, "{{") && StartsWith(s, "{{") && !StartsWith(s, p) && BraceFree(s[2..])
    requires Braced(Literal(p, rep))
    ensures ReplaceAll(Literal(p, rep), s) == s
  {
    var r := Literal(p, rep);
    assert MatchAt(r, s).None?;
    var t := s[1..];
    assert MatchAt(r, t).None? by {
      if |t| >= 2 {
        assert t[1] == s[2..][0];
      }
    }
    assert t[1..] == s[2..];
    assert ReplaceAll(r, t) == [t[0]] + ReplaceAll(r, t[1..]);
    BracedUnchanged(r, t[1..]);
    assert [t[0]] + t[1..] == t;
    assert [s[0]] + t == s;
  }

  /** `pre + key + "}}"` starts with `pre + key' + "}}"` only when the keys agree. */
  lemma SameKeyTag(pre: string, k: string, k': string)
    requires WordKey(k) && WordKey(k')
    ensures StartsWith(pre + k + "}}", pre + k' + "}}") <==> k == k'
  {
    var s := pre + k + "}}";
    var p := pre + k' + "}}";
    if |k'| < |k| {
      assert s[|pre| + |k'|] == k[|k'|];
      assert p[|pre| + |k'|] == '}';
      assert s[..|p|][|pre| + |k'|] != p[|pre| + |k'|];
    } else if |k'| == |k| && StartsWith(s, p) {
      assert s[..|p|] == s;
      assert k == s[|pre|..|pre| + |k|] == p[|pre|..|pre| + |k'|] == k';
    }
  }

  /** Text holding only the tag `{{...}}` with a `\w` run inside. */
  lemma PlainTagShape(k: string)
    requires WordKey(k)
    ensures var s := "{{" + k + "}}"; StartsWith(s, "{{") && BraceFree(s[2..]) && s[2..] == k + "}}"
  {
    var s := "{{" + k + "}}";
    assert s[2..] == k + "}}";
    assert forall i :: 0 <= i < |k| ==> (k + "}}")[i] == k[i];
  }

  lemma ThisTagShape(k: string)
    requires WordKey(k)
    ensures var s := "{{this." + k + "}}"; StartsWith(s, "{{") && BraceFree(s[2..])
    ensures "{{this." + k + "}}" == "{{" + ("this." + k + "}}")
  {
    var s := "{{this." + k + "}}";
    assert s[2..] == "this." + k + "}}";
    assert forall i :: 0 <= i < |k| ==> ("this." + k + "}}")[i + 5] == k[i];
  }

  /** `{{this.key'}}` never occurs in `{{key}}`, since a key holds no `.`. */
  lemma ThisNotInPlain(k: string, k': string)
    requires WordKey(k) && WordKey(k')
    ensures !StartsWith("{{" + k + "}}", "{{this." + k' + "}}")
  {
    var s := "{{" + k + "}}";
    var p := "{{this." + k' + "}}";
    if |p| <= |s| {
      assert p[6] == '.';
      assert s[..|p|][6] == s[6];
      assert |k| > 4;
      assert s[6] == k[4];
    }
  }

  /** `{{key'}}` never occurs in `{{this.key}}`: the word run after `{{` is `this`. */
  lemma PlainNotInThis(k: string, k': string)
    requires WordKey(k) && WordKey(k')
    ensures !StartsWith("{{this." + k + "}}", "{{" + k' + "}}")
  {
    var s := "{{this." + k + "}}";
    var p := "{{" + k' + "}}";
    if |p| <= |s| {
      var n := if |k'| < 4 then |k'| else 4;
      assert s[..|p|][2 + n] == s[2 + n];
      if |k'| < 4 {
        assert p[2 + n] == '}';
        assert s[2 + n] == "this."[n];
      } else {
        assert s[6] == '.';
        assert |k'| == 4 ==> p[6] == '}';
        assert |k'| > 4 ==> p[6] == k'[4];
      }
    }
  }

  /** The pattern `{{key'}}` replaces the placeholder `{{key}}` exactly when
      the keys agree. */
  lemma PlainOnPlain(k': string, rep: string, k: string)
    requires WordKey(k) && WordKey(k')
    ensures ReplaceAll(Literal("{{" + k' + "}}", rep), "{{" + k + "}}") == if k' == k then rep else "{{" + k + "}}"
  {
    PlainTagShape(k);
    PlainTagShape(k');
    SameKeyTag("{{", k, k');
    TagReplace("{{" + k' + "}}", rep, "{{" + k + "}}");
    if k' == k {
      assert ("{{" + k + "}}")[|"{{" + k + "}}"|..] == "";
      assert rep + "" == rep;
    }
  }

  /** The pattern `{{this.key'}}` leaves the placeholder `{{key}}` alone. */
  lemma ThisOnPlain(k': string, rep: string, k: string)
    requires WordKey(k) && WordKey(k')
    ensures ReplaceAll(Literal("{{this." + k' + "}}", rep), "{{" + k + "}}") == "{{" + k + "}}"
  {
    PlainTagShape(k);
    ThisTagShape(k');
    ThisNotInPlain(k, k');
    TagReplace("{{this." + k' + "}}", rep, "{{" + k + "}}");
  }

  /** The pattern `{{key'}}` leaves the placeholder `{{this.key}}` alone. */
  lemma PlainOnThis(k': string, rep: string, k: string)
    requires WordKey(k) && WordKey(k')
    ensures ReplaceAll(Literal("{{" + k' + "}}", rep), "{{this." + k + "}}") == "{{this." + k + "}}"
  {
    ThisTagShape(k);
    PlainTagShape(k');
    PlainNotInThis(k, k');
    TagReplace("{{" + k' + "}}", rep, "{{this." + k + "}}");
  }

  /** The pattern `{{this.key'}}` replaces `{{this.key}}` exactly when the keys agree. */
  lemma ThisOnThis(k': string, rep: string, k: string)
    requires WordKey(k) && WordKey(k')
    ensures ReplaceAll(Literal("{{this." + k' + "}}", rep), "{{this." + k + "}}")
         == if k' == k then rep else "{{this." + k + "}}"
  {
    ThisTagShape(k);
    ThisTagShape(k');
    SameKeyTag("{{this.", k, k');
    TagReplace("{{this." + k' + "}}", rep, "{{this." + k + "}}");
    if k' == k {
      assert ("{{this." + k + "}}")[|"{{this." + k + "}}"|..] == "";
      assert rep + "" == rep;
    }
  }

  // ---------------------------------------------------------------------------
  // Binding an item's fields, and the last stage

  /** Property names that are runs of `\w`, each at most once. */
  predicate WordKeys(entries: Fields) {
    DistinctKeys(entries) && forall i :: 0 <= i < |entries| ==> WordKey(entries[i].0)
  }

  /** Values whose text holds no `{`, so that substituting one cannot create a
      placeholder for a later key. */
  predicate BraceFreeValues(entries: Fields) {
    forall i :: 0 <= i < |entries| ==> BraceFree(ToStr(entries[i].1))
  }

  lemma WordKeysTail(entries: Fields)
    requires entries != [] && WordKeys(entries) && BraceFreeValues(entries)
    ensures WordKeys(entries[1..]) && BraceFreeValues(entries[1..])
  {
    assert forall i :: 0 <= i < |entries[1..]| ==> entries[1..][i] == entries[i + 1];
  }

  lemma PlaceholderBraced(k: string, rep: string)
    ensures Braced(Literal("{{" + k + "}}", rep)) && Braced(Literal("{{this." + k + "}}", rep))
  {
    assert ("{{" + k + "}}")[..2] == "{{";
    assert ("{{this." + k + "}}")[..2] == "{{";
    LiteralBraced("{{" + k + "}}", rep);
    LiteralBraced("{{this." + k + "}}", rep);
  }

  /** Binding fields leaves text without `{` alone. */
  lemma {:induction false} BindFieldsBraceFree(entries: Fields, s: string)
    requires BraceFree(s)
    ensures BindFields(entries, s) == s
    decreases |entries|
  {
    if entries != [] {
      var v := ToStr(entries[0].1);
      PlaceholderBraced(entries[0].0, v);
      BracedUnchanged(Literal("{{this." + entries[0].0 + "}}", v), s);
      BracedUnchanged(Literal("{{" + entries[0].0 + "}}", v), s);
      BindFieldsBraceFree(entries[1..], s);
    }
  }

  /** An object item replaces `{{key}}` and `{{this.key}}` by the value of its
      property `key`. */
  lemma {:induction false} BindFieldsPlaceholder(entries: Fields, j: nat)
    requires WordKeys(entries) && BraceFreeValues(entries) && j < |entries|
    ensures var k := entries[j].0;
      && BindFields(entries, "{{" + k + "}}") == ToStr(entries[j].1)
      && BindFields(entries, "{{this." + k + "}}") == ToStr(entries[j].1)
    decreases j
  {
    var k := entries[j].0;
    var plain := "{{" + k + "}}";
    var dotted := "{{this." + k + "}}";
    var rest := entries[1..];
    assert BindFields(entries, plain) == BindFields(rest, BindField(entries[0], plain));
    assert BindFields(entries, dotted) == BindFields(rest, BindField(entries[0], dotted));
    BindFieldOnPlaceholders(entries[0], k);
    if j == 0 {
      BindFieldsBraceFree(rest, ToStr(entries[0].1));
    } else {
      assert entries[0].0 != k;
      WordKeysTail(entries);
      assert rest[j - 1] == entries[j];
      BindFieldsPlaceholder(rest, j - 1);
    }
  }

  /** Binding one property turns its own two placeholders into its value
      and leaves those of every other key alone. */
  lemma BindFieldOnPlaceholders(entry: (string, Value), k: string)
    requires WordKey(entry.0) && WordKey(k) && BraceFree(ToStr(entry.1))
    ensures var v := ToStr(entry.1);
      && BindField(entry, "{{" + k + "}}") == (if entry.0 == k then v else "{{" + k + "}}")
      && BindField(entry, "{{this." + k + "}}") == (if entry.0 == k then v else "{{this." + k + "}}")
  {
    var (k', v) := (entry.0, ToStr(entry.1));
    ThisOnPlain(k', v, k);
    PlainOnPlain(k', v, k);
    ThisOnThis(k', v, k);
    PlainOnThis(k', v, k);
    if k' == k {
      PlainBraceFreeOn(k, v);
    }
  }

  lemma PlainBraceFreeOn(k: string, v: string)
    requires BraceFree(v)
    ensures ReplaceAll(Literal("{{" + k + "}}", v), v) == v
  {
    PlaceholderBraced(k, v);
    BracedUnchanged(Literal("{{" + k + "}}", v), v);
  }

  /** A placeholder naming no property of an object item is left for the last stage. */
  lemma {:induction false} BindFieldsMissing(entries: Fields, k: string)
    requires WordKeys(entries) && WordKey(k)
    requires forall i :: 0 <= i < |entries| ==> entries[i].0 != k
    ensures BindFields(entries, "{{" + k + "}}") == "{{" + k + "}}"
    decreases |entries|
  {
    if entries != [] {
      ThisOnPlain(entries[0].0, ToStr(entries[0].1), k);
      PlainOnPlain(entries[0].0, ToStr(entries[0].1), k);
      assert forall i :: 0 <= i < |entries[1..]| ==> entries[1..][i] == entries[i + 1];
      BindFieldsMissing(entries[1..], k);
    }
  }

  /** The last stage leaves text without `{` alone. */
  lemma {:induction false} FillScalarsBraceFree(entries: Fields, s: string)
    requires BraceFree(s)
    ensures FillScalars(entries, s) == s
    decreases |entries|
  {
    if entries != [] {
      if IsScalar(entries[0].1) {
        PlainBraceFreeOnAny(entries[0].0, ToStr(entries[0].1), s);
      }
      FillScalarsBraceFree(entries[1..], s);
    }
  }

  lemma PlainBraceFreeOnAny(k: string, v: string, s: string)
    requires BraceFree(s)
    ensures ReplaceAll(Literal("{{" + k + "}}", v), s) == s
  {
    PlaceholderBraced(k, v);
    BracedUnchanged(Literal("{{" + k + "}}", v), s);
  }

  /** A top-level string or number value replaces its placeholder. */
  lemma {:induction false} FillScalarsPlaceholder(entries: Fields, j: nat)
    requires WordKeys(entries) && j < |entries| && IsScalar(entries[j].1)
    requires BraceFree(ToStr(entries[j].1))
    ensures FillScalars(entries, "{{" + entries[j].0 + "}}") == ToStr(entries[j].1)
    decreases j
  {
    var k := entries[j].0;
    if j == 0 {
      PlainOnPlain(k, ToStr(entries[0].1), k);
      FillScalarsBraceFree(entries[1..], ToStr(entries[0].1));
    } else {
      if IsScalar(entries[0].1) {
        PlainOnPlain(entries[0].0, ToStr(entries[0].1), k);
      }
      assert forall i :: 0 <= i < |entries[1..]| ==> entries[1..][i] == entries[i + 1];
      assert entries[1..][j - 1] == entries[j];
      FillScalarsPlaceholder(entries[1..], j - 1);
    }
  }

  /** A placeholder whose key has no string or number value stays verbatim. */
  lemma {:induction false} FillScalarsVerbatim(entries: Fields, k: string)
    requires WordKey(k) && forall i :: 0 <= i < |entries| ==> WordKey(entries[i].0)
    requires forall i :: 0 <= i < |entries| && entries[i].0 == k ==> !IsScalar(entries[i].1)
    ensures FillScalars(entries, "{{" + k + "}}") == "{{" + k + "}}"
    decreases |entries|
  {
    if entries != [] {
      if IsScalar(entries[0].1) {
        PlainOnPlain(entries[0].0, ToStr(entries[0].1), k);
      }
      assert forall i :: 0 <= i < |entries[1..]| ==> entries[1..][i] == entries[i + 1];
      FillScalarsVerbatim(entries[1..], k);
    }
  }

  /** A primitive item replaces `{{this}}` by its text. */
  lemma PrimitiveItemThis(item: Value)
    requires IsPrimitive(item)
    ensures BindItem("{{this}}", item) == ToStr(item)
  {
    LiteralWhole("{{this}}", ToStr(item));
  }

  /** An object item replaces `{{key}}` and `{{this.key}}` for each of its own
      properties `key` by that property's value. */
  lemma ObjectItemField(fields: Fields, k: string)
    requires WordKeys(fields) && BraceFreeValues(fields) && Get(fields, k).Some?
    ensures BindItem("{{" + k + "}}", Obj(fields)) == ToStr(Get(fields, k).value)
    ensures BindItem("{{this." + k + "}}", Obj(fields)) == ToStr(Get(fields, k).value)
  {
    GetAt(fields, k);
    var j :| 0 <= j < |fields| && fields[j] == (k, Get(fields, k).value);
    BindFieldsPlaceholder(fields, j);
  }

  // ---------------------------------------------------------------------------
  // Position markers in one copy of a loop body

  /** No `{{` in `s` is followed by `c`. */
  predicate NoOpen(s: string, c: char) {
    forall i :: 0 <= i && i + 2 < |s| ==> !(s[i] == '{' && s[i + 1] == '{' && s[i + 2] == c)
  }

  lemma {:induction false} NoOpenNoContains(s: string, p: string, c: char)
    requires NoOpen(s, c) && |p| >= 3 && p[0] == '{' && p[1] == '{' && p[2] == c
    ensures !Contains(s, p)
    decreases |s|
  {
    if |p| <= |s| {
      assert s[..|p|][0] == s[0] && s[..|p|][1] == s[1] && s[..|p|][2] == s[2];
    }
    if s != [] {
      assert forall i :: 0 <= i < |s[1..]| ==> s[1..][i] == s[i + 1];
      NoOpenNoContains(s[1..], p, c);
    }
  }

  lemma NoOpenConcat(x: string, y: string, c: char)
    requires NoOpen(x, c) && NoOpen(y, c) && (x == [] || x[|x| - 1] != '{')
    ensures NoOpen(x + y, c)
  {
    var s := x + y;
    forall i | 0 <= i && i + 2 < |s| ensures !(s[i] == '{' && s[i + 1] == '{' && s[i + 2] == c) {
      if i + 2 < |x| {
        assert s[i] == x[i] && s[i + 1] == x[i + 1] && s[i + 2] == x[i + 2];
      } else if i >= |x| {
        assert s[i] == y[i - |x|] && s[i + 1] == y[i + 1 - |x|] && s[i + 2] == y[i + 2 - |x|];
      } else if i == |x| - 1 {
        assert s[i] == x[|x| - 1];
      } else {
        assert s[i + 1] == x[|x| - 1];
      }
    }
  }

  lemma BraceFreeNoOpen(s: string, c: char)
    requires BraceFree(s)
    ensures NoOpen(s, c) && (s == [] || s[|s| - 1] != '{')
  {
  }

  lemma MarkerTagsNoOpen()
    ensures NoOpen("{{#if @first}}", '@') && NoOpen("{{#if @last}}", '@') && NoOpen("{{/if}}", '@')
    ensures NoOpen("{#if @last}}", '#') && NoOpen("{{/if}}", '#')
  {
  }

  /** A position block `tag body {{/if}}` holds no `{{@`. */
  lemma PositionBlockNoAt(tag: string, body: string)
    requires BraceFree(body) && NoOpen(tag, '@') && |tag| > 0 && tag[|tag| - 1] == '}'
    ensures NoOpen(tag + body + "{{/if}}", '@')
  {
    MarkerTagsNoOpen();
    BraceFreeNoOpen(body, '@');
    NoOpenConcat(tag, body, '@');
    if body == [] {
      assert tag + body == tag;
    } else {
      assert (tag + body)[|tag + body| - 1] == body[|body| - 1];
    }
    NoOpenConcat(tag + body, "{{/if}}", '@');
  }

  /** The `{{@index}}` and `{{@number}}` passes leave a position block alone. */
  lemma MarkerPassesSkipBlock(tag: string, body: string, index: nat)
    requires BraceFree(body) && NoOpen(tag, '@') && |tag| > 0 && tag[|tag| - 1] == '}'
    ensures var block := tag + body + "{{/if}}";
      var a := ReplaceAll(Literal("{{@index}}", NatToString(index)), block);
      a == block && ReplaceAll(Literal("{{@number}}", NatToString(index + 1)), a) == block
  {
    var block := tag + body + "{{/if}}";
    PositionBlockNoAt(tag, body);
    NoOpenNoContains(block, "{{@index}}", '@');
    NoOpenNoContains(block, "{{@number}}", '@');
    LiteralAbsent("{{@index}}", NatToString(index), block);
    LiteralAbsent("{{@number}}", NatToString(index + 1), block);
  }

  lemma ScopedIfAtParts(tag: string, keep: bool, s: string, k: nat)
    requires StartsWith(s, tag) && Find(s[|tag|..], "{{/if}}") == Some(k)
    ensures var m := ScopedIfAt(tag, keep, s);
      && m.Some? && m.value.len == |tag| + k + 7
      && m.value.out == if keep then s[|tag|..|tag| + k] else ""
  {
  }

  /** A position block spanning the whole text is replaced by its body when
      `keep` holds and by nothing otherwise. */
  lemma ScopedBlock(tag: string, keep: bool, body: string)
    requires BraceFree(body)
    ensures var block := tag + body + "{{/if}}";
      var m := ScopedIfAt(tag, keep, block);
      && m.Some? && m.value.len == |block| && m.value.out == if keep then body else ""
  {
    var block := tag + body + "{{/if}}";
    Split3(tag, body, "{{/if}}");
    assert block[..|tag|] == tag;
    TagsDoubled();
    BraceFreeNoContains(body, "{{/if}}");
    FindAfter(body, "{{/if}}", "");
    assert body + "{{/if}}" + "" == body + "{{/if}}";
    assert block[|tag|..] == body + "{{/if}}";
    ScopedIfAtParts(tag, keep, block, |body|);
    assert block[|tag|..|tag| + |body|] == body;
  }

  lemma ScopedBlockWhole(tag: string, keep: bool, body: string)
    requires BraceFree(body)
    ensures ReplaceAll(ScopedIf(tag, keep), tag + body + "{{/if}}") == if keep then body else ""
  {
    var block := tag + body + "{{/if}}";
    ScopedBlock(tag, keep, body);
    var out := if keep then body else "";
    assert ScopedIf(tag, keep).at(block) == Some(Hit(|block|, out));
    HitWhole(ScopedIf(tag, keep), block, out);
  }

  /** `{{#if @first}}body{{/if}}` keeps its body in the first copy only. */
  lemma FirstBlock(body: string, index: nat, count: nat)
    requires BraceFree(body)
    ensures PositionMarkers("{{#if @first}}" + body + "{{/if}}", index, count)
         == if index == 0 then body else ""
  {
    var block := "{{#if @first}}" + body + "{{/if}}";
    MarkerTagsNoOpen();
    MarkerPassesSkipBlock("{{#if @first}}", body, index);
    ScopedBlockWhole("{{#if @first}}", index == 0, body);
    var out := if index == 0 then body else "";
    RuleShapes({}, "{{#if @last}}", index + 1 == count);
    BracedUnchanged(ScopedIf("{{#if @last}}", index + 1 == count), out);
  }

  /** A scoped pattern that does not occur is not replaced. */
  lemma ScopedAbsent(tag: string, keep: bool, s: string)
    requires !Contains(s, tag)
    ensures ReplaceAll(ScopedIf(tag, keep), s) == s
  {
    forall i | 0 <= i < |s| ensures MatchAt(ScopedIf(tag, keep), s[i..]).None? {
      if StartsWith(s[i..], tag) {
        ContainsAt(s, tag, i);
      }
    }
    NoMatchUnchanged(ScopedIf(tag, keep), s);
  }

  lemma LastBlockShape(body: string)
    requires BraceFree(body)
    ensures var block := "{{#if @last}}" + body + "{{/if}}";
      && !StartsWith(block, "{{#if @first}}") && !Contains(block[1..], "{{#if @first}}")
  {
    var block := "{{#if @last}}" + body + "{{/if}}";
    assert block[7] == 'l';
    assert block[1..] == "{#if @last}}" + body + "{{/if}}";
    LastBlockTail(body);
    NoOpenNoContains(block[1..], "{{#if @first}}", '#');
  }

  lemma LastBlockTail(body: string)
    requires BraceFree(body)
    ensures NoOpen("{#if @last}}" + body + "{{/if}}", '#')
  {
    MarkerTagsNoOpen();
    BraceFreeNoOpen(body, '#');
    NoOpenConcat("{#if @last}}", body, '#');
    if body == [] {
      assert "{#if @last}}" + body == "{#if @last}}";
    } else {
      assert ("{#if @last}}" + body)[|"{#if @last}}" + body| - 1] == body[|body| - 1];
    }
    NoOpenConcat("{#if @last}}" + body, "{{/if}}", '#');
  }

  /** The `{{#if @first}}` pass leaves an `{{#if @last}}` block alone. */
  lemma FirstPassSkipsLast(keep: bool, body: string)
    requires BraceFree(body)
    ensures ReplaceAll(ScopedIf("{{#if @first}}", keep), "{{#if @last}}" + body + "{{/if}}")
         == "{{#if @last}}" + body + "{{/if}}"
  {
    var block := "{{#if @last}}" + body + "{{/if}}";
    LastBlockShape(body);
    SkipFirst(ScopedIf("{{#if @first}}", keep), block);
    ScopedAbsent("{{#if @first}}", keep, block[1..]);
    assert [block[0]] + block[1..] == block;
  }

  /** Where the rule does not match at the start, the scan copies the first
      character. */
  lemma SkipFirst(r: Rule, s: string)
    requires s != [] && MatchAt(r, s).None?
    ensures ReplaceAll(r, s) == [s[0]] + ReplaceAll(r, s[1..])
  {
  }

  /** `{{#if @last}}body{{/if}}` keeps its body in the last copy only. */
  lemma LastBlock(body: string, index: nat, count: nat)
    requires BraceFree(body)
    ensures PositionMarkers("{{#if @last}}" + body + "{{/if}}", index, count)
         == if index + 1 == count then body else ""
  {
    MarkerTagsNoOpen();
    MarkerPassesSkipBlock("{{#if @last}}", body, index);
    FirstPassSkipsLast(index == 0, body);
    ScopedBlockWhole("{{#if @last}}", index + 1 == count, body);
  }

  /** The copy for the only item of a one-item array keeps both blocks. */
  lemma OneItemKeepsBoth(body: string)
    requires BraceFree(body)
    ensures PositionMarkers("{{#if @first}}" + body + "{{/if}}", 0, 1) == body
    ensures PositionMarkers("{{#if @last}}" + body + "{{/if}}", 0, 1) == body
  {
    FirstBlock(body, 0, 1);
    LastBlock(body, 0, 1);
  }

  // ---------------------------------------------------------------------------
  // Stage 4: loops

  lemma EachAtParts(s: string, n: nat, name: string, b: nat)
    requires OpenTagAt(s, "{{#each") == Some(Tag(n, name)) && Find(s[n..], "{{/each}}") == Some(b)
    ensures var l := EachAt(s);
      l.Some? && l.value.len == n + b + 9 && l.value.name == name && l.value.body == s[n..n + b]
  {
  }

  lemma EachTagPieces(name: string, body: string, rest: string)
    ensures var tagText := "{{#each " + name + "}}";
      var s := tagText + body + "{{/each}}" + rest;
      && s == "{{#each" + " " + name + "}}" + (body + "{{/each}}" + rest)
      && s[|tagText|..] == body + "{{/each}}" + rest && s[|tagText|..|tagText| + |body|] == body
  {
    var tagText := "{{#each " + name + "}}";
    Split4(tagText, body, "{{/each}}", rest);
    assert "{{#each " == "{{#each" + " ";
  }

  lemma EachTagOf(name: string, body: string, rest: string)
    requires WordKey(name)
    ensures var tagText := "{{#each " + name + "}}";
      OpenTagAt(tagText + body + "{{/each}}" + rest, "{{#each") == Some(Tag(|tagText|, name))
  {
    EachTagPieces(name, body, rest);
    OpenTagOfKey("{{#each", name, body + "{{/each}}" + rest);
  }

  lemma EachCloseFound(name: string, body: string, rest: string)
    requires !Contains(body, "{{/each}}")
    ensures var tagText := "{{#each " + name + "}}";
      var s := tagText + body + "{{/each}}" + rest;
      Find(s[|tagText|..], "{{/each}}") == Some(|body|) && s[|tagText|..|tagText| + |body|] == body
  {
    EachTagPieces(name, body, rest);
    TagsDoubled();
    FindAfter(body, "{{/each}}", rest);
  }

  lemma EachSplit(s: string, n: nat, name: string, body: string)
    requires OpenTagAt(s, "{{#each") == Some(Tag(n, name)) && Find(s[n..], "{{/each}}") == Some(|body|)
    requires s[n..n + |body|] == body
    ensures var l := EachAt(s);
      l.Some? && l.value.len == n + |body| + 9 && l.value.name == name && l.value.body == body
  {
    EachAtParts(s, n, name, |body|);
  }

  /** A loop is matched from its tag to the first `{{/each}}` after it. */
  lemma EachMatch(name: string, body: string, rest: string)
    requires WordKey(name) && !Contains(body, "{{/each}}")
    ensures var block := "{{#each " + name + "}}" + body + "{{/each}}";
      var m := EachAt(block + rest);
      m.Some? && m.value.len == |block| && m.value.name == name && m.value.body == body
  {
    var tagText := "{{#each " + name + "}}";
    EachTagOf(name, body, rest);
    EachCloseFound(name, body, rest);
    EachSplit(tagText + body + "{{/each}}" + rest, |tagText|, name, body);
  }

  /** The loop pass copies text without `{` unchanged. */
  lemma {:induction false} EachPassBraceFree(s: string, data: Fields)
    requires BraceFree(s)
    ensures EachPass(s, data) == s
    decreases |s|
  {
    if s != [] {
      assert s[0] != '{';
      assert !StartsWith(s, "{{#") by {
        if |s| >= 3 {
          assert s[..3][0] == s[0];
        }
      }
      EachPassBraceFree(s[1..], data);
      assert [s[0]] + s[1..] == s;
    }
  }

  /** A loop followed by text without `{` becomes its expansion followed by
      that text. */
  lemma EachBlock(data: Fields, name: string, body: string, rest: string)
    requires WordKey(name) && !Contains(body, "{{/each}}") && BraceFree(rest)
    ensures EachPass("{{#each " + name + "}}" + body + "{{/each}}" + rest, data)
         == ExpandEach(name, body, data) + rest
  {
    var block := "{{#each " + name + "}}" + body + "{{/each}}";
    EachMatch(name, body, rest);
    assert (block + rest)[|block|..] == rest;
    EachPassBraceFree(rest, data);
  }

  /** A name that is not an own array property, or an empty array, expands to nothing. */
  lemma ExpandEachEmpty(data: Fields, name: string, body: string)
    requires !(Lookup(data, name).Own? && Lookup(data, name).value.List?)
          || Lookup(data, name) == Own(List([]))
    ensures ExpandEach(name, body, data) == ""
  {
  }

  /** An array expands to one copy of the body per item, in array order, joined
      by newlines: when no copy holds a newline, splitting the expansion at
      newlines gives back exactly the copies. */
  lemma LoopLines(data: Fields, name: string, body: string, items: seq<Value>)
    requires Lookup(data, name) == Own(List(items)) && items != []
    requires forall k :: 0 <= k < |items| ==> !Contains(ItemCopy(body, items[k], k, |items|), "\n")
    ensures var lines := SplitLines(ExpandEach(name, body, data));
      && |lines| == |items|
      && forall k :: 0 <= k < |items| ==> lines[k] == ItemCopy(body, items[k], k, |items|)
  {
    var copies := Copies(body, items);
    CopiesLength(body, items, |items|);
    forall k | 0 <= k < |copies| ensures copies[k] == ItemCopy(body, items[k], k, |items|) {
      CopyAt(body, items, |items|, k);
    }
    SplitJoinLines(copies);
  }

  /** The copies for the first `n` items are `n` strings, and the one at `k`
      is the copy for item `k`. */
  lemma {:induction false} CopyAt(body: string, items: seq<Value>, n: nat, k: nat)
    requires k < n <= |items|
    ensures |CopiesUpTo(body, items, n)| == n
    ensures CopiesUpTo(body, items, n)[k] == CopyOf(body, items, k)
    decreases n
  {
    CopiesLength(body, items, n - 1);
    if k < n - 1 {
      CopyAt(body, items, n - 1, k);
    }
  }

  lemma {:induction false} CopiesLength(body: string, items: seq<Value>, n: nat)
    requires n <= |items|
    ensures |CopiesUpTo(body, items, n)| == n
    decreases n
  {
    if n > 0 {
      CopiesLength(body, items, n - 1);
    }
  }

  /** `{{@index}}` and `{{@number}}` patterns, and field placeholders, never
      touch text that opens with `{{@` and holds no other `{`. */
  lemma {:induction false} BindFieldsAtTag(entries: Fields, s: string)
    requires StartsWith(s, "{{@") && BraceFree(s[2..])
    requires forall i :: 0 <= i < |entries| ==> WordKey(entries[i].0)
    ensures BindFields(entries, s) == s
    decreases |entries|
  {
    if entries != [] {
      var k := entries[0].0;
      var v := ToStr(entries[0].1);
      assert s[..3][2] == '@';
      assert s[..2] == s[..3][..2];
      PlaceholderBraced(k, v);
      assert ("{{this." + k + "}}")[..2] == "{{" && ("{{" + k + "}}")[..2] == "{{";
      assert !StartsWith(s, "{{this." + k + "}}") by {
        assert ("{{this." + k + "}}")[2] == 't';
      }
      assert !StartsWith(s, "{{" + k + "}}") by {
        assert ("{{" + k + "}}")[2] == k[0];
      }
      TagReplaceMiss("{{this." + k + "}}", v, s);
      TagReplaceMiss("{{" + k + "}}", v, s);
      assert forall i :: 0 <= i < |entries[1..]| ==> entries[1..][i] == entries[i + 1];
      BindFieldsAtTag(entries[1..], s);
    }
  }

  /** The own property names of an array are its indices, runs of digits. */
  lemma ListKeysAreWords(v: Value)
    requires v.List?
    ensures forall i :: 0 <= i < |OwnEntries(v)| ==> WordKey(OwnEntries(v)[i].0)
  {
    forall i | 0 <= i < |OwnEntries(v)| ensures WordKey(OwnEntries(v)[i].0) {
      assert OwnEntries(v)[i].0 == NatToString(i);
    }
  }

  /** In the copy for the item at `index`, `{{@index}}` is the index and
      `{{@number}}` the index plus one. */
  lemma IndexMarkers(item: Value, index: nat, count: nat)
    requires item.Obj? ==> forall i :: 0 <= i < |item.fields| ==> WordKey(item.fields[i].0)
    ensures ItemCopy("{{@index}}", item, index, count) == NatToString(index)
    ensures ItemCopy("{{@number}}", item, index, count) == NatToString(index + 1)
  {
    IndexCopy(item, index, count);
    NumberCopy(item, index, count);
  }

  lemma IndexCopy(item: Value, index: nat, count: nat)
    requires item.Obj? ==> forall i :: 0 <= i < |item.fields| ==> WordKey(item.fields[i].0)
    ensures ItemCopy("{{@index}}", item, index, count) == NatToString(index)
  {
    assert "{{@index}}"[2..] == "@index}}";
    MarkersUnbound(item, "{{@index}}");
    IndexMarker(index, count);
  }

  lemma NumberCopy(item: Value, index: nat, count: nat)
    requires item.Obj? ==> forall i :: 0 <= i < |item.fields| ==> WordKey(item.fields[i].0)
    ensures ItemCopy("{{@number}}", item, index, count) == NatToString(index + 1)
  {
    assert "{{@number}}"[2..] == "@number}}";
    MarkersUnbound(item, "{{@number}}");
    NumberMarker(index, count);
  }

  lemma MarkersUnbound(item: Value, s: string)
    requires StartsWith(s, "{{@") && BraceFree(s[2..])
    requires item.Obj? ==> forall i :: 0 <= i < |item.fields| ==> WordKey(item.fields[i].0)
    ensures BindItem(s, item) == s
  {
    if IsPrimitive(item) {
      LiteralBraced("{{this}}", ToStr(item));
      assert s[..3][2] == '@' && s[..2] == s[..3][..2];
      TagReplaceMiss("{{this}}", ToStr(item), s);
    } else {
      if item.List? {
        ListKeysAreWords(item);
      }
      BindFieldsAtTag(OwnEntries(item), s);
    }
  }

  lemma DigitsBraceFree(n: nat)
    ensures BraceFree(NatToString(n))
  {
  }

  lemma IndexMarker(index: nat, count: nat)
    ensures PositionMarkers("{{@index}}", index, count) == NatToString(index)
  {
    var d := NatToString(index);
    LiteralWhole("{{@index}}", d);
    DigitsBraceFree(index);
    LiteralBraced("{{@number}}", NatToString(index + 1));
    BracedUnchanged(Literal("{{@number}}", NatToString(index + 1)), d);
    ScopedPassesKeep(d, index, count);
  }

  lemma NumberMarker(index: nat, count: nat)
    ensures PositionMarkers("{{@number}}", index, count) == NatToString(index + 1)
  {
    var d := NatToString(index + 1);
    IndexPassSkipsNumber(index);
    LiteralWhole("{{@number}}", d);
    DigitsBraceFree(index + 1);
    ScopedPassesKeep(d, index, count);
  }

  lemma IndexPassSkipsNumber(index: nat)
    ensures ReplaceAll(Literal("{{@index}}", NatToString(index)), "{{@number}}") == "{{@number}}"
  {
    LiteralBraced("{{@index}}", NatToString(index));
    assert "{{@number}}"[2..] == "@number}}";
    assert !StartsWith("{{@number}}", "{{@index}}") by {
      assert "{{@number}}"[3] != "{{@index}}"[3];
    }
    TagReplaceMiss("{{@index}}", NatToString(index), "{{@number}}");
  }

  /** The two block passes leave text without `{` alone. */
  lemma ScopedPassesKeep(d: string, index: nat, count: nat)
    requires BraceFree(d)
    ensures ReplaceAll(ScopedIf("{{#if @last}}", index + 1 == count),
      ReplaceAll(ScopedIf("{{#if @first}}", index == 0), d)) == d
  {
    RuleShapes({}, "{{#if @first}}", index == 0);
    RuleShapes({}, "{{#if @last}}", index + 1 == count);
    BracedUnchanged(ScopedIf("{{#if @first}}", index == 0), d);
    BracedUnchanged(ScopedIf("{{#if @last}}", index + 1 == count), d);
  }

  /** A loop over an array of strings and numbers without `{` or newlines,
      with body `{{this}}`, lists the items' texts one per line. */
  lemma LoopOfPrimitives(data: Fields, name: string, items: seq<Value>)
    requires Lookup(data, name) == Own(List(items)) && items != []
    requires forall k :: 0 <= k < |items| ==> IsPrimitive(items[k]) && BraceFree(ToStr(items[k]))
    requires forall k :: 0 <= k < |items| ==> !Contains(ToStr(items[k]), "\n")
    ensures var lines := SplitLines(ExpandEach(name, "{{this}}", data));
      && |lines| == |items| && forall k :: 0 <= k < |items| ==> lines[k] == ToStr(items[k])
  {
    forall k | 0 <= k < |items| ensures ItemCopy("{{this}}", items[k], k, |items|) == ToStr(items[k]) {
      PrimitiveItemThis(items[k]);
      PositionMarkersBraceFree(ToStr(items[k]), k, |items|);
    }
    LoopLines(data, name, "{{this}}", items);
  }

  /** The per-copy passes leave text without `{` alone. */
  lemma PositionMarkersBraceFree(s: string, index: nat, count: nat)
    requires BraceFree(s)
    ensures PositionMarkers(s, index, count) == s
  {
    LiteralBraced("{{@index}}", NatToString(index));
    LiteralBraced("{{@number}}", NatToString(index + 1));
    BracedUnchanged(Literal("{{@index}}", NatToString(index)), s);
    BracedUnchanged(Literal("{{@number}}", NatToString(index + 1)), s);
    RuleShapes({}, "{{#if @first}}", index == 0);
    RuleShapes({}, "{{#if @last}}", index + 1 == count);
    BracedUnchanged(ScopedIf("{{#if @first}}", index == 0), s);
    BracedUnchanged(ScopedIf("{{#if @last}}", index + 1 == count), s);
  }

  // ---------------------------------------------------------------------------
  // The whole engine

  /** A rule that matches only at `{{` and does not match at the start of text
      that opens with `{{` and holds no other `{` leaves that text alone. */
  lemma OnlyAtStart(r: Rule, s: string)
    requires Braced(r) && StartsWith(s, "{{") && BraceFree(s[2..]) && MatchAt(r, s).None?
    ensures ReplaceAll(r, s) == s
  {
    var t := s[1..];
    assert MatchAt(r, t).None? by {
      if |t| >= 2 {
        assert t[1] == s[2..][0];
      }
    }
    assert t[1..] == s[2..];
    assert ReplaceAll(r, t) == [t[0]] + ReplaceAll(r, t[1..]);
    BracedUnchanged(r, t[1..]);
    assert [t[0]] + t[1..] == t;
    assert [s[0]] + t == s;
  }

  /** A replacement that changes nothing is already resolved. */
  lemma ResolveFixed(r: Rule, s: string)
    requires ReplaceAll(r, s) == s
    ensures Resolve(r, s) == s
  {
  }

  lemma {:induction false} BraceFreeNestedIfFree(s: string)
    requires BraceFree(s)
    ensures NestedIfFree(s)
    decreases |s|
  {
    if s != [] {
      if |s| >= 5 {
        assert s[..5][0] == s[0];
      }
      BraceFreeNestedIfFree(s[1..]);
    }
  }

  /** Text without `{` comes out of the engine unchanged. */
  lemma RenderPlain(t: string, data: Fields)
    requires BraceFree(t)
    ensures Render(t, data) == t
  {
    RuleShapes(TrueNames(data), "", false);
    BracedUnchanged(StripComment(), t);
    BracedUnchanged(SimpleIf(TrueNames(data)), t);
    ResolveFixed(SimpleIf(TrueNames(data)), t);
    BracedUnchanged(IfElse(TrueNames(data)), t);
    ResolveFixed(IfElse(TrueNames(data)), t);
    EachPassBraceFree(t, data);
    FillScalarsBraceFree(data, t);
  }

  /** The first four stages pass a bare placeholder `{{key}}` through. */
  lemma PlaceholderPassesStages(k: string, data: Fields)
    requires WordKey(k)
    ensures var s := "{{" + k + "}}";
      EachPass(Resolve(IfElse(TrueNames(data)), Resolve(SimpleIf(TrueNames(data)),
        ReplaceAll(StripComment(), s))), data) == s
  {
    var s := "{{" + k + "}}";
    PlainTagShape(k);
    assert s[2] == k[0] && IsWordChar(k[0]);
    RuleShapes(TrueNames(data), "", false);
    assert MatchAt(StripComment(), s).None? by {
      assert !StartsWith(s, "{{!--") by { assert "{{!--"[2] == '!'; }
    }
    OnlyAtStart(StripComment(), s);
    assert !StartsWith(s, "{{#if") && !StartsWith(s, "{{#each") by {
      assert "{{#if"[2] == '#' && "{{#each"[2] == '#';
    }
    OnlyAtStart(SimpleIf(TrueNames(data)), s);
    ResolveFixed(SimpleIf(TrueNames(data)), s);
    OnlyAtStart(IfElse(TrueNames(data)), s);
    ResolveFixed(IfElse(TrueNames(data)), s);
    PlaceholderSkipsLoops(k, data);
  }

  lemma PlaceholderSkipsLoops(k: string, data: Fields)
    requires WordKey(k)
    ensures EachPass("{{" + k + "}}", data) == "{{" + k + "}}"
  {
    var s := "{{" + k + "}}";
    PlainTagShape(k);
    assert s[2] == k[0] && IsWordChar(k[0]);
    assert !StartsWith(s, "{{#each") by { assert "{{#each"[2] == '#'; }
    assert EachAt(s).None?;
    var t := s[1..];
    assert !StartsWith(t, "{{#") by {
      assert |t| >= 3 && t[..3][1] == t[1] == s[2];
    }
    assert t[1..] == s[2..];
    EachPassBraceFree(t[1..], data);
    assert [t[0]] + t[1..] == t;
    assert [s[0]] + t == s;
  }

  /** `{{key}}` renders as the value of a top-level string or number property `key`. */
  lemma RenderScalar(data: Fields, k: string)
    requires WordKeys(data) && Get(data, k).Some? && IsScalar(Get(data, k).value)
    requires BraceFree(ToStr(Get(data, k).value))
    ensures Render("{{" + k + "}}", data) == ToStr(Get(data, k).value)
  {
    GetAt(data, k);
    var j :| 0 <= j < |data| && data[j] == (k, Get(data, k).value);
    PlaceholderPassesStages(k, data);
    FillScalarsPlaceholder(data, j);
  }

  /** `{{key}}` stays verbatim when `key` has no top-level string or number
      value: a missing key, or one bound to a boolean, null, an array or an object. */
  lemma RenderUnfilled(data: Fields, k: string)
    requires WordKeys(data) && WordKey(k)
    requires Get(data, k).None? || !IsScalar(Get(data, k).value)
    ensures Render("{{" + k + "}}", data) == "{{" + k + "}}"
  {
    forall i | 0 <= i < |data| && data[i].0 == k ensures !IsScalar(data[i].1) {
      GetDistinct(data, i);
    }
    PlaceholderPassesStages(k, data);
    FillScalarsVerbatim(data, k);
  }

  /** A comment contributes nothing: the engine renders the text after it as
      if the comment were not there. */
  lemma RenderSkipsComment(c: string, t: string, data: Fields)
    requires !Contains(c, "--}}")
    ensures Render("{{!--" + c + "--}}" + t, data) == Render(t, data)
  {
    CommentRemoved(c, t);
  }

  predicate LastNotBrace(s: string) {
    s == [] || s[|s| - 1] != '{'
  }

  lemma LastNotBraceConcat(x: string, y: string)
    requires LastNotBrace(x) && LastNotBrace(y)
    ensures LastNotBrace(x + y)
  {
    if y == [] {
      assert x + y == x;
    } else {
      assert (x + y)[|x + y| - 1] == y[|y| - 1];
    }
  }

  /** Text opening with one `{` and holding no other. */
  lemma SingleBraceNoOpen(s: string, c: char)
    requires s != [] && BraceFree(s[1..])
    ensures NoOpen(s, c)
  {
    forall i | 0 <= i && i + 2 < |s| ensures !(s[i] == '{' && s[i + 1] == '{' && s[i + 2] == c) {
      assert s[i + 1] == s[1..][i];
    }
  }

  /** Text opening with `{{`, then a character other than `c`, then no `{`. */
  lemma DoubleBraceNoOpen(s: string, c: char)
    requires |s| > 2 && s[2] != c && BraceFree(s[2..])
    ensures NoOpen(s, c)
  {
    forall i | 0 <= i && i + 2 < |s| ensures !(s[i] == '{' && s[i + 1] == '{' && s[i + 2] == c) {
      if i > 0 {
        assert s[i + 1] == s[2..][i - 1];
      }
    }
  }

  lemma IfTagFacts(k: string)
    requires WordKey(k)
    ensures var tag := "{{#if " + k + "}}";
      && |tag| > 2 && tag[2] == '#' && BraceFree(tag[2..]) && BraceFree(tag[1..][1..])
      && tag[1..] != [] && LastNotBrace(tag)
  {
    var tag := "{{#if " + k + "}}";
    assert tag[2..] == "#if " + k + "}}";
    assert forall i :: 0 <= i < |k| ==> tag[2..][i + 4] == k[i];
    assert tag[1..][1..] == tag[2..];
  }

  lemma CloseTagFacts()
    ensures NoOpen("{{/if}}", '!') && NoOpen("{{/if}}", '#') && LastNotBrace("{{/if}}")
    ensures NoOpen("{{else}}", '!') && NoOpen("{{else}}", '#') && LastNotBrace("{{else}}")
  {
  }

  /** A conditional without `{{else}}` holds no comment opener. */
  lemma SimpleBlockNoComment(k: string, body: string)
    requires WordKey(k) && BraceFree(body)
    ensures !Contains("{{#if " + k + "}}" + body + "{{/if}}", "{{!--")
  {
    var tag := "{{#if " + k + "}}";
    IfTagFacts(k);
    CloseTagFacts();
    DoubleBraceNoOpen(tag, '!');
    BraceFreeNoOpen(body, '!');
    NoOpenConcat(tag, body, '!');
    LastNotBraceConcat(tag, body);
    NoOpenConcat(tag + body, "{{/if}}", '!');
    NoOpenNoContains(tag + body + "{{/if}}", "{{!--", '!');
  }

  /** `{{#if key}}body{{/if}}` renders as `body` when `data[key]` is truthy and
      as nothing otherwise; `''`, `0`, `false`, `null`, `undefined` and a missing
      key are falsy (JsValue.FalsyValues, JsValue.LookupTruthy). */
  lemma RenderIf(data: Fields, k: string, body: string)
    requires WordKey(k) && BraceFree(body)
    ensures Render("{{#if " + k + "}}" + body + "{{/if}}", data) == if Holds(data, k) then body else ""
  {
    var block := "{{#if " + k + "}}" + body + "{{/if}}";
    var out := if Holds(data, k) then body else "";
    SimpleBlockNoComment(k, body);
    CommentFreeUnchanged(block);
    TagsDoubled();
    BraceFreeNoContains(body, "{{/if}}");
    BraceFreeNoContains(body, "{{else}}");
    BraceFreeNestedIfFree(body);
    SimpleIfBlock(data, k, body);
    RuleShapes(TrueNames(data), "", false);
    BracedUnchanged(IfElse(TrueNames(data)), out);
    ResolveFixed(IfElse(TrueNames(data)), out);
    EachPassBraceFree(out, data);
    FillScalarsBraceFree(data, out);
  }

  /** A conditional with `{{else}}` holds no comment opener, and after its
      first character no `{{#`. */
  lemma IfElseBlockShape(k: string, a: string, b: string)
    requires WordKey(k) && BraceFree(a) && BraceFree(b)
    ensures var block := "{{#if " + k + "}}" + a + "{{else}}" + b + "{{/if}}";
      NoOpen(block, '!') && NoOpen(block[1..], '#')
  {
    var tag := "{{#if " + k + "}}";
    IfTagFacts(k);
    CloseTagFacts();
    BraceFreeNoOpen(a, '!');
    BraceFreeNoOpen(b, '!');
    BraceFreeNoOpen(a, '#');
    BraceFreeNoOpen(b, '#');
    DoubleBraceNoOpen(tag, '!');
    SingleBraceNoOpen(tag[1..], '#');
    NoOpenChain(tag, a, b, '!');
    NoOpenChain(tag[1..], a, b, '#');
    assert ("{{#if " + k + "}}" + a + "{{else}}" + b + "{{/if}}")[1..]
        == tag[1..] + a + "{{else}}" + b + "{{/if}}";
  }

  lemma NoOpenChain(x: string, a: string, b: string, c: char)
    requires NoOpen(x, c) && LastNotBrace(x) && BraceFree(a) && BraceFree(b)
    requires NoOpen("{{else}}", c) && NoOpen("{{/if}}", c)
    ensures NoOpen(x + a + "{{else}}" + b + "{{/if}}", c)
  {
    CloseTagFacts();
    BraceFreeNoOpen(a, c);
    BraceFreeNoOpen(b, c);
    NoOpenConcat(x, a, c);
    LastNotBraceConcat(x, a);
    NoOpenConcat(x + a, "{{else}}", c);
    LastNotBraceConcat(x + a, "{{else}}");
    NoOpenConcat(x + a + "{{else}}", b, c);
    LastNotBraceConcat(x + a + "{{else}}", b);
    NoOpenConcat(x + a + "{{else}}" + b, "{{/if}}", c);
  }

  /** The stage for conditionals without `{{else}}` leaves a conditional with
      `{{else}}` as it is. */
  lemma IfElsePassesSimpleStage(truths: set<string>, k: string, a: string, b: string)
    requires WordKey(k) && BraceFree(a) && BraceFree(b)
    ensures var block := "{{#if " + k + "}}" + a + "{{else}}" + b + "{{/if}}";
      Resolve(SimpleIf(truths), block) == block
  {
    var block := "{{#if " + k + "}}" + a + "{{else}}" + b + "{{/if}}";
    var r := SimpleIf(truths);
    TagsDoubled();
    BraceFreeNoContains(a, "{{/if}}");
    BraceFreeNestedIfFree(a);
    IfElseLeftToItsStage(truths, k, a, b + "{{/if}}");
    assert block == "{{#if " + k + "}}" + a + "{{else}}" + (b + "{{/if}}");
    IfElseBlockShape(k, a, b);
    HashFreeNoSimpleIf(truths, block[1..]);
    SkipFirst(r, block);
    assert [block[0]] + block[1..] == block;
    ResolveFixed(r, block);
  }

  /** Without `{{#` the stage for conditionals finds nothing. */
  lemma HashFreeNoSimpleIf(truths: set<string>, t: string)
    requires NoOpen(t, '#')
    ensures ReplaceAll(SimpleIf(truths), t) == t
  {
    forall i | 0 <= i < |t| ensures MatchAt(SimpleIf(truths), t[i..]).None? {
      if StartsWith(t[i..], "{{#if") {
        ContainsAt(t, "{{#if", i);
        NoOpenNoContains(t, "{{#if", '#');
      }
    }
    NoMatchUnchanged(SimpleIf(truths), t);
  }

  /** `{{#if key}}a{{else}}b{{/if}}` renders as `a` when `data[key]` is truthy
      and as `b` otherwise. */
  lemma RenderIfElse(data: Fields, k: string, a: string, b: string)
    requires WordKey(k) && BraceFree(a) && BraceFree(b)
    ensures Render("{{#if " + k + "}}" + a + "{{else}}" + b + "{{/if}}", data)
         == if Holds(data, k) then a else b
  {
    var block := "{{#if " + k + "}}" + a + "{{else}}" + b + "{{/if}}";
    var out := if Holds(data, k) then a else b;
    IfElseBlockShape(k, a, b);
    NoOpenNoContains(block, "{{!--", '!');
    CommentFreeUnchanged(block);
    IfElsePassesSimpleStage(TrueNames(data), k, a, b);
    TagsDoubled();
    BraceFreeNoContains(a, "{{else}}");
    BraceFreeNoContains(b, "{{/if}}");
    BraceFreeNestedIfFree(a);
    BraceFreeNestedIfFree(b);
    IfElseBlock(data, k, a, b);
    EachPassBraceFree(out, data);
    FillScalarsBraceFree(data, out);
  }
}
