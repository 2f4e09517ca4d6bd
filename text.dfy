/** Plain string helpers shared by the template engine and the page scripts:
    prefix tests, substring search (String.prototype.indexOf), decimal
    rendering of numbers and joining with a separator (Array.prototype.join). */
module Text {

  datatype Option<+T> = None | Some(value: T)

  predicate StartsWith(s: string, p: string) {
    |p| <= |s| && s[..|p|] == p
  }

  /** `p` occurs somewhere in `s`. */
  predicate Contains(s: string, p: string)
    decreases |s|
  {
    StartsWith(s, p) || (s != [] && Contains(s[1..], p))
  }

  /** The index of the first occurrence of `p` in `s`, as indexOf finds it
      (FindFirst shows that no earlier position holds `p`). */
  function Find(s: string, p: string): (r: Option<nat>)
    decreases |s|
    ensures r.Some? ==> r.value + |p| <= |s| && StartsWith(s[r.value..], p)
  {
    if StartsWith(s, p) then Some(0)
    else if s == [] then None
    else
      match Find(s[1..], p)
      case Some(k) =>
        assert s[1..][k..] == s[k + 1..];
        Some(k + 1)
      case None => None
  }

  /** Find reports an occurrence exactly when there is one. */
  lemma {:induction false} FindContains(s: string, p: string)
    ensures Find(s, p).Some? <==> Contains(s, p)
    decreases |s|
  {
    if !StartsWith(s, p) && s != [] {
      FindContains(s[1..], p);
    }
  }

  /** No position before the one Find reports holds an occurrence. */
  lemma {:induction false} FindFirst(s: string, p: string, j: nat)
    requires Find(s, p).Some? && j < Find(s, p).value
    ensures !StartsWith(s[j..], p)
    decreases |s|
  {
    if j > 0 {
      assert s[1..][j - 1..] == s[j..];
      FindFirst(s[1..], p, j - 1);
    } else {
      assert s[0..] == s;
    }
  }

  /** An occurrence at any position makes `p` contained. */
  lemma {:induction false} ContainsAt(s: string, p: string, i: nat)
    requires i <= |s| && StartsWith(s[i..], p)
    ensures Contains(s, p)
    decreases i
  {
    if i > 0 {
      assert s[1..][i - 1..] == s[i..];
      ContainsAt(s[1..], p, i - 1);
    }
  }

  /** A tag like `{{/if}}` or `--}}`: its first character is doubled and never
      appears again, so no proper prefix of it is also a suffix of it. */
  predicate DoubledTag(p: string) {
    |p| >= 3 && p[0] == p[1] && forall i :: 2 <= i < |p| ==> p[i] != p[0]
  }

  /** A doubled tag cannot start inside a text that does not contain it and
      run on into a following doubled tag with the same first character. */
  lemma NoStraddle(x: string, p: string, q: string, y: string)
    requires DoubledTag(p) && DoubledTag(q) && q[0] == p[0]
    requires x != [] && !Contains(x, p)
    ensures !StartsWith(x + q + y, p)
  {
    var t := x + q + y;
    if |x| >= |p| {
      assert t[..|p|] == x[..|p|];
    } else if |x| == 1 {
      assert t[2] == q[1] && t[2] != p[2];
    } else {
      assert t[|x|] == q[0] && t[|x|] != p[|x|];
    }
  }

  /** The first occurrence of a doubled tag in `x + p + y` is the one after
      `x` whenever `x` does not contain it. */
  lemma {:induction false} FindAfter(x: string, p: string, y: string)
    requires DoubledTag(p) && !Contains(x, p)
    ensures Find(x + p + y, p) == Some(|x|)
    decreases |x|
  {
    if x == [] {
      assert x + p + y == p + y;
      assert (p + y)[..|p|] == p;
    } else {
      NoStraddle(x, p, p, y);
      assert (x + p + y)[1..] == x[1..] + p + y;
      FindAfter(x[1..], p, y);
    }
  }

  /** The regular-expression class `\w`: ASCII letters, digits and the underscore. */
  predicate IsWordChar(c: char) {
    ('a' <= c <= 'z') || ('A' <= c <= 'Z') || ('0' <= c <= '9') || c == '_'
  }

  /** The regular-expression class `\s` of ECMAScript: white space and line terminators. */
  predicate IsSpace(c: char) {
    c == '\t' || c == '\n' || c == '\U{B}' || c == '\U{C}' || c == '\r' || c == ' '
    || c == '\U{A0}' || c == '\U{1680}' || ('\U{2000}' <= c <= '\U{200A}') || c == '\U{2028}'
    || c == '\U{2029}' || c == '\U{202F}' || c == '\U{205F}' || c == '\U{3000}' || c == '\U{FEFF}'
  }

  /** A non-empty run of `\w` characters, the only keys the engine's patterns accept. */
  predicate WordKey(k: string) {
    |k| > 0 && forall i :: 0 <= i < |k| ==> IsWordChar(k[i])
  }

  /** The decimal digits of a natural number, as Number.prototype.toString gives them. */
  function NatToString(n: nat): (s: string)
    ensures |s| > 0
    ensures forall i :: 0 <= i < |s| ==> '0' <= s[i] <= '9'
    decreases n
  {
    if n < 10 then [Digit(n)] else NatToString(n / 10) + [Digit(n % 10)]
  }

  function Digit(d: nat): (c: char)
    requires d < 10
    ensures '0' <= c <= '9'
  {
    ['0', '1', '2', '3', '4', '5', '6', '7', '8', '9'][d]
  }

  /** String(i) for an integer number. */
  function IntToString(i: int): string {
    if i < 0 then "-" + NatToString(-i) else NatToString(i)
  }

  /** The value a digit string denotes. */
  function DigitsValue(s: string): nat
    requires forall i :: 0 <= i < |s| ==> '0' <= s[i] <= '9'
    decreases |s|
  {
    if s == [] then 0 else 10 * DigitsValue(s[..|s| - 1]) + ((s[|s| - 1] as int) - ('0' as int))
  }

  /** Reading the digits back gives the number: the decimal rendering loses nothing. */
  lemma {:induction false} NatToStringRoundTrip(n: nat)
    ensures DigitsValue(NatToString(n)) == n
    decreases n
  {
    var s := NatToString(n);
    if n >= 10 {
      NatToStringRoundTrip(n / 10);
      assert s[..|s| - 1] == NatToString(n / 10);
    }
  }

  /** `parts` joined with `sep` between neighbours; no parts give the empty string. */
  function Join(sep: string, parts: seq<string>): (r: string)
    decreases |parts|
  {
    if |parts| == 0 then ""
    else if |parts| == 1 then parts[0]
    else Join(sep, parts[..|parts| - 1]) + sep + parts[|parts| - 1]
  }

  /** Joining two non-empty lists of parts is joining their two joins. */
  lemma {:induction false} JoinAppend(sep: string, xs: seq<string>, ys: seq<string>)
    requires |xs| > 0 && |ys| > 0
    ensures Join(sep, xs + ys) == Join(sep, xs) + sep + Join(sep, ys)
    decreases |ys|
  {
    if |ys| == 1 {
      assert (xs + ys)[..|xs + ys| - 1] == xs;
    } else {
      var ys' := ys[..|ys| - 1];
      assert (xs + ys)[..|xs + ys| - 1] == xs + ys';
      JoinAppend(sep, xs, ys');
    }
  }

  /** The lines of `s`: the pieces between newline characters. */
  function SplitLines(s: string): (lines: seq<string>)
    ensures |lines| > 0
    decreases |s|
  {
    match Find(s, "\n")
    case None => [s]
    case Some(i) => [s[..i]] + SplitLines(s[i + 1..])
  }

  /** Joining lines that hold no newline with newlines and splitting the result
      gives the lines back, in their order. */
  lemma {:induction false} SplitJoinLines(lines: seq<string>)
    requires |lines| > 0
    requires forall k :: 0 <= k < |lines| ==> !Contains(lines[k], "\n")
    ensures SplitLines(Join("\n", lines)) == lines
    decreases |lines|
  {
    if |lines| == 1 {
      FindContains(lines[0], "\n");
    } else {
      var rest := lines[1..];
      assert lines == [lines[0]] + rest;
      JoinAppend("\n", [lines[0]], rest);
      var j := Join("\n", rest);
      assert Join("\n", lines) == lines[0] + "\n" + j;
      FindNewline(lines[0], j);
      assert (lines[0] + "\n" + j)[..|lines[0]|] == lines[0];
      assert (lines[0] + "\n" + j)[|lines[0]| + 1..] == j;
      SplitJoinLines(rest);
    }
  }

  lemma {:induction false} FindNewline(x: string, y: string)
    requires !Contains(x, "\n")
    ensures Find(x + "\n" + y, "\n") == Some(|x|)
    decreases |x|
  {
    if x == [] {
      assert x + "\n" + y == "\n" + y;
      assert StartsWith("\n" + y, "\n");
    } else {
      assert !StartsWith(x, "\n");
      assert (x + "\n" + y)[..1] == x[..1];
      assert (x + "\n" + y)[1..] == x[1..] + "\n" + y;
      FindNewline(x[1..], y);
    }
  }
}
