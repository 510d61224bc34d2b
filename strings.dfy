/** The JavaScript string operations the client relies on:
    `startsWith`, `padStart` with a one-character filler, and `trim`. */
module Strings {

  predicate StartsWith(s: string, prefix: string) {
    |prefix| <= |s| && s[..|prefix|] == prefix
  }

  /** A code point above U+FFFF is a surrogate pair in UTF-16. */
  predicate IsAstral(c: char) {
    c as int > 0xFFFF
  }

  /** `s.length`: the number of UTF-16 code units, which counts every
      code point above U+FFFF twice. */
  function Utf16Length(s: string): (n: nat)
    ensures |s| <= n <= 2 * |s|
  {
    if s == [] then 0 else (if IsAstral(s[0]) then 2 else 1) + Utf16Length(s[1..])
  }

  /** Without astral code points, `length` is the number of code points. */
  lemma {:induction false} Utf16LengthBmp(s: string)
    requires forall i :: 0 <= i < |s| ==> !IsAstral(s[i])
    ensures Utf16Length(s) == |s|
  {
    if s != [] {
      assert forall i :: 0 <= i < |s[1..]| ==> s[1..][i] == s[i + 1];
      Utf16LengthBmp(s[1..]);
    }
  }

  /** Each astral code point adds one unit beyond the code-point count. */
  lemma {:induction false} Utf16LengthAstral(s: string)
    requires forall i :: 0 <= i < |s| ==> IsAstral(s[i])
    ensures Utf16Length(s) == 2 * |s|
  {
    if s != [] {
      assert forall i :: 0 <= i < |s[1..]| ==> s[1..][i] == s[i + 1];
      Utf16LengthAstral(s[1..]);
    }
  }

  /** `length` adds up over concatenation. */
  lemma {:induction false} Utf16LengthConcat(a: string, b: string)
    ensures Utf16Length(a + b) == Utf16Length(a) + Utf16Length(b)
  {
    if a != [] {
      assert (a + b)[0] == a[0] && (a + b)[1..] == a[1..] + b;
      Utf16LengthConcat(a[1..], b);
    } else {
      assert a + b == b;
    }
  }

  /** `s.padStart(width, [fill])`: `fill` repeated in front of `s` until the
      result is `width` long; a string already that long is returned as is. */
  function PadStart(s: string, width: nat, fill: char): (r: string)
    ensures |s| >= width ==> r == s
    ensures |s| < width ==> |r| == width
    ensures |r| >= |s| && r[|r| - |s|..] == s
    ensures forall i :: 0 <= i < |r| - |s| ==> r[i] == fill
  {
    if |s| >= width then s else seq(width - |s|, _ => fill) + s
  }

  /** The characters `String.prototype.trim` removes: the ECMAScript
      WhiteSpace and LineTerminator code points. */
  predicate IsWhitespace(c: char) {
    || ('\U{0009}' <= c <= '\U{000D}')
    || c == ' ' || c == '\U{00A0}' || c == '\U{1680}'
    || ('\U{2000}' <= c <= '\U{200A}')
    || c == '\U{2028}' || c == '\U{2029}' || c == '\U{202F}' || c == '\U{205F}'
    || c == '\U{3000}' || c == '\U{FEFF}'
  }

  predicate AllWhitespace(s: string) {
    forall i :: 0 <= i < |s| ==> IsWhitespace(s[i])
  }

  function TrimStart(s: string): (r: string)
    ensures |r| <= |s| && r == s[|s| - |r|..]
    ensures AllWhitespace(s[..|s| - |r|])
    ensures r == [] || !IsWhitespace(r[0])
  {
    if |s| > 0 && IsWhitespace(s[0]) then TrimStart(s[1..]) else s
  }

  function TrimEnd(s: string): (r: string)
    ensures |r| <= |s| && r == s[..|r|]
    ensures AllWhitespace(s[|r|..])
    ensures r == [] || !IsWhitespace(r[|r| - 1])
  {
    if |s| > 0 && IsWhitespace(s[|s| - 1]) then TrimEnd(s[..|s| - 1]) else s
  }

  /** `s.trim()`: the result neither starts nor ends with whitespace. */
  function Trim(s: string): (r: string)
    ensures r == [] || (!IsWhitespace(r[0]) && !IsWhitespace(r[|r| - 1]))
  {
    TrimEnd(TrimStart(s))
  }

  lemma {:induction false} TrimStartAllWhitespace(s: string)
    requires AllWhitespace(s)
    ensures TrimStart(s) == []
  {
    if |s| > 0 {
      TrimStartAllWhitespace(s[1..]);
    }
  }

  /** A string trims to `""` exactly when it is empty or all whitespace. */
  lemma TrimEmptyIffAllWhitespace(s: string)
    ensures Trim(s) == "" <==> AllWhitespace(s)
  {
    var t := TrimStart(s);
    if AllWhitespace(s) {
      TrimStartAllWhitespace(s);
    }
    if Trim(s) == [] {
      // What TrimEnd left of t is empty, so t is all whitespace; a
      // non-empty t would start with a non-whitespace character.
      assert t[|TrimEnd(t)|..] == t;
      assert t == [];
      assert s[..|s|] == s;
    }
  }

  /** Position of the first `c` in `s`, or `|s|` when there is none. */
  function IndexOf(s: string, c: char): (k: nat)
    ensures k <= |s|
  {
    if |s| == 0 || s[0] == c then 0 else 1 + IndexOf(s[1..], c)
  }

  /** In `x + [c] + u` with no `c` in `x`, the first `c` is the one after `x`. */
  lemma {:induction false} IndexOfAfter(x: string, c: char, u: string)
    requires c !in x
    ensures IndexOf(x + [c] + u, c) == |x|
  {
    if |x| > 0 {
      assert (x + [c] + u)[1..] == x[1..] + [c] + u;
      assert x[0] in x;
      IndexOfAfter(x[1..], c, u);
    }
  }

  /** Splitting at the first `c` recovers both halves. */
  lemma SplitAtFirst(x: string, u: string, y: string, v: string, c: char)
    requires c !in x && c !in y
    requires x + [c] + u == y + [c] + v
    ensures x == y && u == v
  {
    IndexOfAfter(x, c, u);
    IndexOfAfter(y, c, v);
    var w := x + [c] + u;
    assert x == w[..|x|] && y == w[..|y|];
    assert u == w[|x| + 1..] && v == w[|y| + 1..];
  }
}
