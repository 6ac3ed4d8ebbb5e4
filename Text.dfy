/**
 * The three string operations the request normaliser relies on: Python's
 * `str.lower()`, `str.strip()` with no argument, and the substring test
 * `needle in hay`. Strings are sequences of Unicode code points.
 */
module Text {

  /** The characters for which Python's `str.isspace()` holds; `strip()` removes these. */
  predicate IsSpace(c: char) {
    || c == ' '
    || ('\t' <= c <= '\r')
    || ('\U{1C}' <= c <= '\U{1F}')
    || c == '\U{85}' || c == '\U{A0}' || c == '\U{1680}'
    || ('\U{2000}' <= c <= '\U{200A}')
    || c == '\U{2028}' || c == '\U{2029}' || c == '\U{202F}' || c == '\U{205F}' || c == '\U{3000}'
  }

  /** LATIN CAPITAL LETTER I WITH DOT ABOVE: the one code point whose lower case is two code points. */
  const DottedCapitalI: char := '\U{130}'

  /** KELVIN SIGN, which lower-cases to the ASCII letter k. */
  const KelvinSign: char := '\U{212A}'

  /** Lower case of a single code point, for every code point except DottedCapitalI. */
  function LowerChar(c: char): (d: char)
    ensures !('A' <= d <= 'Z') && d != KelvinSign
    ensures d != c <==> ('A' <= c <= 'Z' || c == KelvinSign)
  {
    if 'A' <= c <= 'Z' then (c as int + 32) as char
    else if c == KelvinSign then 'k'
    else c
  }

  /** No code point of `s` is changed by lower-casing. */
  predicate IsLower(s: string) {
    forall i :: 0 <= i < |s| ==> s[i] != DottedCapitalI && LowerChar(s[i]) == s[i]
  }

  /** `s.lower()`, restricted to the case mappings that reach ASCII (see README). */
  function Lower(s: string): (r: string)
    ensures IsLower(r)
    ensures |s| <= |r|
    ensures DottedCapitalI !in s ==> |r| == |s| && forall i :: 0 <= i < |s| ==> r[i] == LowerChar(s[i])
    decreases |s|
  {
    if s == [] then []
    else
      var rest := Lower(s[1..]);
      assert DottedCapitalI !in s ==> DottedCapitalI !in s[1..];
      (if s[0] == DottedCapitalI then "i\U{307}" else [LowerChar(s[0])]) + rest
  }

  /** Lower-casing leaves an already lower-case string unchanged. */
  lemma {:induction false} LowerOfLower(s: string)
    requires IsLower(s)
    ensures Lower(s) == s
    decreases |s|
  {
    if s != [] {
      LowerOfLower(s[1..]);
    }
  }

  /** Number of whitespace code points at the start of `s`. */
  function LeadingSpaces(s: string): (k: nat)
    ensures k <= |s|
    ensures forall i :: 0 <= i < k ==> IsSpace(s[i])
    ensures k == |s| || !IsSpace(s[k])
    decreases |s|
  {
    if s == [] || !IsSpace(s[0]) then 0 else 1 + LeadingSpaces(s[1..])
  }

  /** Number of whitespace code points at the end of `s`. */
  function TrailingSpaces(s: string): (k: nat)
    ensures k <= |s|
    ensures forall i :: |s| - k <= i < |s| ==> IsSpace(s[i])
    ensures k == |s| || !IsSpace(s[|s| - 1 - k])
    decreases |s|
  {
    if s == [] || !IsSpace(s[|s| - 1]) then 0 else 1 + TrailingSpaces(s[..|s| - 1])
  }

  /** Neither end of `s` is whitespace. */
  predicate IsStripped(s: string) {
    s == [] || (!IsSpace(s[0]) && !IsSpace(s[|s| - 1]))
  }

  /** `s.strip()`: `s` without its leading and trailing whitespace. */
  function Strip(s: string): (r: string)
    ensures IsStripped(r)
    ensures |r| <= |s|
    ensures r == [] <==> forall i :: 0 <= i < |s| ==> IsSpace(s[i])
    ensures IsLower(s) ==> IsLower(r)
    ensures exists a, b :: 0 <= a <= b <= |s| && r == s[a..b] &&
              (forall i :: 0 <= i < a ==> IsSpace(s[i])) && (forall i :: b <= i < |s| ==> IsSpace(s[i]))
  {
    var a := LeadingSpaces(s);
    var t := s[a..];
    var b := a + (|t| - TrailingSpaces(t));
    var r := t[..|t| - TrailingSpaces(t)];
    assert r != [] ==> r[0] == s[a];
    assert forall i :: 0 <= i < |r| ==> r[i] == s[a + i];
    assert r == s[a..b];
    assert forall i :: b <= i < |s| ==> IsSpace(s[i]) by {
      forall i | b <= i < |s| ensures IsSpace(s[i]) {
        assert s[i] == t[i - a];
      }
    }
    r
  }

  /** Stripping leaves a string without surrounding whitespace unchanged. */
  lemma StripOfStripped(s: string)
    requires IsStripped(s)
    ensures Strip(s) == s
  {
  }

  /** `needle` occurs in `hay` starting at position `i`. */
  predicate OccursAt(hay: string, needle: string, i: int) {
    0 <= i && i + |needle| <= |hay| && hay[i..i + |needle|] == needle
  }

  /** Python's `needle in hay` for two strings. */
  function Contains(hay: string, needle: string): (b: bool)
    ensures b <==> exists i :: OccursAt(hay, needle, i)
    decreases |hay|
  {
    if |hay| < |needle| then false
    else if hay[..|needle|] == needle then (assert OccursAt(hay, needle, 0); true)
    else
      var b := Contains(hay[1..], needle);
      assert forall i :: OccursAt(hay[1..], needle, i) ==> OccursAt(hay, needle, i + 1) by {
        forall i | OccursAt(hay[1..], needle, i) ensures OccursAt(hay, needle, i + 1) {
          assert hay[1..][i..i + |needle|] == hay[i + 1..i + 1 + |needle|];
        }
      }
      assert forall i :: OccursAt(hay, needle, i) ==> i == 0 || OccursAt(hay[1..], needle, i - 1) by {
        forall i | OccursAt(hay, needle, i) && i != 0 ensures OccursAt(hay[1..], needle, i - 1) {
          assert hay[1..][i - 1..i - 1 + |needle|] == hay[i..i + |needle|];
        }
      }
      b
  }
}
