/**
 * The few `java.lang.String` and Apache Commons `StringUtils` operations the
 * front controller relies on, over Dafny strings. A Dafny `char` is a Unicode
 * scalar value, not a UTF-16 code unit: a Java string holding surrogate pairs
 * is modelled by its code points, so positions count code points.
 */
module JavaStrings {

  /** `Character.isWhitespace` as of Java 9 (Unicode 8.0 and later): the
      Unicode space, line and paragraph separators except the no-break spaces
      U+00A0, U+2007 and U+202F, plus the control characters U+0009-U+000D and
      U+001C-U+001F. On Java 8 U+180E is whitespace as well; this model does
      not count it. */
  predicate IsWhitespace(c: char) {
    || c == ' '
    || ('\t' <= c <= '\r')
    || ('\U{001C}' <= c <= '\U{001F}')
    || c == '\U{1680}'
    || ('\U{2000}' <= c <= '\U{2006}')
    || ('\U{2008}' <= c <= '\U{200A}')
    || c == '\U{2028}' || c == '\U{2029}'
    || c == '\U{205F}' || c == '\U{3000}'
  }

  /** `StringUtils.isBlank` on a non-null string: empty or whitespace only. */
  predicate IsBlank(s: string): (r: bool)
    ensures r <==> forall c :: c in s ==> IsWhitespace(c)
    ensures s == "" ==> r
  {
    forall i :: 0 <= i < |s| ==> IsWhitespace(s[i])
  }

  /** A concatenation is blank exactly when both parts are. */
  lemma BlankConcat(s: string, t: string)
    ensures IsBlank(s + t) <==> IsBlank(s) && IsBlank(t)
  {
  }

  /** `s.indexOf(c)`: the first position of `c` in `s`, or -1. It also models
      `s.indexOf(p)` for a one-character string `p == [c]`, such as the
      `indexOf(".")` of `view`; `IndexOfAgreesWithFind` shows the two agree. */
  function IndexOf(s: string, c: char): (i: int)
    ensures -1 <= i < |s|
    ensures i == -1 <==> c !in s
    ensures 0 <= i ==> s[i] == c && c !in s[..i]
  {
    if |s| == 0 then -1
    else if s[0] == c then 0
    else
      var k := IndexOf(s[1..], c);
      assert k >= 0 ==> s[..k + 1] == [s[0]] + s[1..][..k];
      if k == -1 then -1 else k + 1
  }

  /** `p` occurs in `s` starting at position `i`. */
  predicate OccursAt(s: string, p: string, i: int) {
    0 <= i && i + |p| <= |s| && s[i..i + |p|] == p
  }

  lemma OccursAtTail(s: string, p: string)
    requires |s| > 0
    ensures forall j :: 1 <= j ==> (OccursAt(s, p, j) <==> OccursAt(s[1..], p, j - 1))
  {
  }

  /** `s.indexOf(p)`: the first position at which `p` occurs in `s`, or -1. */
  function Find(s: string, p: string): (i: int)
    ensures -1 <= i <= |s|
    ensures 0 <= i ==> OccursAt(s, p, i)
    ensures forall j :: OccursAt(s, p, j) ==> 0 <= i <= j
  {
    if |s| < |p| then -1
    else if s[..|p|] == p then 0
    else
      var k := Find(s[1..], p);
      OccursAtTail(s, p);
      assert !OccursAt(s, p, 0) by { assert s[0..|p|] == s[..|p|]; }
      if k == -1 then -1 else k + 1
  }

  /** Searching for a character is searching for the one-character string. */
  lemma IndexOfAgreesWithFind(s: string, c: char)
    ensures IndexOf(s, c) == Find(s, [c])
  {
  }
}
