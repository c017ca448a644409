/** Strings as the two components see them: the `trim()` test that guards
    every send. JavaScript's `String.prototype.trim` removes leading and
    trailing code points of the WhiteSpace and LineTerminator productions
    of the ECMAScript language specification; a draft is refused exactly
    when nothing is left after trimming. */
module Text {

  /** WhiteSpace (TAB, VT, FF, SP, NBSP, ZWNBSP and the Space_Separator
      category) and LineTerminator (LF, CR, LS, PS) code points. */
  predicate IsWhitespace(c: char) {
    || c == '\t' || c == '\n' || c == '\U{000B}' || c == '\U{000C}' || c == '\r'
    || c == ' ' || c == '\U{00A0}' || c == '\U{1680}'
    || ('\U{2000}' <= c <= '\U{200A}')
    || c == '\U{2028}' || c == '\U{2029}' || c == '\U{202F}' || c == '\U{205F}'
    || c == '\U{3000}' || c == '\U{FEFF}'
  }

  /** Every character is whitespace (the empty string included). */
  predicate IsBlank(s: string) {
    forall i :: 0 <= i < |s| ==> IsWhitespace(s[i])
  }

  /** Length of the longest all-whitespace prefix of `s`. */
  function LeadingBlank(s: string): (k: nat)
    ensures k <= |s|
    ensures IsBlank(s[..k])
    ensures k < |s| ==> !IsWhitespace(s[k])
  {
    if |s| == 0 || !IsWhitespace(s[0]) then 0
    else
      var k := 1 + LeadingBlank(s[1..]);
      assert s[..k] == [s[0]] + s[1..][..k - 1];
      k
  }

  /** Length of the longest all-whitespace suffix of `s`. */
  function TrailingBlank(s: string): (k: nat)
    ensures k <= |s|
    ensures IsBlank(s[|s| - k..])
    ensures k < |s| ==> !IsWhitespace(s[|s| - k - 1])
  {
    if |s| == 0 || !IsWhitespace(s[|s| - 1]) then 0
    else
      var init := s[..|s| - 1];
      var k := 1 + TrailingBlank(init);
      assert s[|s| - k..] == init[|init| - (k - 1)..] + [s[|s| - 1]];
      k
  }

  /** `String.prototype.trim`: `s` without its leading and trailing
      whitespace. The result sits in `s` right after the leading
      whitespace, only whitespace follows it, it neither starts nor ends
      with whitespace, and it is empty exactly when `s` is blank. */
  function Trim(s: string): (r: string)
    ensures |r| <= |s|
    ensures LeadingBlank(s) + |r| <= |s|
    ensures r == s[LeadingBlank(s)..LeadingBlank(s) + |r|]
    ensures IsBlank(s[LeadingBlank(s) + |r|..])
    ensures r != [] ==> !IsWhitespace(r[0]) && !IsWhitespace(r[|r| - 1])
    ensures r == [] <==> IsBlank(s)
  {
    var lo := LeadingBlank(s);
    var rest := s[lo..];
    var t := TrailingBlank(rest);
    var r := rest[..|rest| - t];
    assert s[lo + |r|..] == rest[|rest| - t..];
    if r == [] then
      assert rest[|rest| - t..] == rest;
      BlankConcat(s[..lo], rest);
      assert s[..lo] + rest == s;
      r
    else
      assert r[0] == s[lo];
      assert r[|r| - 1] == rest[|rest| - t - 1];
      r
  }

  /** Two blank strings joined are blank. */
  lemma BlankConcat(a: string, b: string)
    requires IsBlank(a) && IsBlank(b)
    ensures IsBlank(a + b)
  {
  }

  /** Trimming twice removes nothing more. */
  lemma TrimIdempotent(s: string)
    ensures Trim(Trim(s)) == Trim(s)
  {
    var r := Trim(s);
    if r != [] {
      assert LeadingBlank(r) == 0;
      assert TrailingBlank(r) == 0;
    }
  }
}
