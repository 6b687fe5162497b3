/** The string operations the program uses: `str::trim` and `str::contains`. */
module Text {

  /** The Unicode White_Space property, which `str::trim` strips. */
  predicate IsWhitespace(c: char) {
    ('\t' <= c <= '\r') || c == ' ' || c == '\U{85}' || c == '\U{A0}' || c == '\U{1680}'
    || ('\U{2000}' <= c <= '\U{200A}') || c == '\U{2028}' || c == '\U{2029}'
    || c == '\U{202F}' || c == '\U{205F}' || c == '\U{3000}'
  }

  predicate AllWhitespace(s: string) {
    forall k :: 0 <= k < |s| ==> IsWhitespace(s[k])
  }

  /** The length of the whitespace run that starts `s`. */
  function LeadingWhitespace(s: string): (n: nat)
    ensures n <= |s|
    ensures AllWhitespace(s[..n])
    ensures n < |s| ==> !IsWhitespace(s[n])
  {
    if s != [] && IsWhitespace(s[0]) then
      var m := LeadingWhitespace(s[1..]);
      assert s[..m + 1] == [s[0]] + s[1..][..m];
      m + 1
    else 0
  }

  /** The length of the whitespace run that ends `s`. */
  function TrailingWhitespace(s: string): (n: nat)
    ensures n <= |s|
    ensures AllWhitespace(s[|s| - n..])
    ensures n < |s| ==> !IsWhitespace(s[|s| - n - 1])
  {
    WhitespaceBefore(s, |s|)
  }

  /** The length of the whitespace run that ends just before index `end` of `s`. */
  function WhitespaceBefore(s: string, end: nat): (n: nat)
    requires end <= |s|
    ensures n <= end
    ensures forall k :: end - n <= k < end ==> IsWhitespace(s[k])
    ensures n < end ==> !IsWhitespace(s[end - n - 1])
  {
    if end > 0 && IsWhitespace(s[end - 1]) then WhitespaceBefore(s, end - 1) + 1 else 0
  }

  /** `str::trim`: `s` without its leading and trailing whitespace. */
  function Trim(s: string): (r: string)
    ensures |r| <= |s|
    ensures AllWhitespace(s) ==> r == []
  {
    var t := s[LeadingWhitespace(s)..];
    t[..|t| - TrailingWhitespace(t)]
  }

  /**
   * What `trim` promises: the result is a contiguous part of `s`, everything
   * cut off on either side is whitespace, and the result neither starts nor
   * ends with whitespace.
   */
  lemma TrimCharacterization(s: string)
    ensures var r := Trim(s);
      && (r == [] || (!IsWhitespace(r[0]) && !IsWhitespace(r[|r| - 1])))
      && exists i, j :: 0 <= i <= j <= |s| && r == s[i..j] && AllWhitespace(s[..i]) && AllWhitespace(s[j..])
  {
    var i := LeadingWhitespace(s);
    var t := s[i..];
    var n := TrailingWhitespace(t);
    var j := |s| - n;
    var r := Trim(s);
    assert r == t[..|t| - n] == s[i..j];
    assert AllWhitespace(s[..i]);
    assert t[|t| - n..] == s[j..];
    assert AllWhitespace(s[j..]);
    if r != [] {
      assert r[0] == s[i];
      assert r[|r| - 1] == t[|t| - n - 1];
    }
    assert 0 <= i <= j <= |s| && r == s[i..j] && AllWhitespace(s[..i]) && AllWhitespace(s[j..]);
  }

  /** Trimming twice is trimming once. */
  lemma TrimIdempotent(s: string)
    ensures Trim(Trim(s)) == Trim(s)
  {
    var r := Trim(s);
    TrimCharacterization(s);
    if r != [] {
      assert LeadingWhitespace(r) == 0;
      assert TrailingWhitespace(r) == 0;
    }
  }

  /** `haystack.contains(needle)`: `needle` occurs as a contiguous substring. */
  predicate Contains(haystack: string, needle: string)
    ensures Contains(haystack, needle) ==> |needle| <= |haystack|
  {
    exists i :: 0 <= i <= |haystack| - |needle| && needle <= haystack[i..]
  }

  lemma ContainsEmpty(haystack: string)
    ensures Contains(haystack, "")
  {
    assert "" <= haystack[0..];
  }

  lemma ContainsSelf(s: string)
    ensures Contains(s, s)
  {
    assert s <= s[0..];
  }
}
