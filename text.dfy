/**
 * The few `kotlin.text` operations the core uses, on strings as sequences
 * of characters.
 */
module Text {

  /** `s.startsWith(p)`. */
  predicate StartsWith(s: string, p: string): (b: bool)
    ensures b <==> |p| <= |s| && s[..|p|] == p
  {
    p <= s
  }

  /** `s.take(n)`: the prefix of `s` of length min(n, |s|). */
  function Take(s: string, n: nat): (r: string)
    ensures r <= s
    ensures |r| == if |s| < n then |s| else n
  {
    if |s| <= n then s else s[..n]
  }

  /**
   * `Char.isWhitespace()` on the JVM: `Character.isWhitespace` or
   * `Character.isSpaceChar`, i.e. the ASCII controls TAB..CR and FS..US
   * plus every character of the Unicode categories Zs, Zl and Zp.
   */
  predicate IsWhitespace(c: char) {
    || ('\U{0009}' <= c <= '\U{000D}')
    || ('\U{001C}' <= c <= '\U{0020}')
    || c == '\U{00A0}' || c == '\U{1680}'
    || ('\U{2000}' <= c <= '\U{200A}')
    || c == '\U{2028}' || c == '\U{2029}' || c == '\U{202F}' || c == '\U{205F}'
    || c == '\U{3000}'
  }

  /** `s.isBlank()`: empty or whitespace only. */
  predicate IsBlank(s: string): (b: bool)
    ensures s == [] ==> b
    ensures b <==> forall c | c in s :: IsWhitespace(c)
  {
    forall i :: 0 <= i < |s| ==> IsWhitespace(s[i])
  }

  /** `s.ifBlank { fallback }`. */
  function IfBlank(s: string, fallback: string): (r: string)
    ensures !IsBlank(s) ==> r == s
    ensures IsBlank(s) ==> r == fallback
  {
    if IsBlank(s) then fallback else s
  }

  /** Number of leading whitespace characters of `s`. */
  function LeadingBlank(s: string): (n: nat)
    ensures n <= |s|
    ensures IsBlank(s[..n])
    ensures n < |s| ==> !IsWhitespace(s[n])
  {
    if s == [] || !IsWhitespace(s[0]) then 0
    else
      var m := LeadingBlank(s[1..]);
      assert s[1..][..m] == s[1..m + 1];
      1 + m
  }

  /** Index where the trailing whitespace of `s` begins. */
  function TrailingBlankStart(s: string): (m: nat)
    ensures m <= |s|
    ensures IsBlank(s[m..])
    ensures m > 0 ==> !IsWhitespace(s[m - 1])
  {
    if s == [] || !IsWhitespace(s[|s| - 1]) then |s|
    else
      var m := TrailingBlankStart(s[..|s| - 1]);
      assert s[..|s| - 1][m..] == s[m..|s| - 1];
      m
  }

  /**
   * `s.trim()`: `s` without its leading and trailing whitespace; the
   * result is a contiguous part of `s` framed by whitespace on both sides.
   */
  function Trim(s: string): (r: string)
    ensures r == [] <==> IsBlank(s)
    ensures r != [] ==> !IsWhitespace(r[0]) && !IsWhitespace(r[|r| - 1])
    ensures exists i :: 0 <= i <= |s| - |r| && r == s[i..i + |r|]
                        && IsBlank(s[..i]) && IsBlank(s[i + |r|..])
  {
    var i := LeadingBlank(s);
    if i == |s| then
      assert s[..i] == s && s[i + 0..] == [];
      []
    else
      var j := TrailingBlankStart(s);
      assert !IsWhitespace(s[i]);
      assert !IsBlank(s) by { assert !IsWhitespace(s[i]); }
      var r := s[i..j];
      assert r == s[i..i + |r|];
      r
  }

  /** Trimming twice is trimming once. */
  lemma TrimIdempotent(s: string)
    ensures Trim(Trim(s)) == Trim(s)
  {
    var r := Trim(s);
    if r != [] {
      assert LeadingBlank(r) == 0;
      assert TrailingBlankStart(r) == |r|;
      assert r[0..|r|] == r;
    }
  }
}
