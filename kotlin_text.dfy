/** The Kotlin string operations the core relies on: `<` on strings, `substringBefore`,
    `isBlank`/`ifBlank` and the upper-casing of an initial. */
module KotlinText {

  /** `a < b` on Kotlin strings: `compareTo`, which compares character codes from the left
      and, when one string is a prefix of the other, puts the shorter one first. */
  predicate Less(a: string, b: string)
    decreases |a|
  {
    if |a| == 0 then |b| > 0
    else if |b| == 0 then false
    else if a[0] != b[0] then a[0] < b[0]
    else Less(a[1..], b[1..])
  }

  lemma {:induction false} LessIrreflexive(a: string)
    ensures !Less(a, a)
  {
    if |a| > 0 {
      LessIrreflexive(a[1..]);
    }
  }

  lemma {:induction false} LessAsymmetric(a: string, b: string)
    ensures Less(a, b) ==> !Less(b, a)
  {
    if |a| > 0 && |b| > 0 && a[0] == b[0] {
      LessAsymmetric(a[1..], b[1..]);
    }
  }

  /** Two different strings are always ordered one way or the other. */
  lemma {:induction false} LessConnected(a: string, b: string)
    ensures a != b ==> Less(a, b) || Less(b, a)
  {
    if |a| > 0 && |b| > 0 && a[0] == b[0] {
      assert a == [a[0]] + a[1..] && b == [b[0]] + b[1..];
      LessConnected(a[1..], b[1..]);
    }
  }

  lemma {:induction false} LessTransitive(a: string, b: string, c: string)
    requires Less(a, b) && Less(b, c)
    ensures Less(a, c)
  {
    if |a| > 0 && a[0] == b[0] && b[0] == c[0] {
      LessTransitive(a[1..], b[1..], c[1..]);
    }
  }

  /** `s.substringBefore(delimiter)`: the part before the first occurrence of the delimiter,
      or the whole string when it does not occur. */
  function SubstringBefore(s: string, delimiter: char): (r: string)
    ensures r <= s
    ensures delimiter !in r
    ensures delimiter in s ==> |r| < |s| && s[|r|] == delimiter
    ensures delimiter !in s ==> r == s
  {
    if |s| == 0 then ""
    else if s[0] == delimiter then ""
    else [s[0]] + SubstringBefore(s[1..], delimiter)
  }

  /** The part before the first delimiter of `x + delimiter + y` is `x` when `x` holds no delimiter. */
  lemma SubstringBeforeJoin(x: string, y: string, delimiter: char)
    requires delimiter !in x
    ensures SubstringBefore(x + [delimiter] + y, delimiter) == x
  {
    var s := x + [delimiter] + y;
    var r := SubstringBefore(s, delimiter);
    assert s[|x|] == delimiter;
    assert forall i :: 0 <= i < |x| ==> s[i] == x[i];
    assert r == s[..|r|];
  }

  /** Kotlin's `Char.isWhitespace()`: Java's `isWhitespace` or `isSpaceChar`. */
  predicate IsWhitespace(c: char) {
    || c == '\t' || c == '\n' || c == '\U{000B}' || c == '\U{000C}' || c == '\r'
    || ('\U{001C}' <= c <= '\U{001F}')
    || c == ' ' || c == '\U{00A0}' || c == '\U{1680}'
    || ('\U{2000}' <= c <= '\U{200A}')
    || c == '\U{2028}' || c == '\U{2029}' || c == '\U{202F}' || c == '\U{205F}' || c == '\U{3000}'
  }

  /** `s.isBlank()`: empty or only whitespace. */
  predicate IsBlank(s: string) {
    forall i :: 0 <= i < |s| ==> IsWhitespace(s[i])
  }

  /** `s.ifBlank { default }`. */
  function IfBlank(s: string, default: string): (r: string)
    ensures !IsBlank(s) ==> r == s
    ensures IsBlank(s) ==> r == default
  {
    if IsBlank(s) then default else s
  }

  /** `c.uppercase()` for the ASCII letters; other characters are left as they are. */
  function UppercaseChar(c: char): (r: string)
    ensures |r| == 1
    ensures 'a' <= c <= 'z' ==> 'A' <= r[0] <= 'Z' && r[0] as int == c as int - 32
    ensures !('a' <= c <= 'z') ==> r == [c]
  {
    if 'a' <= c <= 'z' then [(c as int - 32) as char] else [c]
  }
}
