/** The few string operations the launcher uses, over ASCII: lower- and
    upper-casing, replacing one character by another, and prefix tests. */
module Text {

  /** ASCII lower-casing of one character; every other character is kept. */
  function LowerChar(c: char): char {
    if 'A' <= c <= 'Z' then (c as int - 'A' as int + 'a' as int) as char else c
  }

  /** ASCII upper-casing of one character; every other character is kept. */
  function UpperChar(c: char): char {
    if 'a' <= c <= 'z' then (c as int - 'a' as int + 'A' as int) as char else c
  }

  /** Applies `f` to every character of `s`, keeping the order. */
  function MapChars(s: string, f: char -> char): (r: string)
    ensures |r| == |s|
    ensures forall i :: 0 <= i < |s| ==> r[i] == f(s[i])
  {
    seq(|s|, i requires 0 <= i < |s| => f(s[i]))
  }

  function Lower(s: string): string {
    MapChars(s, LowerChar)
  }

  function Upper(s: string): string {
    MapChars(s, UpperChar)
  }

  /** Every occurrence of the character `target` replaced by `replacement`. */
  function Replace(s: string, target: char, replacement: char): string {
    MapChars(s, c => if c == target then replacement else c)
  }

  predicate StartsWith(s: string, prefix: string) {
    |prefix| <= |s| && s[..|prefix|] == prefix
  }

  /** `a` and `b` are equal up to ASCII case: the reference notion of a
      case-insensitive comparison. */
  predicate EqualsIgnoreCase(a: string, b: string) {
    |a| == |b| && forall i :: 0 <= i < |a| ==> LowerChar(a[i]) == LowerChar(b[i])
  }

  /** `s` holds no upper-case ASCII letter. */
  predicate IsLowerCase(s: string) {
    forall i :: 0 <= i < |s| ==> !('A' <= s[i] <= 'Z')
  }

  /** Lower-casing `a` yields the lower-case word `w` exactly when `a` equals
      `w` up to case. */
  lemma LowerIsIgnoreCase(a: string, w: string)
    requires IsLowerCase(w)
    ensures Lower(a) == w <==> EqualsIgnoreCase(a, w)
  {
    if EqualsIgnoreCase(a, w) {
      assert forall i :: 0 <= i < |w| ==> LowerChar(w[i]) == w[i];
      assert forall i :: 0 <= i < |a| ==> Lower(a)[i] == w[i];
    }
  }

  /** A string whose character at `i` differs from `prefix`'s does not start
      with `prefix`. */
  lemma DiffersAt(s: string, prefix: string, i: nat)
    requires i < |prefix| && i < |s| && s[i] != prefix[i]
    ensures !StartsWith(s, prefix)
  {
  }
}
