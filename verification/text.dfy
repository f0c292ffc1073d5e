/** Strings and the lowercasing that both sides of the ingredient comparison go
    through. .NET's `ToLower()` is culture-sensitive; this model lowercases the
    ASCII letters A-Z only and leaves every other character alone, and applies
    that one function to detected tags and to recipe ingredients alike. */
module Text {

  predicate IsUpperChar(c: char) {
    'A' <= c <= 'Z'
  }

  function LowerChar(c: char): char {
    if IsUpperChar(c) then (c as int - 'A' as int + 'a' as int) as char else c
  }

  /** A string with no upper-case letter in it. */
  predicate IsLower(s: string) {
    forall i :: 0 <= i < |s| ==> !IsUpperChar(s[i])
  }

  /** Every string of `ss` is lowercase. */
  predicate AllLower(ss: seq<string>) {
    forall i :: 0 <= i < |ss| ==> IsLower(ss[i])
  }

  /** The lowercase form of `s`, character by character: each capital A-Z
      becomes the small letter at the same place in the alphabet, every other
      character is kept, so no upper-case letter is left. In particular a
      string that is already lowercase comes back unchanged. */
  function Lower(s: string): (t: string)
    ensures |t| == |s|
    ensures forall i :: 0 <= i < |s| && IsUpperChar(s[i]) ==>
      'a' <= t[i] <= 'z' && t[i] as int - 'a' as int == s[i] as int - 'A' as int
    ensures forall i :: 0 <= i < |s| && !IsUpperChar(s[i]) ==> t[i] == s[i]
    ensures IsLower(t)
    ensures IsLower(s) ==> t == s
  {
    seq(|s|, i requires 0 <= i < |s| => LowerChar(s[i]))
  }

  /** Two strings that differ at most in the case of their letters. */
  predicate SameModuloCase(a: string, b: string) {
    Lower(a) == Lower(b)
  }

  /** Lowercasing twice is lowercasing once. */
  lemma LowerIdempotent(s: string)
    ensures Lower(Lower(s)) == Lower(s)
  {
  }
}
