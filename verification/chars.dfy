/** Character classes used by the branch-name matcher, and ASCII upper-casing.
    The classes are the ASCII ones of a JavaScript regular expression without
    the `u` flag: `[A-Za-z]`, `[0-9]` and `\w`. */
module Chars {

  predicate IsUpper(c: char) { 'A' <= c <= 'Z' }

  predicate IsLower(c: char) { 'a' <= c <= 'z' }

  predicate IsLetter(c: char) { IsUpper(c) || IsLower(c) }

  predicate IsDigit(c: char) { '0' <= c <= '9' }

  predicate IsAlnum(c: char) { IsLetter(c) || IsDigit(c) }

  /** The `\w` class: letters, digits and underscore. */
  predicate IsWordChar(c: char) { IsAlnum(c) || c == '_' }

  /** ASCII `toUpperCase` of one character. */
  function UpperChar(c: char): (u: char)
    ensures !IsLower(u)
    ensures IsLower(c) ==> IsUpper(u) && u as int + 32 == c as int
    ensures !IsLower(c) ==> u == c
    ensures IsLetter(u) <==> IsLetter(c)
    ensures IsDigit(u) <==> IsDigit(c)
    ensures IsWordChar(u) <==> IsWordChar(c)
  {
    if IsLower(c) then (c as int - 32) as char else c
  }

  /** ASCII `toUpperCase` of a string: every character mapped, length kept. */
  function Upper(s: string): string {
    seq(|s|, k requires 0 <= k < |s| => UpperChar(s[k]))
  }

  /** Upper-casing distributes over concatenation. */
  lemma UpperAppend(a: string, b: string)
    ensures Upper(a + b) == Upper(a) + Upper(b)
  {
    assert forall k :: 0 <= k < |a + b| ==> Upper(a + b)[k] == (Upper(a) + Upper(b))[k];
  }

  /** Upper-casing commutes with taking a slice. */
  lemma UpperSlice(s: string, i: nat, j: nat)
    requires i <= j <= |s|
    ensures Upper(s)[i..j] == Upper(s[i..j])
  {
    assert forall k :: 0 <= k < j - i ==> Upper(s)[i..j][k] == Upper(s[i..j])[k];
  }

  /** Upper-casing is idempotent. */
  lemma UpperIdempotent(s: string)
    ensures Upper(Upper(s)) == Upper(s)
  {
    assert forall k :: 0 <= k < |s| ==> Upper(Upper(s))[k] == Upper(s)[k];
  }

  /** A string with no lower-case letter is left unchanged. */
  lemma UpperFixesNoLower(s: string)
    requires forall k :: 0 <= k < |s| ==> !IsLower(s[k])
    ensures Upper(s) == s
  {
    assert forall k :: 0 <= k < |s| ==> Upper(s)[k] == s[k];
  }
}
