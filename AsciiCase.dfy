/**
 ASCII case folding. It stands in for Foundation's `lowercaseString` and
 `caseInsensitiveCompare`, which this model reads as folding the letters
 'A'..'Z' onto 'a'..'z' and leaving every other character alone.
 */
module AsciiCase {

  predicate IsUpper(c: char) {
    'A' <= c <= 'Z'
  }

  predicate IsLower(c: char) {
    'a' <= c <= 'z'
  }

  /** A string with no upper-case ASCII letter in it. */
  predicate NoUpper(s: string) {
    forall i :: 0 <= i < |s| ==> !IsUpper(s[i])
  }

  /** Folds one character to lower case. */
  function LowerChar(c: char): (r: char)
    ensures !IsUpper(r)
    ensures IsUpper(c) ==> IsLower(r) && r as int == c as int + 32
    ensures !IsUpper(c) ==> r == c
  {
    if IsUpper(c) then (c as int + 32) as char else c
  }

  /** Folds a whole string to lower case, character by character. */
  function Lower(s: string): (r: string)
    ensures |r| == |s|
    ensures forall i :: 0 <= i < |s| ==> r[i] == LowerChar(s[i])
    ensures NoUpper(r)
  {
    if s == [] then [] else [LowerChar(s[0])] + Lower(s[1..])
  }

  /** Case-insensitive equality: both sides fold to the same string. */
  function EqualsIgnoringCase(a: string, b: string): (r: bool)
    ensures r <==> |a| == |b| && forall i :: 0 <= i < |a| ==> LowerChar(a[i]) == LowerChar(b[i])
  {
    Lower(a) == Lower(b)
  }

  /** Folding leaves a string without upper-case letters unchanged. */
  lemma LowerFixesNoUpper(s: string)
    requires NoUpper(s)
    ensures Lower(s) == s
  {
  }

  /** Folding twice is folding once. */
  lemma LowerIdempotent(s: string)
    ensures Lower(Lower(s)) == Lower(s)
  {
  }

  /** The characters that fold to a given lower-case letter are that letter and its capital. */
  lemma FoldsTo(c: char, l: char)
    requires IsLower(l)
    ensures LowerChar(c) == l <==> c == l || c as int == l as int - 32
  {
  }

  /** Comparing with a string that has no capitals is comparing the fold of the other side. */
  lemma EqualsIgnoringCaseLowerLiteral(a: string, b: string)
    requires NoUpper(b)
    ensures EqualsIgnoringCase(a, b) <==> Lower(a) == b
  {
  }
}
