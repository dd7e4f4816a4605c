/**
 * ASCII stand-ins for the two library calls the platform registry relies on:
 * `String.toLowerCase(Locale.ROOT)` (here `Lower`) and Groovy's
 * `StringGroovyMethods.capitalize` (here `Capitalize`). Only the letters
 * 'A'..'Z' and 'a'..'z' change case; every other character is left alone.
 */
module Ascii {

  predicate IsUpper(c: char) {
    'A' <= c <= 'Z'
  }

  predicate IsLower(c: char) {
    'a' <= c <= 'z'
  }

  /** A string with no upper-case letter in it: what lower-casing produces. */
  predicate LowerCased(s: string) {
    forall i :: 0 <= i < |s| ==> !IsUpper(s[i])
  }

  /** Lower-cases one character: upper-case letters become their lower-case partner. */
  function LowerChar(c: char): (r: char)
    ensures !IsUpper(r)
    ensures !IsUpper(c) ==> r == c
    ensures IsUpper(c) ==> IsLower(r) && r as int - c as int == 'a' as int - 'A' as int
  {
    if IsUpper(c) then (c as int - 'A' as int + 'a' as int) as char else c
  }

  /** Upper-cases one character: lower-case letters become their upper-case partner. */
  function UpperChar(c: char): (r: char)
    ensures !IsLower(r)
    ensures !IsLower(c) ==> r == c
    ensures IsLower(c) ==> IsUpper(r) && LowerChar(r) == c
  {
    if IsLower(c) then (c as int - 'a' as int + 'A' as int) as char else c
  }

  /** `toLowerCase(Locale.ROOT)`: the same string, character by character lower-cased. */
  function Lower(s: string): (r: string)
    ensures |r| == |s|
    ensures forall i :: 0 <= i < |s| ==> r[i] == LowerChar(s[i])
    ensures LowerCased(r)
  {
    if s == [] then [] else [LowerChar(s[0])] + Lower(s[1..])
  }

  /** Groovy's `capitalize`: the first character upper-cased, the rest unchanged; "" stays "". */
  function Capitalize(s: string): (r: string)
    ensures |r| == |s|
    ensures |s| > 0 ==> r[0] == UpperChar(s[0]) && r[1..] == s[1..]
  {
    if s == [] then [] else [UpperChar(s[0])] + s[1..]
  }

  /** Lower-casing a lower-cased string changes nothing. */
  lemma LowerIdempotent(s: string)
    ensures Lower(Lower(s)) == Lower(s)
  {
  }

  /** A string equals its own lower-casing exactly when it has no upper-case letter. */
  lemma LowerFixedPoints(s: string)
    ensures Lower(s) == s <==> LowerCased(s)
  {
  }

  /** Capitalizing a lower-cased string and lower-casing it again gives it back. */
  lemma LowerUndoesCapitalize(s: string)
    requires LowerCased(s)
    ensures Lower(Capitalize(s)) == s
  {
  }
}
