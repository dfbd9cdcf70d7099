/** Character classification and case mapping of the C library (<cctype>) in the "C" locale,
    and the whole-string lowering that `std::transform(s.begin(), s.end(), s.begin(), ::tolower)`
    performs. Only 'A'..'Z' are upper case; every other character maps to itself. */
module Ascii {

  predicate IsUpper(c: char) {
    'A' <= c <= 'Z'
  }

  /** `tolower(c)`: 'A'..'Z' become 'a'..'z', everything else is left alone. */
  function ToLowerChar(c: char): char {
    if IsUpper(c) then (c as int - 'A' as int + 'a' as int) as char else c
  }

  predicate HasUpper(s: string) {
    exists i :: 0 <= i < |s| && IsUpper(s[i])
  }

  /** The string that lowering every character of `s` in place leaves behind. */
  function Lower(s: string): (r: string)
    ensures |r| == |s|
    ensures forall i :: 0 <= i < |s| ==> r[i] == ToLowerChar(s[i])
    ensures !HasUpper(r)
  {
    if s == [] then [] else [ToLowerChar(s[0])] + Lower(s[1..])
  }

  /** A string without upper-case letters is already lowered. */
  lemma LowerFixesLowercase(s: string)
    requires !HasUpper(s)
    ensures Lower(s) == s
  {
  }
}
