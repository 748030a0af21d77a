/**
 * Character classes of the C library in the "C" locale, as used by the
 * tokenizer (isalpha, isalnum) and by the comparators (toupper, tolower).
 * Only the ASCII letters and digits belong to the classes; every other
 * character is left alone by the case conversions.
 */
module CharClass {

  predicate IsUpper(c: char) {
    'A' <= c <= 'Z'
  }

  predicate IsLower(c: char) {
    'a' <= c <= 'z'
  }

  /** isalpha in the "C" locale. */
  predicate IsAlpha(c: char) {
    IsUpper(c) || IsLower(c)
  }

  predicate IsDigit(c: char) {
    '0' <= c <= '9'
  }

  /** isalnum in the "C" locale. */
  predicate IsAlnum(c: char) {
    IsAlpha(c) || IsDigit(c)
  }

  /** tolower in the "C" locale: upper-case ASCII letters map to lower case. */
  function ToLower(c: char): (r: char)
    ensures IsUpper(c) ==> IsLower(r) && r as int == c as int + 32
    ensures !IsUpper(c) ==> r == c
    ensures IsAlpha(r) == IsAlpha(c) && IsDigit(r) == IsDigit(c)
  {
    if IsUpper(c) then (c as int + 32) as char else c
  }

  /** toupper in the "C" locale: lower-case ASCII letters map to upper case. */
  function ToUpper(c: char): (r: char)
    ensures IsLower(c) ==> IsUpper(r) && r as int == c as int - 32
    ensures !IsLower(c) ==> r == c
    ensures IsAlpha(r) == IsAlpha(c) && IsDigit(r) == IsDigit(c)
  {
    if IsLower(c) then (c as int - 32) as char else c
  }

  /** Applies tolower to every character of a string, as std::transform does. */
  function LowerString(s: string): (r: string)
    ensures |r| == |s|
    ensures forall i :: 0 <= i < |s| ==> r[i] == ToLower(s[i])
  {
    seq(|s|, i requires 0 <= i < |s| => ToLower(s[i]))
  }

  /** Applies toupper to every character of a string. */
  function UpperString(s: string): (r: string)
    ensures |r| == |s|
    ensures forall i :: 0 <= i < |s| ==> r[i] == ToUpper(s[i])
  {
    seq(|s|, i requires 0 <= i < |s| => ToUpper(s[i]))
  }
}
