/**
 * The path and number helpers of Utility.h: basename, filename, extension
 * and to_version_string, written over std::string::find_last_of and substr
 * and over C++ integer arithmetic.
 */
module Utility {

  datatype Option<T> = None | Some(value: T)

  /**
   * std::string::find_last_of: the index of the last character of s that
   * occurs in chars, or None for std::string::npos.
   */
  function FindLastOf(s: string, chars: string): (r: Option<nat>)
    ensures r.Some? ==> r.value < |s| && s[r.value] in chars
    ensures r.Some? ==> forall j :: r.value < j < |s| ==> s[j] !in chars
    ensures r.None? ==> forall j :: 0 <= j < |s| ==> s[j] !in chars
  {
    if |s| == 0 then None
    else if s[|s| - 1] in chars then Some(|s| - 1)
    else FindLastOf(s[..|s| - 1], chars)
  }

  /**
   * The conversion of the size_t result of find_last_of to int in filename():
   * std::string::npos becomes -1.
   */
  function PositionAsInt(p: Option<nat>): int {
    match p
    case None => -1
    case Some(i) => i
  }

  /** basename: the text before the last '.', or all of s when s has none. */
  function Basename(s: string): (r: string)
    ensures r <= s
    ensures '.' !in s ==> r == s
    ensures '.' in s ==> |r| < |s| && s[|r|] == '.' && '.' !in s[|r| + 1..]
  {
    match FindLastOf(s, ".")
    case None => s
    case Some(i) => s[..i]
  }

  /**
   * filename: basename(s) without its directory part. The int position of
   * the last separator p (-1 for npos) is turned into the start of the
   * result by (0 != p) + p, so a separator at position 0 is kept.
   */
  function Filename(s: string): (r: string)
    ensures |r| <= |Basename(s)| && r == Basename(s)[|Basename(s)| - |r|..]
  {
    var base := Basename(s);
    var pos := PositionAsInt(FindLastOf(base, "/\\"));
    var start := (if 0 != pos then 1 else 0) + pos;
    base[start..]
  }

  predicate IsSeparator(c: char) {
    c == '/' || c == '\\'
  }

  /** The three cases of filename(), stated against where the separators are. */
  lemma FilenameCases(s: string)
    ensures var base := Basename(s);
      && ((forall j :: 0 <= j < |base| ==> !IsSeparator(base[j])) ==> Filename(s) == base)
      && (forall p :: (0 < p < |base| && IsSeparator(base[p]) && (forall j :: p < j < |base| ==> !IsSeparator(base[j])))
            ==> Filename(s) == base[p + 1..])
      && ((|base| > 0 && IsSeparator(base[0]) && (forall j :: 0 < j < |base| ==> !IsSeparator(base[j])))
            ==> Filename(s) == base)
  {
    var base := Basename(s);
    var f := FindLastOf(base, "/\\");
    assert forall c :: c in "/\\" <==> IsSeparator(c);
    if f.Some? {
      assert IsSeparator(base[f.value]);
    }
  }

  /** A filename() result never holds a separator after its first character. */
  lemma FilenameHasNoInnerSeparator(s: string)
    ensures forall j :: 0 < j < |Filename(s)| ==> !IsSeparator(Filename(s)[j])
  {
    var base := Basename(s);
    var f := FindLastOf(base, "/\\");
    assert forall c :: c in "/\\" <==> IsSeparator(c);
  }

  /**
   * extension: the text from the last '.' on. Without a '.', substr(npos)
   * throws std::out_of_range, which is the None result.
   */
  function Extension(s: string): (r: Option<string>)
    ensures r.None? <==> '.' !in s
    ensures r.Some? ==> |r.value| > 0 && r.value[0] == '.' && '.' !in r.value[1..]
    ensures r.Some? ==> |r.value| <= |s| && r.value == s[|s| - |r.value|..]
  {
    match FindLastOf(s, ".")
    case None =>
      assert forall j :: 0 <= j < |s| ==> s[j] != '.';
      None
    case Some(i) => Some(s[i..])
  }

  /** Splitting at the last '.' loses nothing: basename(s) + extension(s) == s. */
  lemma BasenameExtensionSplit(s: string)
    requires '.' in s
    ensures Extension(s).Some?
    ensures Basename(s) + Extension(s).value == s
  {
    var i := FindLastOf(s, ".");
    assert s == s[..i.value] + s[i.value..];
  }

  // ---------------------------------------------------------------------
  // to_version_string

  const IntMin: int := -0x8000_0000
  const IntMax: int := 0x7FFF_FFFF

  predicate IsInt32(x: int) {
    IntMin <= x <= IntMax
  }

  function Abs(x: int): nat {
    if x < 0 then -x else x
  }

  /** C++ integer division: the quotient is truncated toward zero. */
  function TruncDiv(a: int, b: int): (q: int)
    requires b != 0
    ensures Abs(a - q * b) < Abs(b)
    ensures a - q * b == 0 || (a - q * b < 0 <==> a < 0)
  {
    TruncDivRemainder(a, b);
    var q := Abs(a) / Abs(b);
    if (a < 0) != (b < 0) then -q else q
  }

  /** The remainder left by the truncated quotient is that of |a| / |b|, with the sign of a. */
  lemma TruncDivRemainder(a: int, b: int)
    requires b != 0
    ensures var n, d := Abs(a), Abs(b);
      var q := if (a < 0) != (b < 0) then -(n / d) else n / d;
      a - q * b == (if a < 0 then -(n % d) else n % d) && 0 <= n % d < d
  {
    var n, d := Abs(a), Abs(b);
    var q0, r0 := n / d, n % d;
    assert n == q0 * d + r0;
    if a < 0 && b < 0 {
      assert a - q0 * b == -n + q0 * d;
    } else if a < 0 {
      assert a - (-q0) * b == -n + q0 * d;
    } else if b < 0 {
      assert a - (-q0) * b == n - q0 * d;
    } else {
      assert a - q0 * b == n - q0 * d;
    }
  }

  /** The decimal digit of 0 <= d < 10. */
  function Digit(d: nat): (c: char)
    requires d < 10
    ensures '0' <= c <= '9'
  {
    "0123456789"[d]
  }

  /** The decimal rendering of a non-negative number, most significant digit first. */
  function NatDigits(n: nat): (s: string)
    ensures |s| > 0
    ensures forall i :: 0 <= i < |s| ==> '0' <= s[i] <= '9'
    ensures |s| > 1 ==> s[0] != '0'
    decreases n
  {
    if n < 10 then [Digit(n)] else NatDigits(n / 10) + [Digit(n % 10)]
  }

  /** to_string(long): decimal rendering with a leading '-' for negative numbers (_ltoa, base 10). */
  function DecimalString(x: int): (s: string)
    ensures |s| > 0
    ensures '.' !in s
    ensures (s[0] == '-') == (x < 0)
  {
    var digits := NatDigits(Abs(x));
    assert forall i :: 0 <= i < |digits| ==> digits[i] != '.' && digits[i] != '-';
    if x < 0 then "-" + digits else digits
  }

  /** The value of a string of decimal digits; the inverse of NatDigits. */
  function DigitsValue(s: string): int {
    if |s| == 0 then 0 else DigitsValue(s[..|s| - 1]) * 10 + (s[|s| - 1] as int - '0' as int)
  }

  /** The value of a rendering made by DecimalString. */
  function DecimalValue(s: string): int {
    if |s| > 0 && s[0] == '-' then -DigitsValue(s[1..]) else DigitsValue(s)
  }

  lemma {:induction false} NatDigitsRoundTrip(n: nat)
    ensures DigitsValue(NatDigits(n)) == n
    decreases n
  {
    if n >= 10 {
      NatDigitsRoundTrip(n / 10);
      var s := NatDigits(n);
      assert s[..|s| - 1] == NatDigits(n / 10);
      assert "0123456789"[n % 10] as int - '0' as int == n % 10;
    } else {
      assert "0123456789"[n] as int - '0' as int == n;
    }
  }

  /** Reading back a decimal rendering gives the number rendered. */
  lemma DecimalRoundTrip(x: int)
    ensures DecimalValue(DecimalString(x)) == x
  {
    NatDigitsRoundTrip(Abs(x));
    if x < 0 {
      assert ("-" + NatDigits(Abs(x)))[1..] == NatDigits(Abs(x));
    }
  }

  /**
   * The two numbers to_version_string prints: maj = version / div with
   * C++ truncation, min = version - maj * div.
   */
  function VersionParts(version: int, div: int): (r: (int, int))
    requires div != 0
    ensures r.0 * div + r.1 == version
    ensures Abs(r.1) < Abs(div)
    ensures r.1 == 0 || (r.1 < 0 <==> version < 0)
    ensures version >= 0 && div > 0 ==> 0 <= r.1 < div && r.0 == version / div
  {
    var maj := TruncDiv(version, div);
    (maj, version - maj * div)
  }

  /**
   * to_version_string(version, div). Division by zero and the one
   * overflowing quotient (INT_MIN / -1) are undefined in C++, so the
   * caller must avoid them.
   */
  function ToVersionString(version: int, div: int): (s: string)
    requires IsInt32(version) && IsInt32(div) && div != 0
    requires !(version == IntMin && div == -1)
  {
    var parts := VersionParts(version, div);
    DecimalString(parts.0) + "." + DecimalString(parts.1)
  }

  /**
   * The version string holds exactly one '.', and the numbers on either
   * side of it are the truncated quotient and the remainder of the
   * division; for a non-negative version and a positive divisor they are
   * version / div and version % div.
   */
  lemma VersionStringParts(version: int, div: int)
    requires IsInt32(version) && IsInt32(div) && div != 0
    requires !(version == IntMin && div == -1)
    ensures var s := ToVersionString(version, div);
      exists k :: 0 <= k < |s| && s[k] == '.' && '.' !in s[..k] && '.' !in s[k + 1..]
        && DecimalValue(s[..k]) == VersionParts(version, div).0
        && DecimalValue(s[k + 1..]) == VersionParts(version, div).1
        && DecimalValue(s[..k]) * div + DecimalValue(s[k + 1..]) == version
        && (version >= 0 && div > 0 ==>
              DecimalValue(s[..k]) == version / div && DecimalValue(s[k + 1..]) == version % div)
  {
    var parts := VersionParts(version, div);
    var a, b := DecimalString(parts.0), DecimalString(parts.1);
    var s := a + "." + b;
    var k := |a|;
    assert ToVersionString(version, div) == s;
    assert s[..k] == a && s[k + 1..] == b && s[k] == '.';
    DecimalRoundTrip(parts.0);
    DecimalRoundTrip(parts.1);
    if version >= 0 && div > 0 {
      VersionPartsEuclidean(version, div);
    }
    assert 0 <= k < |s| && s[k] == '.' && '.' !in s[..k] && '.' !in s[k + 1..];
  }

  /** For a non-negative version and a positive divisor, the minor part is version % div. */
  lemma VersionPartsEuclidean(version: int, div: int)
    requires version >= 0 && div > 0
    ensures VersionParts(version, div).1 == version % div
  {
    var q, r := version / div, version % div;
    assert version == q * div + r;
    assert VersionParts(version, div).0 == q;
  }

}
