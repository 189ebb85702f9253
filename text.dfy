/**
 * The string operations the app borrows from Foundation and the Swift standard
 * library: `trimmingCharacters(in: .whitespacesAndNewlines)`, `joined(separator:)`,
 * decimal rendering of integers (string interpolation of an `Int`) and the
 * zero-padded numeric fields of a `DateFormatter` pattern.
 *
 * A string is a sequence of Unicode scalars (`seq<char>`).
 */
module Text {

  /** `CharacterSet.whitespacesAndNewlines`: the Unicode general categories Zs, Zl
      and Zp, the controls U+0009 to U+000D, and U+0085 (NEXT LINE). */
  predicate IsWhitespace(c: char) {
    || ('\U{9}' <= c <= '\U{D}')
    || c == ' ' || c == '\U{85}' || c == '\U{A0}' || c == '\U{1680}'
    || ('\U{2000}' <= c <= '\U{200A}')
    || c == '\U{2028}' || c == '\U{2029}' || c == '\U{202F}' || c == '\U{205F}' || c == '\U{3000}'
  }

  predicate AllWhitespace(s: string) {
    forall i :: 0 <= i < |s| ==> IsWhitespace(s[i])
  }

  /** Drops the leading whitespace: what is left is a suffix. */
  function TrimStart(s: string): (r: string)
    ensures |r| <= |s| && r == s[|s| - |r|..]
  {
    if s != [] && IsWhitespace(s[0]) then TrimStart(s[1..]) else s
  }

  /** Drops the trailing whitespace: what is left is a prefix. */
  function TrimEnd(s: string): (r: string)
    ensures |r| <= |s| && r == s[..|r|]
  {
    if s != [] && IsWhitespace(s[|s| - 1]) then TrimEnd(s[..|s| - 1]) else s
  }

  /** What `TrimStart` drops is whitespace, and what it keeps does not start
      with whitespace. */
  lemma {:induction false} TrimStartShape(s: string)
    ensures var r := TrimStart(s);
            && AllWhitespace(s[..|s| - |r|])
            && (r != [] ==> !IsWhitespace(r[0]))
  {
    if s != [] && IsWhitespace(s[0]) {
      TrimStartShape(s[1..]);
      var r := TrimStart(s);
      assert s[..|s| - |r|] == [s[0]] + s[1..][..|s| - 1 - |r|];
    }
  }

  /** What `TrimEnd` drops is whitespace, and what it keeps does not end with
      whitespace. */
  lemma {:induction false} TrimEndShape(s: string)
    ensures var r := TrimEnd(s);
            && AllWhitespace(s[|r|..])
            && (r != [] ==> !IsWhitespace(r[|r| - 1]))
  {
    if s != [] && IsWhitespace(s[|s| - 1]) {
      TrimEndShape(s[..|s| - 1]);
      var r := TrimEnd(s);
      assert s[|r|..] == s[..|s| - 1][|r|..] + [s[|s| - 1]];
    }
  }

  /** How many whitespace characters `Trim` removes from the front. */
  function LeadingWhitespace(s: string): (n: nat)
    ensures n <= |s|
  {
    |s| - |TrimStart(s)|
  }

  /** `s.trimmingCharacters(in: .whitespacesAndNewlines)` */
  function Trim(s: string): (r: string)
    ensures |r| <= |s|
  {
    TrimEnd(TrimStart(s))
  }

  /** The trimming is the infix of `s` left after dropping whitespace at both
      ends, and has no whitespace at either end. */
  lemma TrimShape(s: string)
    ensures var r := Trim(s);
            var k := LeadingWhitespace(s);
            && k + |r| <= |s|
            && r == s[k..k + |r|]
            && AllWhitespace(s[..k])
            && AllWhitespace(s[k + |r|..])
            && (r != [] ==> !IsWhitespace(r[0]) && !IsWhitespace(r[|r| - 1]))
  {
    TrimInfix(s);
    TrimDropsWhitespace(s);
    TrimEnds(s);
  }

  lemma TrimInfix(s: string)
    ensures LeadingWhitespace(s) + |Trim(s)| <= |s|
    ensures Trim(s) == s[LeadingWhitespace(s)..LeadingWhitespace(s) + |Trim(s)|]
  {
    var t := TrimStart(s);
    var k := |s| - |t|;
    assert t == s[k..];
  }

  lemma TrimDropsWhitespace(s: string)
    ensures AllWhitespace(s[..LeadingWhitespace(s)])
    ensures AllWhitespace(s[LeadingWhitespace(s) + |Trim(s)|..])
  {
    TrimStartShape(s);
    TrimDropsTrailing(s);
  }

  lemma TrimDropsTrailing(s: string)
    ensures AllWhitespace(s[LeadingWhitespace(s) + |Trim(s)|..])
  {
    var t := TrimStart(s);
    var r := TrimEnd(t);
    var k := |s| - |t|;
    TrimEndShape(t);
    var tail := s[k + |r|..];
    forall i | 0 <= i < |tail| ensures IsWhitespace(tail[i]) {
      assert tail[i] == t[|r|..][i];
    }
  }

  lemma TrimEnds(s: string)
    ensures Trim(s) != [] ==> !IsWhitespace(Trim(s)[0]) && !IsWhitespace(Trim(s)[|Trim(s)| - 1])
  {
    var t := TrimStart(s);
    TrimStartShape(s);
    TrimEndShape(t);
  }

  /** A string without whitespace at either end is its own trimming. */
  lemma {:induction false} TrimOfTrimmed(s: string)
    requires s != [] ==> !IsWhitespace(s[0]) && !IsWhitespace(s[|s| - 1])
    ensures Trim(s) == s
  {
    assert TrimStart(s) == s;
    assert TrimEnd(s) == s;
  }

  /** Trimming twice is trimming once. */
  lemma {:induction false} TrimIdempotent(s: string)
    ensures Trim(Trim(s)) == Trim(s)
  {
    TrimShape(s);
    TrimOfTrimmed(Trim(s));
  }

  /** Trimming leaves nothing exactly when the string is whitespace only. */
  lemma {:induction false} TrimEmptyIff(s: string)
    ensures Trim(s) == [] <==> AllWhitespace(s)
  {
    var k := LeadingWhitespace(s);
    TrimShape(s);
    if Trim(s) == [] {
      forall i | 0 <= i < |s| ensures IsWhitespace(s[i]) {
        if i < k {
          assert s[..k][i] == s[i];
        } else {
          assert s[k..][i - k] == s[i];
        }
      }
    } else {
      assert !IsWhitespace(s[k]);
    }
  }

  /** Each character of a string is whitespace trimmed off an end, or the
      character at the matching place of its trimming. */
  lemma TrimmedAt(s: string, i: nat)
    requires i < |s|
    ensures var k := LeadingWhitespace(s);
            if k <= i < k + |Trim(s)| then s[i] == Trim(s)[i - k] else IsWhitespace(s[i])
  {
    var k := LeadingWhitespace(s);
    var t := Trim(s);
    TrimShape(s);
    if i < k {
      assert s[..k][i] == s[i];
    } else if i >= k + |t| {
      assert s[k + |t|..][i - k - |t|] == s[i];
    }
  }

  /** Each character of the trimming is the character at the matching place of
      the string. */
  lemma TrimAt(s: string, j: nat)
    requires j < |Trim(s)|
    ensures Trim(s)[j] == s[LeadingWhitespace(s) + j]
  {
    TrimShape(s);
  }

  /** `parts.joined(separator: sep)` */
  function Join(parts: seq<string>, sep: string): (r: string)
    ensures |parts| == 1 ==> r == parts[0]
    ensures |parts| == 2 ==> r == parts[0] + sep + parts[1]
  {
    if parts == [] then ""
    else if |parts| == 1 then parts[0]
    else Join(parts[..|parts| - 1], sep) + sep + parts[|parts| - 1]
  }

  // ---------------------------------------------------------------------------
  // Decimal numerals

  predicate IsDigit(c: char) {
    '0' <= c <= '9'
  }

  predicate AllDigits(s: string) {
    forall i :: 0 <= i < |s| ==> IsDigit(s[i])
  }

  function DigitChar(d: nat): (c: char)
    requires d < 10
    ensures IsDigit(c)
  {
    "0123456789"[d]
  }

  function DigitValue(c: char): (d: nat)
    requires IsDigit(c)
    ensures d < 10
  {
    c as int - '0' as int
  }

  lemma DigitValueOfChar(d: nat)
    requires d < 10
    ensures DigitValue(DigitChar(d)) == d
  {
  }

  /** The value a string of decimal digits denotes. */
  function ValueOf(s: string): nat
    requires AllDigits(s)
  {
    if s == [] then 0 else ValueOf(s[..|s| - 1]) * 10 + DigitValue(s[|s| - 1])
  }

  /** The shortest decimal numeral of `n` (`"\(n)"` for a non-negative `Int`). */
  function Decimal(n: nat): (r: string)
    ensures r != [] && AllDigits(r)
    ensures |r| > 1 ==> r[0] != '0'
  {
    if n < 10 then [DigitChar(n)] else Decimal(n / 10) + [DigitChar(n % 10)]
  }

  /** Reading a numeral back gives the number it was made from. */
  lemma {:induction false} DecimalRoundTrip(n: nat)
    ensures ValueOf(Decimal(n)) == n
  {
    DigitValueOfChar(n % 10);
    if n >= 10 {
      var s := Decimal(n);
      assert s[..|s| - 1] == Decimal(n / 10);
      DecimalRoundTrip(n / 10);
    }
  }

  function Pow10(k: nat): (p: nat)
    ensures p >= 1
  {
    if k == 0 then 1 else 10 * Pow10(k - 1)
  }

  /** A number below 10^k has at most k digits. */
  lemma {:induction false} DecimalLength(n: nat, k: nat)
    requires 1 <= k && n < Pow10(k)
    ensures |Decimal(n)| <= k
  {
    if n >= 10 {
      DecimalLength(n / 10, k - 1);
    }
  }

  function Zeros(k: nat): (r: string)
    ensures |r| == k && AllDigits(r)
    ensures forall i :: 0 <= i < k ==> r[i] == '0'
  {
    if k == 0 then "" else Zeros(k - 1) + "0"
  }

  /** Leading zeros do not change the value of a numeral. */
  lemma {:induction false} LeadingZeros(k: nat, s: string)
    requires AllDigits(s)
    ensures AllDigits(Zeros(k) + s) && ValueOf(Zeros(k) + s) == ValueOf(s)
  {
    var t := Zeros(k) + s;
    if s == [] {
      assert t == Zeros(k);
      if k > 0 {
        assert t[..|t| - 1] == Zeros(k - 1) + s;
        LeadingZeros(k - 1, s);
      }
    } else {
      assert t[..|t| - 1] == Zeros(k) + s[..|s| - 1];
      LeadingZeros(k, s[..|s| - 1]);
    }
  }

  lemma PadWidth(n: nat, width: nat)
    ensures 1 <= width && n < Pow10(width) ==> |Decimal(n)| <= width
  {
    if 1 <= width && n < Pow10(width) {
      DecimalLength(n, width);
    }
  }

  /** The numeral of `n` padded on the left with zeros to at least `width`
      characters, as a `DateFormatter` renders `HH`, `mm`, `MM`, `dd` and `yyyy`. */
  function ZeroPad(n: nat, width: nat): (r: string)
    ensures AllDigits(r) && ValueOf(r) == n
    ensures |r| >= width
    ensures 1 <= width && n < Pow10(width) ==> |r| == width
  {
    var d := Decimal(n);
    var k := if |d| < width then width - |d| else 0;
    DecimalRoundTrip(n);
    LeadingZeros(k, d);
    PadWidth(n, width);
    Zeros(k) + d
  }

  /** `"\(i)"` for any `Int`: a minus sign before the numeral of a negative value. */
  function IntToString(i: int): (r: string)
    ensures r != []
    ensures i >= 0 ==> AllDigits(r) && ValueOf(r) == i
    ensures i < 0 ==> r[0] == '-' && AllDigits(r[1..]) && ValueOf(r[1..]) == -i
    ensures i >= 0 && |r| > 1 ==> r[0] != '0'
    ensures i < 0 && |r| > 2 ==> r[1] != '0'
  {
    DecimalRoundTrip(if i < 0 then -i else i);
    if i < 0 then "-" + Decimal(-i) else Decimal(i)
  }
}
