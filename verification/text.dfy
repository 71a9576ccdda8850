/**
 * The string helpers the handlers lean on: lower-casing (ASCII only),
 * substring search, `fmt.Sprintf("%d", n)` and `strconv.Atoi`.
 */
module Text {
  import opened Wrappers

  predicate IsUpper(c: char) { 'A' <= c <= 'Z' }

  /** Lower-cases one ASCII letter and keeps every other character. */
  function LowerChar(c: char): char
  {
    if IsUpper(c) then (c as int - 'A' as int + 'a' as int) as char else c
  }

  /** Lower-casing character by character: the result has no upper-case letter left. */
  function ToLower(s: string): (r: string)
    ensures |r| == |s|
    ensures forall i :: 0 <= i < |s| ==> r[i] == LowerChar(s[i])
    ensures forall i :: 0 <= i < |r| ==> !IsUpper(r[i])
  {
    if s == [] then [] else [LowerChar(s[0])] + ToLower(s[1..])
  }

  /** `sub` occurs in `s` starting at index `i`. */
  predicate OccursAt(s: string, sub: string, i: int)
  {
    0 <= i && i + |sub| <= |s| && s[i..i + |sub|] == sub
  }

  /** Substring search, as `strings.Contains`. */
  predicate Contains(s: string, sub: string)
  {
    exists i | 0 <= i <= |s| - |sub| :: OccursAt(s, sub, i)
  }

  /** The empty string occurs in every string, and only short strings occur. */
  lemma ContainsBounds(s: string, sub: string)
    ensures Contains(s, [])
    ensures Contains(s, sub) ==> |sub| <= |s|
  {
    assert OccursAt(s, [], 0);
  }

  // ---- decimal formatting and parsing ----

  predicate IsDigit(c: char) { '0' <= c <= '9' }

  predicate AllDigits(s: string) { forall i | 0 <= i < |s| :: IsDigit(s[i]) }

  function DigitChar(d: nat): (c: char)
    requires d < 10
    ensures IsDigit(c)
  {
    ('0' as int + d) as char
  }

  function DigitValue(c: char): (d: nat)
    requires IsDigit(c)
    ensures d < 10 && DigitChar(d) == c
  {
    c as int - '0' as int
  }

  /** Decimal digits of `n`, most significant first, without leading zeros. */
  function NatToDecimal(n: nat): (r: string)
    ensures |r| >= 1 && AllDigits(r)
    ensures |r| > 1 ==> r[0] != '0'
  {
    if n < 10 then [DigitChar(n)] else NatToDecimal(n / 10) + [DigitChar(n % 10)]
  }

  /** `fmt.Sprintf("%d", n)`: a minus sign for negative numbers, then the digits. */
  function DecimalFormat(n: int): string
  {
    if n < 0 then "-" + NatToDecimal(-n) else NatToDecimal(n)
  }

  /** The value of a string of decimal digits, read left to right. */
  function DigitsValue(s: string): nat
    requires AllDigits(s)
  {
    if s == [] then 0 else DigitsValue(s[..|s| - 1]) * 10 + DigitValue(s[|s| - 1])
  }

  /** An optional sign followed by one or more decimal digits, of any size. */
  function ParseDecimal(s: string): Option<int>
  {
    if |s| > 0 && (s[0] == '-' || s[0] == '+') then
      if |s| > 1 && AllDigits(s[1..]) then
        var magnitude: int := DigitsValue(s[1..]);
        Some(if s[0] == '-' then -magnitude else magnitude)
      else None
    else if |s| > 0 && AllDigits(s) then Some(DigitsValue(s))
    else None
  }

  const MinInt64: int := -0x8000_0000_0000_0000
  const MaxInt64: int := 0x7FFF_FFFF_FFFF_FFFF

  /**
   * `strconv.Atoi` on a 64-bit platform: a well-formed decimal whose value
   * fits in 64 bits, and nothing else.
   */
  function Atoi(s: string): (r: Option<int>)
    ensures r.Some? ==> MinInt64 <= r.value <= MaxInt64
    ensures r.Some? ==> s != [] && ParseDecimal(s) == r
    ensures ParseDecimal(s).None? ==> r.None?
    ensures ParseDecimal(s).Some? && MinInt64 <= ParseDecimal(s).value <= MaxInt64 ==> r == ParseDecimal(s)
  {
    match ParseDecimal(s)
    case Some(n) => if MinInt64 <= n <= MaxInt64 then Some(n) else None
    case None => None
  }

  /** Reading back the digits that `NatToDecimal` wrote gives the number. */
  lemma {:induction false} DigitsRoundTrip(n: nat)
    ensures DigitsValue(NatToDecimal(n)) == n
  {
    var r := NatToDecimal(n);
    if n < 10 {
      assert r[..0] == [];
    } else {
      DigitsRoundTrip(n / 10);
      assert r[..|r| - 1] == NatToDecimal(n / 10);
    }
  }

  /** Parsing what `%d` prints gives back the number. */
  lemma FormatParseRoundTrip(n: int)
    ensures ParseDecimal(DecimalFormat(n)) == Some(n)
  {
    var s := DecimalFormat(n);
    if n < 0 {
      var digits := NatToDecimal(-n);
      DigitsRoundTrip(-n);
      assert s[0] == '-' && s[1..] == digits;
      assert AllDigits(s[1..]) && DigitsValue(s[1..]) == -n;
    } else {
      DigitsRoundTrip(n);
      assert IsDigit(s[0]);
      assert AllDigits(s) && DigitsValue(s) == n;
    }
  }

  /** Distinct numbers print differently, so `%d` keys never collide. */
  lemma DecimalFormatInjective(a: int, b: int)
    ensures DecimalFormat(a) == DecimalFormat(b) <==> a == b
  {
    FormatParseRoundTrip(a);
    FormatParseRoundTrip(b);
  }

  /** `Atoi` accepts every 64-bit number as `%d` prints it. */
  lemma FormatAtoiRoundTrip(n: int)
    requires MinInt64 <= n <= MaxInt64
    ensures Atoi(DecimalFormat(n)) == Some(n)
  {
    FormatParseRoundTrip(n);
  }
}
