/**
  The period keys of the raw record, `f"{year}{month:02d}"`: the decimal year
  followed by the month written with two digits, and `str(year)` for the
  year-by-year series.
*/
module PeriodKeys {
  import opened Wrappers

  predicate IsDigit(c: char)
  {
    '0' <= c <= '9'
  }

  predicate AllDigits(s: string)
  {
    forall i :: 0 <= i < |s| ==> IsDigit(s[i])
  }

  function DigitChar(d: int): (c: char)
    requires 0 <= d < 10
    ensures IsDigit(c)
  {
    ('0' as int + d) as char
  }

  function DigitValue(c: char): (d: nat)
    requires IsDigit(c)
    ensures d < 10 && DigitChar(d) == c
  {
    c as int - '0' as int
  }

  /** Decimal digits of `n`, without leading zeros. */
  function NatToString(n: nat): (s: string)
    ensures s != [] && AllDigits(s)
  {
    if n < 10 then [DigitChar(n)] else NatToString(n / 10) + [DigitChar(n % 10)]
  }

  /** Reads a string of decimal digits back as a number. */
  function ParseNat(s: string): nat
    requires AllDigits(s)
  {
    if s == [] then 0 else ParseNat(s[..|s| - 1]) * 10 + DigitValue(s[|s| - 1])
  }

  /** `str(i)` for an integer. */
  function IntToString(i: int): string
  {
    if i < 0 then "-" + NatToString(-i) else NatToString(i)
  }

  /** Reads `str(i)` back; `None` for anything that is not an optional sign and digits. */
  function ParseInt(s: string): Option<int>
  {
    if s != [] && s[0] == '-' && |s| > 1 && AllDigits(s[1..]) then Some(0 - ParseNat(s[1..]) as int)
    else if s != [] && AllDigits(s) then Some(ParseNat(s))
    else None
  }

  /** `f"{m:02d}"` for `0 <= m < 100`. */
  function TwoDigits(m: int): string
    requires 0 <= m < 100
  {
    [DigitChar(m / 10), DigitChar(m % 10)]
  }

  /** The key under which the raw record holds the value of `month` in `year`. */
  function PeriodKey(year: int, month: int): string
    requires 1 <= month <= 12
  {
    IntToString(year) + TwoDigits(month)
  }

  /** Splits a period key into its year and month; `None` when it is not one. */
  function ParsePeriodKey(k: string): Option<(int, int)>
  {
    if |k| < 3 || !IsDigit(k[|k| - 2]) || !IsDigit(k[|k| - 1]) then None
    else
      var month := DigitValue(k[|k| - 2]) * 10 + DigitValue(k[|k| - 1]);
      match ParseInt(k[..|k| - 2])
      case None => None
      case Some(year) => if 1 <= month <= 12 then Some((year, month)) else None
  }

  lemma {:induction false} ParseNatToString(n: nat)
    ensures ParseNat(NatToString(n)) == n
  {
    if n >= 10 {
      var s := NatToString(n);
      assert s[..|s| - 1] == NatToString(n / 10);
      ParseNatToString(n / 10);
    }
  }

  /** `str` of an integer reads back as that integer. */
  lemma IntToStringRoundTrip(i: int)
    ensures ParseInt(IntToString(i)) == Some(i)
  {
    var s := IntToString(i);
    if i < 0 {
      ParseNatToString(-i);
      assert s[1..] == NatToString(-i);
    } else {
      ParseNatToString(i);
      assert s[0] != '-';
    }
  }

  /** Distinct years have distinct `str` keys. */
  lemma IntToStringInjective(a: int, b: int)
    requires IntToString(a) == IntToString(b)
    ensures a == b
  {
    IntToStringRoundTrip(a);
    IntToStringRoundTrip(b);
  }

  /** A period key splits back into the year and month it was formed from. */
  lemma PeriodKeyRoundTrip(year: int, month: int)
    requires 1 <= month <= 12
    ensures ParsePeriodKey(PeriodKey(year, month)) == Some((year, month))
  {
    var k := PeriodKey(year, month);
    assert k[..|k| - 2] == IntToString(year);
    assert k[|k| - 2] == DigitChar(month / 10) && k[|k| - 1] == DigitChar(month % 10);
    IntToStringRoundTrip(year);
  }

  /** Different (year, month) pairs never share a period key. */
  lemma PeriodKeyInjective(y1: int, m1: int, y2: int, m2: int)
    requires 1 <= m1 <= 12 && 1 <= m2 <= 12
    requires PeriodKey(y1, m1) == PeriodKey(y2, m2)
    ensures y1 == y2 && m1 == m2
  {
    PeriodKeyRoundTrip(y1, m1);
    PeriodKeyRoundTrip(y2, m2);
  }

  /** Keys built by appending the same suffix are equal only if the stems are. */
  lemma SuffixCancel(a: string, b: string, suffix: string)
    requires a + suffix == b + suffix
    ensures a == b
  {
    assert |a| == |b|;
    assert a == (a + suffix)[..|a|];
    assert b == (b + suffix)[..|b|];
  }
}
