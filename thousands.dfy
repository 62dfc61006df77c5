/** The total-sales KPI text, `f"{total_sales:,.0f}"`: the decimal numeral
    of a whole number with a comma between every group of three digits,
    counted from the right.
 */
module Thousands {

  predicate IsDigit(c: char)
  {
    '0' <= c <= '9'
  }

  predicate AllDigits(s: string)
  {
    forall i :: 0 <= i < |s| ==> IsDigit(s[i])
  }

  function DigitChar(d: nat): (c: char)
    requires d < 10
    ensures IsDigit(c)
  {
    ('0' as int + d) as char
  }

  function DigitValue(c: char): nat
    requires IsDigit(c)
  {
    c as int - '0' as int
  }

  /** `str(n)`: the decimal numeral, without leading zeros. */
  function Numeral(n: nat): (s: string)
    ensures |s| >= 1 && AllDigits(s)
    ensures s[0] == '0' ==> n == 0
  {
    if n < 10 then [DigitChar(n)] else Numeral(n / 10) + [DigitChar(n % 10)]
  }

  /** `int(s)` for a string of decimal digits. */
  function ValueOf(s: string): nat
    requires AllDigits(s)
  {
    if s == [] then 0 else 10 * ValueOf(s[..|s| - 1]) + DigitValue(s[|s| - 1])
  }

  /** Reading the numeral back gives the number. */
  lemma {:induction false} NumeralValue(n: nat)
    ensures ValueOf(Numeral(n)) == n
  {
    if n >= 10 {
      NumeralValue(n / 10);
      var s := Numeral(n);
      assert s[..|s| - 1] == Numeral(n / 10);
    }
  }

  /** A number below 1000 as exactly three digits, zero-padded. */
  function Pad3(m: nat): (s: string)
    requires m < 1000
    ensures |s| == 3 && AllDigits(s)
  {
    [DigitChar(m / 100), DigitChar(m / 10 % 10), DigitChar(m % 10)]
  }

  /** Every comma removed. */
  function StripCommas(s: string): string
  {
    if s == [] then [] else (if s[0] == ',' then [] else [s[0]]) + StripCommas(s[1..])
  }

  /** The shape of a grouped numeral: a leading group of one to three
      digits, then groups of a comma and exactly three digits. */
  predicate WellGrouped(s: string)
  {
    if |s| <= 3 then 1 <= |s| && AllDigits(s)
    else s[|s| - 4] == ',' && AllDigits(s[|s| - 3..]) && WellGrouped(s[..|s| - 4])
  }

  /** `f"{n:,.0f}"` for a whole number `n`. */
  function WithCommas(n: nat): (s: string)
    ensures WellGrouped(s)
    ensures StripCommas(s) == Numeral(n)
    ensures s[0] == '0' ==> n == 0
  {
    if n < 1000 then
      ShortNumeral(n);
      Numeral(n)
    else
      var lead := WithCommas(n / 1000);
      AppendGroup(n, lead);
      lead + "," + Pad3(n % 1000)
  }

  /** Below 1000 the numeral is a single group. */
  lemma ShortNumeral(n: nat)
    requires n < 1000
    ensures WellGrouped(Numeral(n)) && StripCommas(Numeral(n)) == Numeral(n)
  {
    if n >= 10 {
      if n / 10 >= 10 {
        assert n / 10 / 10 < 10;
      }
      assert |Numeral(n / 10)| <= 2;
    }
    DigitsHaveNoCommas(Numeral(n));
  }

  /** One more group of three digits after a well-grouped leading part. */
  lemma AppendGroup(n: nat, lead: string)
    requires n >= 1000
    requires WellGrouped(lead) && StripCommas(lead) == Numeral(n / 1000)
    requires lead[0] == '0' ==> n / 1000 == 0
    ensures WellGrouped(lead + "," + Pad3(n % 1000))
    ensures StripCommas(lead + "," + Pad3(n % 1000)) == Numeral(n)
    ensures (lead + "," + Pad3(n % 1000))[0] != '0'
  {
    var p := Pad3(n % 1000);
    var s := lead + "," + p;
    assert s[..|s| - 4] == lead && s[|s| - 4] == ',' && s[|s| - 3..] == p;
    assert s[0] == lead[0];
    assert s == lead + ("," + p);
    StripCommasAppend(lead, "," + p);
    CommaGroup(p);
    NumeralSplit(n);
  }

  /** A comma followed by digits strips to the digits. */
  lemma CommaGroup(p: string)
    requires AllDigits(p)
    ensures StripCommas("," + p) == p
  {
    assert ("," + p)[1..] == p;
    DigitsHaveNoCommas(p);
  }

  /** Deleting the commas and reading the digits gives the total back. */
  lemma WithCommasValue(n: nat)
    ensures AllDigits(StripCommas(WithCommas(n)))
    ensures ValueOf(StripCommas(WithCommas(n))) == n
  {
    NumeralValue(n);
  }

  lemma {:induction false} DigitsHaveNoCommas(s: string)
    requires AllDigits(s)
    ensures StripCommas(s) == s
  {
    if s != [] {
      DigitsHaveNoCommas(s[1..]);
      assert s == [s[0]] + s[1..];
    }
  }

  lemma {:induction false} StripCommasAppend(a: string, b: string)
    ensures StripCommas(a + b) == StripCommas(a) + StripCommas(b)
  {
    if a != [] {
      StripCommasAppend(a[1..], b);
      assert (a + b)[1..] == a[1..] + b;
    } else {
      assert a + b == b;
    }
  }

  /** The last three digits of a numeral of four or more digits are the
      zero-padded remainder modulo 1000. */
  lemma NumeralSplit(n: nat)
    requires n >= 1000
    ensures Numeral(n) == Numeral(n / 1000) + Pad3(n % 1000)
  {
    var q, m := n / 1000, n % 1000;
    assert n / 10 == 100 * q + m / 10;
    assert n / 100 == 10 * q + m / 100;
    assert n / 10 / 10 == n / 100;
    assert n / 100 / 10 == q;
    assert n / 100 % 10 == m / 100;
    assert n / 10 % 10 == m / 10 % 10;
    assert n % 10 == m % 10;
    calc {
      Numeral(n);
      Numeral(n / 10) + [DigitChar(n % 10)];
      Numeral(n / 100) + [DigitChar(n / 10 % 10)] + [DigitChar(n % 10)];
      Numeral(q) + [DigitChar(n / 100 % 10)] + [DigitChar(n / 10 % 10)] + [DigitChar(n % 10)];
      Numeral(q) + Pad3(m);
    }
  }
}
