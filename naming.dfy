/**
 * The monthly collection name of a reading: "hvac_readings_" followed by the
 * timestamp formatted with the Go layout "2006_01", that is the year padded
 * with zeros to at least four digits, an underscore and the month padded to
 * two digits.
 */
module Naming {

  import opened Wrappers
  import opened Records

  const Prefix: string := "hvac_readings_"

  predicate IsDigit(c: char) {
    '0' <= c <= '9'
  }

  predicate AllDigits(s: string) {
    forall i | 0 <= i < |s| :: IsDigit(s[i])
  }

  function Digit(d: nat): (c: char)
    requires d < 10
    ensures IsDigit(c)
  {
    ('0' as int + d) as char
  }

  function DigitValue(c: char): nat {
    if IsDigit(c) then c as int - '0' as int else 0
  }

  /** The decimal digits of n, most significant first, without padding. */
  function Decimal(n: nat): string
    decreases n
  {
    if n < 10 then [Digit(n)] else Decimal(n / 10) + [Digit(n % 10)]
  }

  function Zeros(k: nat): string {
    seq(k, _ => '0')
  }

  /** The digits of n left-padded with '0' to at least width characters. */
  function ZeroPadded(n: nat, width: nat): string {
    var d := Decimal(n);
    if |d| < width then Zeros(width - |d|) + d else d
  }

  /** getMonthlyCollectionName */
  function CollectionName(t: Timestamp): string {
    Prefix + ZeroPadded(t.year, 4) + "_" + ZeroPadded(t.month, 2)
  }

  /** The number a string of decimal digits denotes. */
  function DigitsValue(s: string): nat
    decreases |s|
  {
    if |s| == 0 then 0 else DigitsValue(s[..|s| - 1]) * 10 + DigitValue(s[|s| - 1])
  }

  /**
   * Reads a collection name back: the prefix, at least four year digits, an
   * underscore and two month digits naming a month.
   */
  function ParseCollectionName(name: string): Option<Timestamp> {
    if |name| < |Prefix| + 7 || name[..|Prefix|] != Prefix || name[|name| - 3] != '_' then None
    else
      var year := name[|Prefix|..|name| - 3];
      var month := name[|name| - 2..];
      if !AllDigits(year) || !AllDigits(month) then None
      else
        var m := DigitsValue(month);
        if 1 <= m <= 12 then Some(Timestamp(DigitsValue(year), m)) else None
  }

  lemma {:induction false} DecimalDenotes(n: nat)
    ensures AllDigits(Decimal(n)) && DigitsValue(Decimal(n)) == n && |Decimal(n)| >= 1
    decreases n
  {
    if n >= 10 {
      DecimalDenotes(n / 10);
      var s := Decimal(n);
      assert s[..|s| - 1] == Decimal(n / 10);
    }
  }

  lemma {:induction false} ZerosDenoteNothing(k: nat, s: string)
    ensures DigitsValue(Zeros(k) + s) == DigitsValue(s)
    decreases |s|, k
  {
    if |s| == 0 {
      assert Zeros(k) + s == Zeros(k);
      if k > 0 {
        assert Zeros(k)[..k - 1] == Zeros(k - 1) + [];
        ZerosDenoteNothing(k - 1, []);
      }
    } else {
      var t := Zeros(k) + s;
      assert t[..|t| - 1] == Zeros(k) + s[..|s| - 1];
      ZerosDenoteNothing(k, s[..|s| - 1]);
    }
  }

  lemma ZeroPaddedDenotes(n: nat, width: nat)
    ensures AllDigits(ZeroPadded(n, width))
    ensures DigitsValue(ZeroPadded(n, width)) == n
    ensures |ZeroPadded(n, width)| >= width
  {
    var d := Decimal(n);
    DecimalDenotes(n);
    if |d| < width {
      ZerosDenoteNothing(width - |d|, d);
      var p := Zeros(width - |d|) + d;
      forall i | 0 <= i < |p| ensures IsDigit(p[i]) {
        if i >= width - |d| { assert p[i] == d[i - (width - |d|)]; }
      }
    }
  }

  /** A month always takes exactly two characters. */
  lemma MonthTwoDigits(m: Month)
    ensures ZeroPadded(m, 2) == [Digit(m / 10), Digit(m % 10)]
  {
    if m >= 10 {
      assert Decimal(m) == Decimal(m / 10) + [Digit(m % 10)];
    } else {
      assert Zeros(1) == ['0'];
    }
  }

  /** Reading a collection name back yields the timestamp's year and month. */
  lemma CollectionNameRoundTrip(t: Timestamp)
    ensures ParseCollectionName(CollectionName(t)) == Some(t)
  {
    var y := ZeroPadded(t.year, 4);
    var m := ZeroPadded(t.month, 2);
    ZeroPaddedDenotes(t.year, 4);
    ZeroPaddedDenotes(t.month, 2);
    MonthTwoDigits(t.month);
    var name := CollectionName(t);
    assert name == Prefix + y + "_" + m;
    assert |m| == 2 && |y| >= 4;
    assert name[..|Prefix|] == Prefix;
    assert name[|name| - 3] == '_';
    assert name[|Prefix|..|name| - 3] == y;
    assert name[|name| - 2..] == m;
  }

  /** Distinct months, in any years, never share a collection. */
  lemma CollectionNameInjective(a: Timestamp, b: Timestamp)
    requires CollectionName(a) == CollectionName(b)
    ensures a == b
  {
    CollectionNameRoundTrip(a);
    CollectionNameRoundTrip(b);
  }

  /** The four digits of a year below 10000, most significant first. */
  function FourDigits(y: nat): string
    requires y <= 9999
  {
    [Digit(y / 1000), Digit(y / 100 % 10), Digit(y / 10 % 10), Digit(y % 10)]
  }

  lemma {:induction false} DecimalTwo(n: nat)
    requires 10 <= n < 100
    ensures Decimal(n) == [Digit(n / 10), Digit(n % 10)]
  {
  }

  lemma {:induction false} DecimalThree(n: nat)
    requires 100 <= n < 1000
    ensures Decimal(n) == [Digit(n / 100), Digit(n / 10 % 10), Digit(n % 10)]
  {
    DecimalTwo(n / 10);
  }

  lemma {:induction false} DecimalFour(n: nat)
    requires 1000 <= n < 10000
    ensures Decimal(n) == FourDigits(n)
  {
    DecimalThree(n / 10);
  }

  /** A year below 10000 is padded to exactly four digits. */
  lemma YearFourDigits(y: nat)
    requires y <= 9999
    ensures ZeroPadded(y, 4) == FourDigits(y)
  {
    if y < 10 {
      assert Zeros(3) == ['0', '0', '0'];
    } else if y < 100 {
      DecimalTwo(y);
      assert Zeros(2) == ['0', '0'];
    } else if y < 1000 {
      DecimalThree(y);
      assert Zeros(1) == ['0'];
    } else {
      DecimalFour(y);
    }
  }

  /** For years 0..9999 the name is the prefix, four year digits, '_' and two month digits. */
  lemma CollectionNameLayout(t: Timestamp)
    requires t.year <= 9999
    ensures CollectionName(t) == Prefix + FourDigits(t.year) + "_" + [Digit(t.month / 10), Digit(t.month % 10)]
    ensures |CollectionName(t)| == 21
  {
    MonthTwoDigits(t.month);
    YearFourDigits(t.year);
  }
}
