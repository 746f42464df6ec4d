/** Decimal numerals as `format!` prints them and `parse` reads them. */
module Decimals {
  predicate IsDigit(c: char) {
    '0' <= c <= '9'
  }

  function Digit(d: nat): (c: char)
    requires d < 10
    ensures IsDigit(c) && c as int - '0' as int == d
  {
    '0' + d as char
  }

  function Decimal(n: nat): (s: string)
    ensures |s| > 0 && forall c | c in s :: IsDigit(c)
    ensures s[0] == '0' <==> n == 0
  {
    if n < 10 then [Digit(n)] else Decimal(n / 10) + [Digit(n % 10)]
  }

  /** The value of a digit string; leading zeros are read and ignored. */
  function Value(s: string): nat
    requires forall c | c in s :: IsDigit(c)
  {
    if s == [] then 0
    else
      assert IsDigit(s[|s| - 1]);
      10 * Value(s[..|s| - 1]) + (s[|s| - 1] as int - '0' as int)
  }

  lemma {:induction false} ValueOfDecimal(n: nat)
    ensures Value(Decimal(n)) == n
  {
    if n >= 10 {
      var s := Decimal(n);
      assert s[..|s| - 1] == Decimal(n / 10);
      ValueOfDecimal(n / 10);
    } else {
      assert Decimal(n)[..0] == [];
      assert Value([]) == 0;
    }
  }

  lemma DecimalInjective(m: nat, n: nat)
    ensures Decimal(m) == Decimal(n) <==> m == n
  {
    ValueOfDecimal(m);
    ValueOfDecimal(n);
  }

  /** Appending a digit to a positive number's numeral, and to zero's digits. */
  lemma OneMoreDigit(n: nat, c: char)
    requires IsDigit(c)
    ensures Decimal(10 * n + (c as int - '0' as int)) == if n > 0 then Decimal(n) + [c] else [c]
  {
    var d := c as int - '0' as int;
    assert (10 * n + d) / 10 == n && (10 * n + d) % 10 == d && Digit(d) == c;
  }

  /** The canonical numerals are exactly the digit strings without a superfluous zero. */
  lemma {:induction false} DecimalOfValue(s: string)
    requires s != [] && forall c | c in s :: IsDigit(c)
    ensures Decimal(Value(s)) == s <==> |s| == 1 || s[0] != '0'
  {
    var init, last := s[..|s| - 1], s[|s| - 1];
    assert last in s && s == init + [last];
    OneMoreDigit(Value(init), last);
    if init != [] {
      assert forall c | c in init :: c in s;
      DecimalOfValue(init);
      assert Decimal(Value(init))[0] == '0' <==> Value(init) == 0;
    }
  }

  lemma {:induction false} LongerNumerals(m: nat, n: nat)
    requires m <= n
    ensures |Decimal(m)| <= |Decimal(n)|
  {
    if m >= 10 {
      LongerNumerals(m / 10, n / 10);
    }
  }

  /** Adding at most 198 to a positive number costs at most two more digits. */
  lemma TwoMoreDigits(n: nat, more: nat)
    requires 0 < n && more <= 198
    ensures |Decimal(n)| <= |Decimal(n + more)| <= |Decimal(n)| + 2
  {
    LongerNumerals(n, n + more);
    LongerNumerals(n + more, 100 * n + 99);
    OneMoreDigit(n, '9');
    OneMoreDigit(10 * n + 9, '9');
  }

  function Pow10(k: nat): nat {
    if k == 0 then 1 else 10 * Pow10(k - 1)
  }

  lemma Pow10Of19()
    ensures Pow10(19) == 10_000_000_000_000_000_000
  {
    assert Pow10(3) == 1_000;
    assert Pow10(5) == 100_000;
    assert Pow10(7) == 10_000_000;
    assert Pow10(9) == 1_000_000_000;
    assert Pow10(11) == 100_000_000_000;
    assert Pow10(13) == 10_000_000_000_000;
    assert Pow10(15) == 1_000_000_000_000_000;
    assert Pow10(17) == 100_000_000_000_000_000;
  }

  lemma {:induction false} NumeralFits(n: nat, k: nat)
    requires k > 0 && n < Pow10(k)
    ensures |Decimal(n)| <= k
  {
    if n >= 10 {
      assert k > 1;
      NumeralFits(n / 10, k - 1);
    }
  }
}
