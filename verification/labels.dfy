/**
  The chart labels of the yearly grouping (main.py, line 77): year `k` is
  labelled `f"Ano {k}"`, the word "Ano", a space and `k` in decimal.
*/
module Labels {

  const Digits: string := "0123456789"

  predicate IsDigit(c: char)
  {
    '0' <= c <= '9'
  }

  /** Decimal rendering of a natural number, as `str(n)` prints it: no sign, no leading zero. */
  function Decimal(n: nat): (s: string)
    ensures |s| >= 1
    ensures forall i :: 0 <= i < |s| ==> IsDigit(s[i])
    ensures s[0] == '0' ==> n == 0
  {
    if n < 10 then [Digits[n]] else Decimal(n / 10) + [Digits[n % 10]]
  }

  /** The value of a string of decimal digits. */
  function ParseDecimal(s: string): nat
    requires forall i :: 0 <= i < |s| ==> IsDigit(s[i])
  {
    if |s| == 0 then 0
    else
      assert IsDigit(s[|s| - 1]);
      ParseDecimal(s[..|s| - 1]) * 10 + ((s[|s| - 1] as int) - ('0' as int))
  }

  /** Reading back the decimal rendering gives the number: distinct years get distinct labels. */
  lemma {:induction false} ParseDecimalRoundTrip(n: nat)
    ensures ParseDecimal(Decimal(n)) == n
  {
    var s := Decimal(n);
    if n >= 10 {
      ParseDecimalRoundTrip(n / 10);
      assert s[..|s| - 1] == Decimal(n / 10);
    }
  }

  /** `f"Ano {year}"`. */
  function YearLabel(year: nat): (text: string)
    ensures |text| >= 5 && text[..4] == "Ano "
    ensures forall i :: 4 <= i < |text| ==> IsDigit(text[i])
  {
    "Ano " + Decimal(year)
  }

  /** Two years share a label only if they are the same year. */
  lemma YearLabelInjective(a: nat, b: nat)
    requires YearLabel(a) == YearLabel(b)
    ensures a == b
  {
    assert Decimal(a) == YearLabel(a)[4..];
    assert Decimal(b) == YearLabel(b)[4..];
    ParseDecimalRoundTrip(a);
    ParseDecimalRoundTrip(b);
  }
}
