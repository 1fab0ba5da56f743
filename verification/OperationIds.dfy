/** Printed operation ids: "op-", the wall clock, "-" and a decimal counter. */
module OperationIds {

  function DigitChar(d: nat): char
    requires d < 10
  {
    ('0' as int + d) as char
  }

  function Decimal(n: nat): string {
    if n < 10 then [DigitChar(n)] else Decimal(n / 10) + [DigitChar(n % 10)]
  }

  function OperationId(clock: string, counter: nat): string {
    "op-" + clock + "-" + Decimal(counter)
  }

  lemma {:induction false} DecimalHasNoDash(n: nat)
    ensures '-' !in Decimal(n)
  {
    if n >= 10 {
      DecimalHasNoDash(n / 10);
    }
  }

  lemma {:induction false} DecimalInjective(m: nat, n: nat)
    requires Decimal(m) == Decimal(n)
    ensures m == n
    decreases m
  {
    var p, q := Decimal(m), Decimal(n);
    assert p[|p| - 1] == DigitChar(m % 10) && q[|q| - 1] == DigitChar(n % 10);
    NonEmpty(m / 10);
    NonEmpty(n / 10);
    if m >= 10 {
      assert Decimal(m / 10) == p[..|p| - 1] == q[..|q| - 1] == Decimal(n / 10);
      DecimalInjective(m / 10, n / 10);
    }
  }

  lemma NonEmpty(n: nat)
    ensures |Decimal(n)| >= 1
  {
  }

  lemma ShorterSuffixShowsDash(a: string, m: nat, b: string, n: nat)
    requires OperationId(a, m) == OperationId(b, n) && |Decimal(m)| < |Decimal(n)|
    ensures '-' in Decimal(n)
  {
    var s, k := OperationId(a, m), |Decimal(m)|;
    assert s[|s| - k - 1] == '-';
    assert s[|s| - k - 1] == Decimal(n)[|Decimal(n)| - k - 1];
  }

  /** The counter can be read off the printed id, whatever the clock says. */
  lemma OperationIdInjective(a: string, m: nat, b: string, n: nat)
    requires OperationId(a, m) == OperationId(b, n)
    ensures m == n
  {
    DecimalHasNoDash(m);
    DecimalHasNoDash(n);
    if |Decimal(m)| < |Decimal(n)| {
      ShorterSuffixShowsDash(a, m, b, n);
      assert false;
    }
    if |Decimal(n)| < |Decimal(m)| {
      ShorterSuffixShowsDash(b, n, a, m);
      assert false;
    }
    var s, k := OperationId(a, m), |Decimal(m)|;
    assert Decimal(m) == s[|s| - k..] == Decimal(n);
    DecimalInjective(m, n);
  }
}
