/** Decimal numerals and the composite keys built from them. Two keys that end in different
    numerals are different, whatever text precedes the last separator. */
module Decimal {

  function Digit(n: nat): char
    requires n < 10
  {
    '0' + n as char
  }

  function Dec(n: nat): (s: string)
    ensures s != [] && forall c :: c in s ==> '0' <= c <= '9'
  {
    if n < 10 then [Digit(n)] else Dec(n / 10) + [Digit(n % 10)]
  }

  lemma {:induction false} DecInjective(m: nat, n: nat)
    requires Dec(m) == Dec(n)
    ensures m == n
  {
    var a, b := Dec(m), Dec(n);
    assert a[|a| - 1] == Digit(m % 10) && b[|b| - 1] == Digit(n % 10);
    assert m >= 10 <==> |a| > 1;
    assert n >= 10 <==> |b| > 1;
    if m >= 10 {
      assert a[..|a| - 1] == Dec(m / 10) && b[..|b| - 1] == Dec(n / 10);
      DecInjective(m / 10, n / 10);
    }
  }

  lemma DigitsAfterColon(p: string, n: nat, s: string, i: nat)
    requires s == p + ":" + Dec(n) && |p| < i < |s|
    ensures s[i] != ':'
  {
    assert s[i] == Dec(n)[i - |p| - 1] && Dec(n)[i - |p| - 1] in Dec(n);
  }

  /** `prefix:numeral` determines its numeral: the colon is the last one in the string. */
  lemma LastNumeral(p: string, m: nat, q: string, n: nat)
    requires p + ":" + Dec(m) == q + ":" + Dec(n)
    ensures m == n
  {
    var s, t := p + ":" + Dec(m), q + ":" + Dec(n);
    assert s[|p|] == ':' && t[|q|] == ':';
    if |p| < |q| { DigitsAfterColon(p, m, s, |q|); }
    if |q| < |p| { DigitsAfterColon(q, n, t, |p|); }
    assert s[|p| + 1..] == Dec(m) && t[|q| + 1..] == Dec(n);
    DecInjective(m, n);
  }
}
