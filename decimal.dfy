/**
 * Kotlin's `Long.toString()` as used in the storage keys "$clientId.$state.field":
 * an optional '-' followed by the decimal digits. Only what the keys need is
 * proved: the rendering never contains '.', and it is injective.
 */
module Decimal {

  function Digit(d: nat): (c: char)
    requires d < 10
    ensures '0' <= c <= '9'
  {
    "0123456789"[d]
  }

  function DigitValue(c: char): nat
    requires '0' <= c <= '9'
  {
    (c as int - '0' as int) as nat
  }

  predicate AllDigits(s: string)
  {
    forall i :: 0 <= i < |s| ==> '0' <= s[i] <= '9'
  }

  function NatToString(n: nat): (s: string)
    ensures |s| >= 1 && AllDigits(s)
  {
    if n < 10 then [Digit(n)] else NatToString(n / 10) + [Digit(n % 10)]
  }

  /** `n.toString()` for a (64-bit) Long. */
  function IntToString(n: int): (s: string)
  {
    if n < 0 then "-" + NatToString(-n) else NatToString(n)
  }

  /** The inverse of NatToString on non-empty digit strings. */
  function ParseDigits(s: string): nat
    requires |s| >= 1 && AllDigits(s)
  {
    if |s| == 1 then DigitValue(s[0])
    else ParseDigits(s[..|s| - 1]) * 10 + DigitValue(s[|s| - 1])
  }

  lemma {:induction false} ParseNatToString(n: nat)
    ensures ParseDigits(NatToString(n)) == n
  {
    if n >= 10 {
      var s := NatToString(n);
      assert s[..|s| - 1] == NatToString(n / 10);
      ParseNatToString(n / 10);
    }
  }

  /** Different Long values render differently, so composite keys never collide on the state part. */
  lemma LeadingMinus(n: int)
    ensures IntToString(n)[0] == '-' <==> n < 0
  {
    if n >= 0 { assert '0' <= NatToString(n)[0] <= '9'; }
  }

  lemma NegativeDigits(n: int)
    requires n < 0
    ensures IntToString(n)[1..] == NatToString(-n)
  {
    var t := NatToString(-n);
    assert ("-" + t)[1..] == t;
  }

  lemma {:induction false} NatToStringInjective(a: nat, b: nat)
    requires NatToString(a) == NatToString(b)
    ensures a == b
  {
    ParseNatToString(a);
    ParseNatToString(b);
  }

  lemma IntToStringInjective(a: int, b: int)
    requires IntToString(a) == IntToString(b)
    ensures a == b
  {
    LeadingMinus(a);
    LeadingMinus(b);
    if a < 0 {
      assert b < 0;
      NegativeDigits(a);
      NegativeDigits(b);
      NatToStringInjective(-a, -b);
    } else {
      assert b >= 0 && NatToString(a) == NatToString(b);
      NatToStringInjective(a, b);
    }
  }

  lemma IntToStringHasNoDot(n: int)
    ensures '.' !in IntToString(n)
  {
    var s := IntToString(n);
    forall i | 0 <= i < |s| ensures s[i] != '.' {
      if n < 0 && i > 0 { assert s[i] == NatToString(-n)[i - 1]; }
    }
  }
}
