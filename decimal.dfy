/** Decimal rendering of a natural number, as a JavaScript template literal
    renders a non-negative integer index. */
module Decimal {

  function DigitChar(d: nat): (c: char)
    requires d < 10
    ensures c as int == '0' as int + d
  {
    ('0' as int + d) as char
  }

  /** The shortest decimal numeral of `n`, most significant digit first. */
  function NatToString(n: nat): (s: string)
    ensures |s| >= 1
    ensures n < 10 <==> |s| == 1
    ensures forall i :: 0 <= i < |s| ==> '0' <= s[i] <= '9'
    ensures n > 0 ==> s[0] != '0'
    decreases n
  {
    if n < 10 then [DigitChar(n)] else NatToString(n / 10) + [DigitChar(n % 10)]
  }

  /** The number a string of decimal digits denotes, most significant digit
      first. */
  function DigitsValue(s: string): nat
    requires forall i :: 0 <= i < |s| ==> '0' <= s[i] <= '9'
  {
    if s == [] then 0 else 10 * DigitsValue(s[..|s| - 1]) + (s[|s| - 1] as int - '0' as int)
  }

  /** The numeral denotes the number it renders. */
  lemma {:induction false} NatToStringValue(n: nat)
    ensures DigitsValue(NatToString(n)) == n
  {
    var s := NatToString(n);
    if n >= 10 {
      var prefix := NatToString(n / 10);
      assert s == prefix + [DigitChar(n % 10)];
      assert s[..|s| - 1] == prefix;
      NatToStringValue(n / 10);
    } else {
      assert s[..|s| - 1] == [];
    }
  }

  /** Two numbers have the same numeral exactly when they are equal. */
  lemma {:induction false} NatToStringInjective(a: nat, b: nat)
    ensures NatToString(a) == NatToString(b) <==> a == b
  {
    if NatToString(a) == NatToString(b) {
      if a < 10 {
        assert NatToString(b)[0] == DigitChar(a);
      } else {
        var sa, sb := NatToString(a / 10), NatToString(b / 10);
        assert NatToString(a) == sa + [DigitChar(a % 10)];
        assert NatToString(b) == sb + [DigitChar(b % 10)];
        assert |sa| == |sb|;
        assert sa == NatToString(a)[..|sa|];
        assert sb == NatToString(b)[..|sb|];
        assert DigitChar(a % 10) == NatToString(a)[|sa|];
        assert DigitChar(b % 10) == NatToString(b)[|sb|];
        NatToStringInjective(a / 10, b / 10);
      }
    }
  }
}
