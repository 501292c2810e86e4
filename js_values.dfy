/**
 * The two pieces of JavaScript value semantics that the asset builder relies on:
 * what `addParam`'s guard sees of an argument, and how `+` renders a port number
 * inside a string concatenation.
 */
module JsValues {

  /** An argument as `addParam` inspects it: either a string, or any other value
      (undefined, null, a number, a boolean, an object), which the guard rejects. */
  datatype JsArg = JsString(s: string) | JsOther

  /** `x && typeof x === 'string'`: a string that is truthy, i.e. not empty. */
  predicate IsNonEmptyString(a: JsArg)
  {
    a.JsString? && a.s != ""
  }

  predicate IsDigit(c: char)
  {
    '0' <= c <= '9'
  }

  predicate AllDigits(s: string)
  {
    forall i :: 0 <= i < |s| ==> IsDigit(s[i])
  }

  function DigitChar(d: nat): (c: char)
    requires d < 10
    ensures IsDigit(c) && c as int - '0' as int == d
  {
    ('0' as int + d) as char
  }

  /**
   * The text JavaScript produces for a non-negative integer below 2^53 (every
   * port number is one) when it is joined to a string with `+`: its decimal
   * digits, most significant first, with no leading zero.
   */
  function NatToDecimal(n: nat): (s: string)
    decreases n
    ensures s != [] && AllDigits(s)
    ensures s[0] == '0' ==> n == 0
    ensures n < 10 <==> |s| == 1
  {
    if n < 10 then [DigitChar(n)] else NatToDecimal(n / 10) + [DigitChar(n % 10)]
  }

  /** Reads a string of decimal digits back as a number; the inverse of `NatToDecimal`. */
  function DecimalValue(s: string): nat
    requires AllDigits(s)
  {
    if s == [] then 0
    else DecimalValue(s[..|s| - 1]) * 10 + (s[|s| - 1] as int - '0' as int)
  }

  /** Reading back the rendered port gives the port: the rendering loses nothing. */
  lemma {:induction false} DecimalRoundTrip(n: nat)
    ensures DecimalValue(NatToDecimal(n)) == n
    decreases n
  {
    if n >= 10 {
      var s := NatToDecimal(n / 10);
      var t := NatToDecimal(n);
      assert t == s + [DigitChar(n % 10)];
      assert t[..|t| - 1] == s;
      DecimalRoundTrip(n / 10);
    }
  }

  /** Distinct ports render to distinct texts. */
  lemma NatToDecimalInjective(m: nat, n: nat)
    ensures NatToDecimal(m) == NatToDecimal(n) <==> m == n
  {
    if NatToDecimal(m) == NatToDecimal(n) {
      DecimalRoundTrip(m);
      DecimalRoundTrip(n);
    }
  }

}
