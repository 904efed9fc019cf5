/**
 * How a JavaScript template literal turns the values the component interpolates
 * into text: strings verbatim, integral numbers in decimal, and a missing value
 * as the literal word `undefined`. No escaping of any kind is applied.
 */
module JsText {
  import opened Wrappers

  /** A value that can appear inside `${...}` in the component: string, number or undefined. */
  datatype JsValue = Str(s: string) | Num(n: int) | Undefined

  const UndefinedText: string := "undefined"

  predicate IsDigit(c: char) { '0' <= c <= '9' }

  predicate IsDigits(s: string) { forall i :: 0 <= i < |s| ==> IsDigit(s[i]) }

  /** Text made only of digits and minus signs: what a number renders to. */
  predicate IsNumeral(s: string) { forall i :: 0 <= i < |s| ==> IsDigit(s[i]) || s[i] == '-' }

  function DigitChar(d: nat): (c: char)
    requires d < 10
    ensures IsDigit(c) && c as int - '0' as int == d
  {
    ('0' as int + d) as char
  }

  /** Decimal rendering of a natural number: digits only, and no leading zero. */
  function NatToString(n: nat): (s: string)
    ensures |s| > 0 && IsDigits(s)
    ensures s[0] == '0' <==> n == 0
    ensures n == 0 ==> s == "0"
  {
    if n < 10 then [DigitChar(n)] else NatToString(n / 10) + [DigitChar(n % 10)]
  }

  /** Reads a string of decimal digits back as a number. */
  function ParseNat(s: string): nat
    requires IsDigits(s)
  {
    if s == [] then 0
    else
      assert IsDigit(s[|s| - 1]);
      var d: nat := s[|s| - 1] as int - '0' as int;
      ParseNat(s[..|s| - 1]) * 10 + d
  }

  lemma {:induction false} ParseNatToString(n: nat)
    ensures ParseNat(NatToString(n)) == n
  {
    if n >= 10 {
      var a := NatToString(n / 10);
      var s := a + [DigitChar(n % 10)];
      assert s[..|s| - 1] == a;
      ParseNatToString(n / 10);
    }
  }

  /** `${n}` for an integral JavaScript number. */
  function IntToString(n: int): (s: string)
    ensures |s| > 0 && IsNumeral(s)
    ensures s[0] == '-' <==> n < 0
  {
    if n < 0 then "-" + NatToString(-n) else NatToString(n)
  }

  function ParseInt(s: string): int
    requires IsNumeral(s)
  {
    if s != [] && s[0] == '-' && IsDigits(s[1..]) then -(ParseNat(s[1..]) as int)
    else if IsDigits(s) then ParseNat(s)
    else 0
  }

  /** The decimal rendering of every integer reads back as that integer. */
  lemma IntToStringRoundTrip(n: int)
    ensures ParseInt(IntToString(n)) == n
  {
    if n < 0 {
      assert IntToString(n)[1..] == NatToString(-n);
      ParseNatToString(-n);
    } else {
      ParseNatToString(n);
    }
  }

  /** Distinct integers render to distinct text. */
  lemma IntToStringInjective(m: int, n: int)
    ensures IntToString(m) == IntToString(n) ==> m == n
  {
    IntToStringRoundTrip(m);
    IntToStringRoundTrip(n);
  }

  /** `${v}`: the text a template literal produces for `v`. */
  function ToText(v: JsValue): (s: string)
    ensures v.Undefined? ==> s == UndefinedText
    ensures v.Str? ==> s == v.s
    ensures v.Num? ==> IsNumeral(s) && ParseInt(s) == v.n
  {
    match v
    case Str(s) => s
    case Num(n) => IntToStringRoundTrip(n); IntToString(n)
    case Undefined => UndefinedText
  }

  /** An optional number, `undefined` when absent. */
  function OfNum(o: Option<int>): JsValue
  {
    match o
    case None => Undefined
    case Some(n) => Num(n)
  }

  /** An optional string, `undefined` when absent. */
  function OfStr(o: Option<string>): JsValue
  {
    match o
    case None => Undefined
    case Some(s) => Str(s)
  }
}
