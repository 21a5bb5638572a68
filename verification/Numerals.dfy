/** Unsigned numerals, printed by formatting and read by the standard library's parser. */
module Numerals {
  import opened Outcome

  function Min(a: int, b: int): int { if a < b then a else b }

  function DigitValue(code: int, radix: nat): Option<nat> {
    var value := if 48 <= code <= 57 then code - 48
                 else if 97 <= code <= 122 then code - 87
                 else if 65 <= code <= 90 then code - 55
                 else -1;
    if 0 <= value < radix then Some(value) else None
  }

  function DigitsValue(codes: seq<int>, radix: nat): Option<nat> {
    if codes == [] then Some(0)
    else
      var last := |codes| - 1;
      match (DigitsValue(codes[..last], radix), DigitValue(codes[last], radix))
      case (Some(high), Some(low)) => Some(high * radix + low)
      case _ => None
  }

  /** An optional plus sign, then at least one digit; none above `max`. */
  function ParseUnsigned(codes: seq<int>, radix: nat, max: nat): Option<nat> {
    var digits := if |codes| > 1 && codes[0] == 43 then codes[1..] else codes;
    if digits == [] then None
    else match DigitsValue(digits, radix)
      case None => None
      case Some(value) => if value <= max then Some(value) else None
  }

  function Codes(s: string): seq<int> {
    seq(|s|, i requires 0 <= i < |s| => s[i] as int)
  }

  function Digit(value: nat): (code: int)
    requires value < 16
    ensures DigitValue(code, 16) == Some(value)
    ensures value < 10 ==> DigitValue(code, 10) == Some(value) && 48 <= code <= 57
    ensures 48 <= code <= 57 || 97 <= code <= 102
  {
    if value < 10 then 48 + value else 87 + value
  }

  function Numeral(n: nat, radix: nat): (codes: seq<int>)
    requires radix == 10 || radix == 16
    ensures codes != []
    ensures forall i :: 0 <= i < |codes| ==> 48 <= codes[i] <= 57 || 97 <= codes[i] <= 102
    ensures radix == 10 ==> forall i :: 0 <= i < |codes| ==> 48 <= codes[i] <= 57
  {
    if n < radix then [Digit(n)]
    else if radix == 10 then Numeral(n / 10, 10) + [Digit(n % 10)]
    else Numeral(n / 16, 16) + [Digit(n % 16)]
  }

  lemma {:induction false} NumeralValue(n: nat, radix: nat)
    requires radix == 10 || radix == 16
    ensures DigitsValue(Numeral(n, radix), radix) == Some(n)
  {
    var codes := Numeral(n, radix);
    var last := |codes| - 1;
    if n < radix {
      assert codes[..last] == [];
    } else {
      var high := if radix == 10 then n / 10 else n / 16;
      NumeralValue(high, radix);
      assert codes[..last] == Numeral(high, radix);
    }
  }

  /** Every number that fits reads back from its numeral, in both radices the transport uses. */
  lemma NumeralReads(n: nat, radix: nat, max: nat)
    requires (radix == 10 || radix == 16) && n <= max
    ensures ParseUnsigned(Numeral(n, radix), radix, max) == Some(n)
  {
    NumeralValue(n, radix);
  }

  function Decimal(n: nat): (s: string)
    ensures s != "" && forall i :: 0 <= i < |s| ==> '0' <= s[i] <= '9'
    ensures Codes(s) == Numeral(n, 10)
  {
    var codes := Numeral(n, 10);
    seq(|codes|, i requires 0 <= i < |codes| => codes[i] as char)
  }

  lemma DecimalInjective(m: nat, n: nat)
    requires Decimal(m) == Decimal(n)
    ensures m == n
  {
    NumeralValue(m, 10);
    NumeralValue(n, 10);
  }
}
