/**
 * `Number(text)` for the texts a number input hands to its change handler:
 * the empty text (a cleared input, read as 0) or a decimal numeral with an
 * optional leading minus sign and an optional fractional part.
 */
module Numerals {

  predicate IsDigit(c: char) {
    '0' <= c <= '9'
  }

  predicate AllDigits(s: string) {
    forall i :: 0 <= i < |s| ==> IsDigit(s[i])
  }

  /** The value of a run of decimal digits, read left to right. */
  function DigitsValue(s: string): (value: nat)
    requires AllDigits(s)
  {
    if s == [] then 0
    else DigitsValue(s[..|s| - 1]) * 10 + (s[|s| - 1] as int - '0' as int)
  }

  function Pow10(n: nat): (r: nat)
    ensures r >= 1
  {
    if n == 0 then 1 else 10 * Pow10(n - 1)
  }

  /** The position of the first '.', or `|s|` when there is none. */
  function DotIndex(s: string): (k: nat)
    ensures k <= |s|
    ensures k < |s| ==> s[k] == '.'
    ensures forall i :: 0 <= i < k ==> s[i] != '.'
  {
    if s == [] then 0
    else if s[0] == '.' then 0
    else 1 + DotIndex(s[1..])
  }

  /** Digits, optionally followed by '.' and more digits, with at least one digit in all. */
  predicate IsUnsignedNumeral(s: string) {
    var k := DotIndex(s);
    && AllDigits(s[..k])
    && (k < |s| ==> AllDigits(s[k + 1..]))
    && (k > 0 || k + 1 < |s|)
  }

  /** What a number input may pass: empty, or an optionally negative numeral. */
  predicate IsNumberText(s: string) {
    || s == ""
    || IsUnsignedNumeral(s)
    || (|s| > 1 && s[0] == '-' && IsUnsignedNumeral(s[1..]))
  }

  function UnsignedValue(s: string): (value: real)
    requires IsUnsignedNumeral(s)
  {
    var k := DotIndex(s);
    var fraction := if k < |s| then s[k + 1..] else "";
    DigitsValue(s[..k]) as real + DigitsValue(fraction) as real / Pow10(|fraction|) as real
  }

  /** `Number(s)`: the empty text is 0, a numeral its decimal value. */
  function NumberValue(s: string): (value: real)
    requires IsNumberText(s)
  {
    if s == "" then 0.0
    else if IsUnsignedNumeral(s) then UnsignedValue(s)
    else -UnsignedValue(s[1..])
  }

  /** Decimal rendering of a natural number, most significant digit first. */
  function NatText(n: nat): (s: string)
    ensures |s| > 0 && AllDigits(s)
  {
    var digit := ('0' as int + n % 10) as char;
    if n < 10 then [digit] else NatText(n / 10) + [digit]
  }

  lemma {:induction false} DigitsOfNatText(n: nat)
    ensures DigitsValue(NatText(n)) == n
  {
    var s := NatText(n);
    if n >= 10 {
      DigitsOfNatText(n / 10);
      assert s[..|s| - 1] == NatText(n / 10);
    }
  }

  /** Reading back a rendered natural number gives the number. */
  lemma NatTextRoundTrip(n: nat)
    ensures IsNumberText(NatText(n))
    ensures NumberValue(NatText(n)) == n as real
  {
    var s := NatText(n);
    assert DotIndex(s) == |s| by {
      assert DotIndex(s) < |s| ==> !IsDigit(s[DotIndex(s)]);
    }
    assert s[..|s|] == s;
    DigitsOfNatText(n);
  }

  /** A leading minus sign negates the numeral that follows it. */
  lemma NegativeNumeral(s: string)
    requires IsUnsignedNumeral(s) && IsNumberText("-" + s)
    ensures NumberValue("-" + s) == -NumberValue(s)
  {
    var t := "-" + s;
    assert t[1..] == s;
    var k := DotIndex(t);
    assert t[0] == '-';
    assert k > 0;
    assert !IsDigit(t[..k][0]);
    assert !IsUnsignedNumeral(t);
  }
}
