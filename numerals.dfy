/**
  How a string of Roman symbols is read as a number. The converter never
  reads numerals; this module is the yardstick against which its output is
  measured: symbols are summed from left to right, and a symbol immediately
  followed by one of higher value is subtracted instead of added ("IV" is 4).
 */
module Numerals {

  /** The seven Roman symbols. */
  predicate IsRomanSymbol(c: char) {
    c == 'I' || c == 'V' || c == 'X' || c == 'L' || c == 'C' || c == 'D' || c == 'M'
  }

  /** A string made only of Roman symbols (the empty string included). */
  predicate IsNumeral(s: string) {
    forall k :: 0 <= k < |s| ==> IsRomanSymbol(s[k])
  }

  /** The value of one Roman symbol. */
  function SymbolValue(c: char): (v: nat)
    requires IsRomanSymbol(c)
    ensures v in {1, 5, 10, 50, 100, 500, 1000}
  {
    match c
    case 'I' => 1
    case 'V' => 5
    case 'X' => 10
    case 'L' => 50
    case 'C' => 100
    case 'D' => 500
    case 'M' => 1000
  }

  /** Any symbol worth more than another is worth at least twice as much. */
  lemma LargerSymbolAtLeastDouble(a: char, b: char)
    requires IsRomanSymbol(a) && IsRomanSymbol(b)
    requires SymbolValue(a) < SymbolValue(b)
    ensures 2 * SymbolValue(a) <= SymbolValue(b)
  {
  }

  /**
    The value a numeral reads as. A non-empty numeral is worth at least its
    leading symbol, so subtraction never drives a reading to zero or below.
   */
  function Decode(s: string): (n: int)
    requires IsNumeral(s)
    ensures n >= 0
    ensures |s| > 0 ==> n >= SymbolValue(s[0])
  {
    if |s| == 0 then 0
    else if |s| > 1 && SymbolValue(s[0]) < SymbolValue(s[1]) then
      LargerSymbolAtLeastDouble(s[0], s[1]);
      Decode(s[1..]) - SymbolValue(s[0])
    else
      SymbolValue(s[0]) + Decode(s[1..])
  }
}
