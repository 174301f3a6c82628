/**
  The converter from integers to Roman numerals, `RomenNumeral.For` (the
  class name keeps the spelling of the original). At this stage it is a stub
  with two branches: 5 gives "V" and every other integer gives "I". It checks
  no range and fails on no input.
 */
module RomenNumeral {
  import opened Numerals

  /** The parameter type of `For`: a signed 32-bit integer. */
  newtype Int32 = x: int | -0x8000_0000 <= x < 0x8000_0000

  /**
    The numeral for `i`: always a single Roman symbol, "V" exactly when `i`
    is 5 and "I" for every other value, zero, negatives and values of 4000
    and above included. No precondition: the conversion is total.
   */
  function For(i: Int32): (r: string)
    ensures |r| == 1 && IsNumeral(r)
    ensures r == "V" <==> i == 5
    ensures r == "I" <==> i != 5
  {
    if i == 5 then "V" else "I"
  }

  /**
    Read back as a numeral, the output is worth 5 for input 5 and 1 for every
    other input; so it gives back the input exactly when the input is 1 or 5.
   */
  lemma ReadsBackOnlyOneAndFive(i: Int32)
    ensures Decode(For(i)) == if i == 5 then 5 else 1
    ensures Decode(For(i)) == i as int <==> i == 1 || i == 5
  {
  }

  /** The numeral produced for `i` reads back as `i` itself. */
  predicate ReadsBackAsInput(i: Int32) {
    Decode(For(i)) == i as int
  }

  /**
    Over the conventional range 1..3999 of Roman numerals, the inputs whose
    numeral reads back as the input itself are exactly 1 and 5.
   */
  lemma AgreesWithinRangeExactlyAtOneAndFive()
    ensures (set i: Int32 | 1 <= i <= 3999 && ReadsBackAsInput(i)) == {1, 5}
  {
    var agreeing := set i: Int32 | 1 <= i <= 3999 && ReadsBackAsInput(i);
    forall i: Int32 | 1 <= i <= 3999
      ensures i in agreeing <==> i == 1 || i == 5
    {
      ReadsBackOnlyOneAndFive(i);
    }
  }
}
