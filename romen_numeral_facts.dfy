/** The two facts the kata's test class asserts about `RomenNumeral.For`. */
module RomanNumeralsSpecs {
  import opened RomenNumeral

  /** The integer 1 maps onto "I". */
  lemma Integer1MapsOntoI()
    ensures For(1) == "I"
  {
  }

  /** The integer 5 maps onto "V". */
  lemma Integer5MapsOntoV()
    ensures For(5) == "V"
  {
  }
}
