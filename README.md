# Roman numerals kata: the `RomenNumeral.For` converter

The repository is a test-driven kata for converting integers to Roman
numerals. Its one piece of logic is the static method `RomenNumeral.For(int)`.
The class name's spelling is the original's. At this stage of the kata the
method is a stub with two branches. Input 5 gives `"V"`. Every other input
gives `"I"`. It has no range check, no value/symbol table and no loop. The
test class `RomanNumeralsSpecs` checks two facts: 1 maps onto `"I"` and 5 maps
onto `"V"`.

The model has three modules:

- `RomenNumeral` (`romen_numeral.dfy`) holds the converter `For`. It is a pure,
  total function over `Int32`, a newtype covering the range of the C# `int`
  parameter. The module also holds the lemmas that compare the output with
  what it should read as.
- `RomanNumeralsSpecs` (`romen_numeral_facts.dfy`) holds the two test facts,
  restated as lemmas.
- `Numerals` (`numerals.dfy`) holds `Decode`. This function reads a string of
  Roman symbols as a number: symbols are summed from left to right, and a
  symbol followed by one of higher value is subtracted. The converter never
  reads numerals, so `Decode` is only a specification. It gives meaning to
  "the output is the right numeral". Its contract proves that a non-empty
  numeral reads as at least its leading symbol.

A table-driven converter is not modelled. That design uses greedy descent
through value/symbol pairs, including subtractive pairs such as 900/`"CM"`, and
fails with `OutOfRange` outside 1..3999. The code at this stage has none of
it. The model follows the code, so `For` has no precondition and returns
`"I"` for 0, for negatives and for 4000 and above.

## Model

| member | source | states |
|---|---|---|
| `RomenNumeral.For` | RomanNumeralsSpecs.cs:23-27 | Total, with no precondition. The result is always exactly one character and a Roman symbol. It is `"V"` exactly when the input is 5. It is `"I"` exactly when the input is not 5, including 0, negatives and 4000 and above. |
| `RomenNumeral.ReadsBackOnlyOneAndFive` | RomanNumeralsSpecs.cs:25-26 | Read as a Roman numeral, the output is worth 5 for input 5 and 1 for every other input. So it gives back the input if and only if the input is 1 or 5. |
| `RomenNumeral.AgreesWithinRangeExactlyAtOneAndFive` | RomanNumeralsSpecs.cs:25-26 | In the conventional range 1..3999, the set of inputs whose numeral reads back as the input is exactly {1, 5}. |
| `RomanNumeralsSpecs.Integer1MapsOntoI` | RomanNumeralsSpecs.cs:8-12 | `For(1)` is `"I"`, the first test fact. |
| `RomanNumeralsSpecs.Integer5MapsOntoV` | RomanNumeralsSpecs.cs:14-18 | `For(5)` is `"V"`, the second test fact. |

## Left out

- Test-harness wiring (xUnit `[Fact]`, FluentAssertions `Should().Be`, the `using` lines): only the asserted input/output pairs carry over, as lemmas.
- The table-driven greedy converter, the subtractive pairs and the `OutOfRange` error: the code does not have them.
- Parsing numerals back to integers: the code does not do it. `Numerals.Decode` only specifies what a numeral means.
- Integer overflow: `For` does no arithmetic. Its parameter is kept within the 32-bit range by the `Int32` newtype.
