/**
 * The custom settings the test suites construct calculators with:
 * 400 words per minute and their own modifiers.
 */
module Fixtures {
  import opened Js
  import opened Settings

  const Custom: Fields := map[
    Wpm := Num(Finite(400.0)),
    BaseDelay := Num(Finite(1.0 / (400.0 / 60.0) * 1000.0)),
    SlowStartDelay := Num(Finite(3.0)),
    SentenceDelay := Num(Finite(2.0)),
    OtherPuncDelay := Num(Finite(5.0)),
    NumericDelay := Num(Finite(3.2)),
    ShortWordDelay := Num(Finite(1.3)),
    LongWordDelay := Num(Finite(1.5))
  ]
}
