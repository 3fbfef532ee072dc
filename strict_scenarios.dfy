/**
 * Concrete runs of the strict calculator: the default warm-up sequence, the
 * modifiers with the default and with custom settings, configuration edits
 * between calls, and invalid values.
 */
module StrictScenarios {
  import opened Js
  import opened Classifier
  import opened Settings
  import opened SlowStart
  import opened StrictConfig
  import opened Strict
  import opened Tokens
  import opened Fixtures

  // ---------------------------------------------------------------------
  // Two kinds of call

  /**
   * A call that is not frozen, with the slow-start setting unchanged since
   * the last reset: the product of the factors times the warm-up decayed once.
   */
  lemma SteadyCall(w: Warmup, fields: Fields, s: string)
    requires FactorsResolve(fields, Process(s))
    requires OrDefault(fields, SlowStartDelay).Success? && OrDefault(fields, SlowStartDelay).value == w.oldStart
    ensures CalcSpec(w, fields, Str(s), Undefined).Success?
    ensures CalcSpec(w, fields, Str(s), Undefined).value ==
              Step(Mul(Finite(Product(fields, Process(s))), Decay(w.temp)), w.(temp := Decay(w.temp)))
  {
    AccumulateSucceeds(fields, Process(s));
    DelayIsProduct(w, fields, Str(s), Undefined);
    WarmupUpdate(w, fields, Str(s), Undefined);
  }

  /**
   * A call that is not frozen after the slow-start setting changed: the
   * warm-up starts over from the new setting and decays once.
   */
  lemma RestartedCall(w: Warmup, fields: Fields, s: string)
    requires FactorsResolve(fields, Process(s))
    requires OrDefault(fields, SlowStartDelay).Success? && OrDefault(fields, SlowStartDelay).value != w.oldStart
    ensures CalcSpec(w, fields, Str(s), Undefined).Success?
    ensures var start := OrDefault(fields, SlowStartDelay).value;
            CalcSpec(w, fields, Str(s), Undefined).value ==
              Step(Mul(Finite(Product(fields, Process(s))), Decay(Finite(start))), Warmup(Decay(Finite(start)), start))
  {
    AccumulateSucceeds(fields, Process(s));
    DelayIsProduct(w, fields, Str(s), Undefined);
    WarmupFollowsSetting(w, fields, Str(s), Undefined);
  }

  // ---------------------------------------------------------------------
  // Without settings

  /** The warm-up right after construction with the default slow-start delay. */
  const Fresh: Warmup := Warmup(Finite(5.0), 5.0)

  /** The delay `calcDelay(str)` returns on a fresh instance without settings. */
  function DefaultDelay(str: string): Number {
    var spec := CalcSpec(Fresh, map[], Str(str), Undefined);
    if spec.Success? then spec.value.delay else NaN
  }

  /** A first call with a plain token: 240 ms times the warm-up decayed from 5 to 10/3. */
  lemma DefaultPlain(s: string)
    requires Process(s) == PlainWord
    ensures DefaultDelay(s) == Finite(800.0)
  {
    SteadyCall(Fresh, map[], s);
  }

  /** A short token: 800 ms times 1.3. */
  lemma DefaultShort(s: string)
    requires Process(s) == ShortWord
    ensures DefaultDelay(s) == Finite(1040.0)
  {
    SteadyCall(Fresh, map[], s);
  }

  /** A long token: 800 ms times 1.5. */
  lemma DefaultLong(s: string)
    requires Process(s) == LongWord
    ensures DefaultDelay(s) == Finite(1200.0)
  {
    SteadyCall(Fresh, map[], s);
  }

  /** A sentence-ending token: 800 ms times 5. */
  lemma DefaultSentence(s: string)
    requires Process(s) == SentenceEnding
    ensures DefaultDelay(s) == Finite(4000.0)
  {
    SteadyCall(Fresh, map[], s);
  }

  /** A token with other punctuation: 800 ms times 2.5. */
  lemma DefaultPunctuated(s: string)
    requires Process(s) == Punctuated
    ensures DefaultDelay(s) == Finite(2000.0)
  {
    SteadyCall(Fresh, map[], s);
  }

  /** A numeric token: 800 ms times 2. */
  lemma DefaultNumeric(s: string)
    requires Process(s) == Numeric
    ensures DefaultDelay(s) == Finite(1600.0)
  {
    SteadyCall(Fresh, map[], s);
  }

  /** The words of the tests, on a fresh instance without settings. */
  lemma DefaultWordDelays()
    ensures DefaultDelay("abcd") == Finite(800.0)
    ensures DefaultDelay("ab") == Finite(1040.0)
    ensures DefaultDelay("a") == Finite(1040.0)
    ensures DefaultDelay("") == Finite(1040.0)
    ensures DefaultDelay("abcdabcda") == Finite(1200.0)
  {
    LowercaseWord("abcd");
    DefaultPlain("abcd");
    LowercaseWord("ab");
    DefaultShort("ab");
    LowercaseWord("a");
    DefaultShort("a");
    LowercaseWord("");
    DefaultShort("");
    LowercaseWord("abcdabcda");
    DefaultLong("abcdabcda");
  }

  /**
   * Any word of two to six letters followed by a sentence ender gets the
   * sentence modifier.
   */
  lemma DefaultSentenceMark(w: string, c: char)
    requires Lowercase(w) && 2 <= |w| < 7 && InClass(SentenceEnder, c)
    ensures DefaultDelay(w + [c]) == Finite(4000.0)
  {
    MarkedWord(w, c, SentenceEnder);
    DefaultSentence(w + [c]);
  }

  /**
   * Any word of two to five letters followed by any other-punctuation
   * mark, or wrapped in two of them, gets the other-punctuation modifier.
   */
  lemma DefaultPunctuationMark(w: string, c: char)
    requires Lowercase(w) && 2 <= |w| < 6 && InClass(OtherPunc, c)
    ensures DefaultDelay(w + [c]) == Finite(2000.0)
    ensures DefaultDelay([c] + w + [c]) == Finite(2000.0)
  {
    MarkedWord(w, c, OtherPunc);
    DefaultPunctuated(w + [c]);
    DefaultPunctuated([c] + w + [c]);
  }

  /** The sentence-ending tokens of the tests. */
  lemma DefaultSentenceDelays()
    ensures DefaultDelay("abc.d..") == Finite(4000.0)
    ensures DefaultDelay("abc.d.!") == Finite(4000.0)
    ensures DefaultDelay("abc.d.?") == Finite(4000.0)
  {
    SentenceTokens();
    DefaultSentence("abc.d..");
    DefaultSentence("abc.d.!");
    DefaultSentence("abc.d.?");
  }

  /** The numeric tokens of the tests. */
  lemma DefaultNumericDelays()
    ensures DefaultDelay("12345") == Finite(1600.0)
    ensures DefaultDelay("ab345") == Finite(1600.0)
  {
    NumericTokens();
    DefaultNumeric("12345");
    DefaultNumeric("ab345");
  }

  /**
   * A frozen first call uses the warm-up 5 as it is and leaves it there:
   * 240 ms times 5.
   */
  lemma DefaultFrozen(s: string)
    requires Process(s) == PlainWord
    ensures CalcSpec(Fresh, map[], Str(s), Bool(true)) == Success(Step(Finite(1200.0), Fresh))
  {
    AccumulateSucceeds(map[], Process(s));
    DelayIsProduct(Fresh, map[], Str(s), Bool(true));
    WarmupUpdate(Fresh, map[], Str(s), Bool(true));
  }

  /** A call with a plain token without settings, from any warm-up that started at the default. */
  lemma DefaultPlainCall(w: Warmup, s: string)
    requires Process(s) == PlainWord && w.oldStart == 5.0
    ensures CalcSpec(w, map[], Str(s), Undefined) ==
              Success(Step(Mul(Finite(240.0), Decay(w.temp)), w.(temp := Decay(w.temp))))
  {
    SteadyCall(w, map[], s);
  }

  /**
   * Four calls in a row on a fresh instance without settings: the warm-up
   * goes 10/3, 20/9, 40/27, 1 and the delays 800, 1600/3, 3200/9, 240.
   */
  method DefaultDecaySequence() returns (d1: Number, d2: Number, d3: Number, d4: Number)
    ensures d1 == Finite(800.0) && d2 == Finite(1600.0 / 3.0)
    ensures d3 == Finite(3200.0 / 9.0) && d4 == Finite(240.0)
  {
    var made := StringTime.New(null);
    var stm := made.value;
    assert stm.State() == Fresh;
    LowercaseWord("abcd");
    DefaultPlainCall(Fresh, "abcd");
    var r1 := stm.CalcDelay(Str("abcd"), Undefined);
    DefaultPlainCall(Warmup(Finite(10.0 / 3.0), 5.0), "abcd");
    var r2 := stm.CalcDelay(Str("abcd"), Undefined);
    DefaultPlainCall(Warmup(Finite(20.0 / 9.0), 5.0), "abcd");
    var r3 := stm.CalcDelay(Str("abcd"), Undefined);
    DefaultPlainCall(Warmup(Finite(40.0 / 27.0), 5.0), "abcd");
    var r4 := stm.CalcDelay(Str("abcd"), Undefined);
    d1, d2, d3, d4 := r1.value, r2.value, r3.value, r4.value;
  }

  // ---------------------------------------------------------------------
  // With custom settings

  /** The warm-up right after construction with `Custom`. */
  const CustomStart: Warmup := Warmup(Finite(3.0), 3.0)

  /** The delay of the first call after construction with `Custom`. */
  function CustomDelay(str: string): Number {
    var spec := CalcSpec(CustomStart, Custom, Str(str), Undefined);
    if spec.Success? then spec.value.delay else NaN
  }

  /** Every property of `Custom` is acceptable. */
  lemma CustomIsValid(f: Field)
    ensures OrDefault(Custom, f).Success?
  {
  }

  /** With `Custom`: 150 ms times the warm-up decayed from 3 to 2. */
  lemma CustomPlain(s: string)
    requires Process(s) == PlainWord
    ensures CustomDelay(s) == Finite(300.0)
  {
    SteadyCall(CustomStart, Custom, s);
  }

  /** A short token: 300 ms times 1.3. */
  lemma CustomShort(s: string)
    requires Process(s) == ShortWord
    ensures CustomDelay(s) == Finite(390.0)
  {
    SteadyCall(CustomStart, Custom, s);
  }

  /** A long token: 300 ms times 1.5. */
  lemma CustomLong(s: string)
    requires Process(s) == LongWord
    ensures CustomDelay(s) == Finite(450.0)
  {
    SteadyCall(CustomStart, Custom, s);
  }

  /** A sentence-ending token: 300 ms times 2. */
  lemma CustomSentence(s: string)
    requires Process(s) == SentenceEnding
    ensures CustomDelay(s) == Finite(600.0)
  {
    SteadyCall(CustomStart, Custom, s);
  }

  /** A token with other punctuation: 300 ms times 5. */
  lemma CustomPunctuated(s: string)
    requires Process(s) == Punctuated
    ensures CustomDelay(s) == Finite(1500.0)
  {
    SteadyCall(CustomStart, Custom, s);
  }

  /** A numeric token: 300 ms times 3.2. */
  lemma CustomNumeric(s: string)
    requires Process(s) == Numeric
    ensures CustomDelay(s) == Finite(960.0)
  {
    SteadyCall(CustomStart, Custom, s);
  }

  /** The tokens of the tests, on a fresh instance with `Custom`. */
  lemma CustomDelays()
    ensures CustomDelay("abcd") == Finite(300.0)
    ensures CustomDelay("ab") == Finite(390.0)
    ensures CustomDelay("abcdefghijklm") == Finite(450.0)
    ensures CustomDelay("abc3") == Finite(960.0)
  {
    LowercaseWord("abcd");
    CustomPlain("abcd");
    LowercaseWord("ab");
    CustomShort("ab");
    LowercaseWord("abcdefghijklm");
    CustomLong("abcdefghijklm");
    MoreNumericTokens();
    CustomNumeric("abc3");
  }

  lemma CustomMarkDelays()
    ensures CustomDelay("abcd.") == Finite(600.0)
    ensures CustomDelay("abcd,") == Finite(1500.0)
  {
    LettersAnd("abcd.", SentenceEnder, 4);
    CustomSentence("abcd.");
    LettersAnd("abcd,", OtherPunc, 4);
    CustomPunctuated("abcd,");
  }

  /** `Custom` after the host edited every property but `wpm`. */
  const Edited: Fields := Custom[
    BaseDelay := Num(Finite(450.0))][
    SlowStartDelay := Num(Finite(4.0))][
    SentenceDelay := Num(Finite(6.0))][
    OtherPuncDelay := Num(Finite(2.8))][
    NumericDelay := Num(Finite(4.0))][
    ShortWordDelay := Num(Finite(2.4))][
    LongWordDelay := Num(Finite(1.2))]

  /** The first call after the edits, on an instance constructed with `Custom`. */
  function EditedDelay(str: string): Number {
    var spec := CalcSpec(CustomStart, Edited, Str(str), Undefined);
    if spec.Success? then spec.value.delay else NaN
  }

  /**
   * The edits take effect on the next call: the changed slow-start delay
   * resets the warm-up to 4 before it decays to 8/3, and the new base delay
   * 450 is used: 1200 ms for a plain token.
   */
  lemma EditedPlain(s: string)
    requires Process(s) == PlainWord
    ensures CalcSpec(CustomStart, Edited, Str(s), Undefined) == Success(Step(Finite(1200.0), Warmup(Finite(8.0 / 3.0), 4.0)))
  {
    RestartedCall(CustomStart, Edited, s);
  }

  /** A short token: 1200 ms times the new 2.4. */
  lemma EditedShort(s: string)
    requires Process(s) == ShortWord
    ensures EditedDelay(s) == Finite(2880.0)
  {
    RestartedCall(CustomStart, Edited, s);
  }

  /** A long token: 1200 ms times the new 1.2. */
  lemma EditedLong(s: string)
    requires Process(s) == LongWord
    ensures EditedDelay(s) == Finite(1440.0)
  {
    RestartedCall(CustomStart, Edited, s);
  }

  /** A sentence-ending token: 1200 ms times the new 6. */
  lemma EditedSentence(s: string)
    requires Process(s) == SentenceEnding
    ensures EditedDelay(s) == Finite(7200.0)
  {
    RestartedCall(CustomStart, Edited, s);
  }

  /** A token with other punctuation: 1200 ms times the new 2.8. */
  lemma EditedPunctuated(s: string)
    requires Process(s) == Punctuated
    ensures EditedDelay(s) == Finite(3360.0)
  {
    RestartedCall(CustomStart, Edited, s);
  }

  /** A numeric token: 1200 ms times the new 4. */
  lemma EditedNumeric(s: string)
    requires Process(s) == Numeric
    ensures EditedDelay(s) == Finite(4800.0)
  {
    RestartedCall(CustomStart, Edited, s);
  }

  /** The tokens of the tests, on the first call after the edits. */
  lemma EditedDelays()
    ensures CalcSpec(CustomStart, Edited, Str("abcd"), Undefined) == Success(Step(Finite(1200.0), Warmup(Finite(8.0 / 3.0), 4.0)))
    ensures EditedDelay("ab") == Finite(2880.0)
    ensures EditedDelay("abcdefghijklm") == Finite(1440.0)
    ensures EditedDelay("abc3") == Finite(4800.0)
  {
    LowercaseWord("abcd");
    EditedPlain("abcd");
    LowercaseWord("ab");
    EditedShort("ab");
    LowercaseWord("abcdefghijklm");
    EditedLong("abcdefghijklm");
    MoreNumericTokens();
    EditedNumeric("abc3");
  }

  lemma EditedMarkDelays()
    ensures EditedDelay("abcd.") == Finite(7200.0)
    ensures EditedDelay("abcd,") == Finite(3360.0)
  {
    LettersAnd("abcd.", SentenceEnder, 4);
    EditedSentence("abcd.");
    LettersAnd("abcd,", OtherPunc, 4);
    EditedPunctuated("abcd,");
  }

  // ---------------------------------------------------------------------
  // Invalid values

  /**
   * The invalid values of the tests: null, true, false, an object, an empty
   * array, an array, a numeric string, NaN and -1.
   */
  predicate Wrong(v: Value) {
    || v == Null || v == Bool(true) || v == Bool(false)
    || v == Obj(NaN) || v == Obj(Finite(0.0)) || v == Obj(Finite(1.3))
    || v == Str("1") || v == Num(NaN) || v == Num(Finite(-1.0))
  }

  /**
   * Constructing with `Custom` in which one checked property holds an
   * invalid value throws for that property: a RangeError for a number, a
   * TypeError for anything else.
   */
  lemma WrongValueIsReported(f: Field, v: Value)
    requires f in CheckedFields && Wrong(v)
    ensures CheckAll(Custom[f := v], CheckedFields) == Fail(Error(if v.Num? then RangeError else TypeError, Setting(f)))
  {
    var fields := Custom[f := v];
    forall g | g != f
      ensures OrDefault(fields, g).Success?
    {
      CustomIsValid(g);
      assert Lookup(fields, g) == Lookup(Custom, g);
    }
    assert OrDefault(fields, f).Failure?;
    CheckAllMeaning(fields, CheckedFields);
    var i :| 0 <= i < |CheckedFields| && OrDefault(fields, CheckedFields[i]) == Failure(CheckAll(fields, CheckedFields).error);
    assert CheckedFields[i] == f;
  }

  /** With an invalid `shortWordDelay`, any short token makes the call throw for it. */
  lemma ShortTokenThrows(v: Value, s: string)
    requires Wrong(v) && Process(s) == ShortWord
    ensures CalcSpec(CustomStart, Custom[ShortWordDelay := v], Str(s), Undefined).Failure?
    ensures CalcSpec(CustomStart, Custom[ShortWordDelay := v], Str(s), Undefined).error ==
              Error(if v.Num? then RangeError else TypeError, Setting(ShortWordDelay))
  {
    var fields := Custom[ShortWordDelay := v];
    AccumulateFirstError(fields, ShortWord);
    assert FlagFactor(fields, ShortWord, IsShort).Failure?;
  }

  /**
   * An invalid `shortWordDelay` set after construction throws for short
   * tokens only: "ab" fails, "abcd" still gets its delay.
   */
  lemma InvalidShortModifier(v: Value)
    requires Wrong(v)
    ensures CalcSpec(CustomStart, Custom[ShortWordDelay := v], Str("ab"), Undefined).Failure?
    ensures CalcSpec(CustomStart, Custom[ShortWordDelay := v], Str("ab"), Undefined).error ==
              Error(if v.Num? then RangeError else TypeError, Setting(ShortWordDelay))
    ensures CalcSpec(CustomStart, Custom[ShortWordDelay := v], Str("abcd"), Undefined)
              == CalcSpec(CustomStart, Custom, Str("abcd"), Undefined)
  {
    LowercaseWord("ab");
    ShortTokenThrows(v, "ab");
    LowercaseWord("abcd");
    UnusedModifierIsHarmless(CustomStart, Custom, "abcd", Undefined, IsShort, v);
  }
}
