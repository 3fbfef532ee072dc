/**
 * Concrete runs of the loose calculator: the default warm-up sequence, a
 * reset, frozen calls, the modifiers with the default table, and a
 * configuration edit between calls.
 */
module LooseScenarios {
  import opened Js
  import opened Classifier
  import opened Settings
  import opened SlowStart
  import opened Loose
  import opened Tokens
  import opened Fixtures

  /** The warm-up right after construction without settings: the default slow-start delay. */
  const Fresh: Value := Num(Finite(5.0))

  /** The delay of the first call on an instance without settings. */
  function DefaultDelay(s: string): Number {
    CalcSpec(Fresh, DefaultFields(), DefaultFields(), s, Undefined)
  }

  /** With the default table, the factor of a flag that holds is its default modifier. */
  lemma DefaultModifier(name: Field)
    ensures Modifier(DefaultFields(), DefaultFields(), name) == Finite(Default(name))
  {
  }

  /**
   * With the default table, a token with exactly one flag gets 240 ms times
   * that flag's default modifier.
   */
  lemma DefaultProduct(p: Features, flag: Flag)
    requires forall f :: Holds(p, f) <==> f == flag
    ensures Accumulate(DefaultFields(), DefaultFields(), p, |ToMultiplyBy|) == Finite(240.0 * Default(ModifierOf(flag)))
  {
    AccumulateIsProduct(DefaultFields(), DefaultFields(), p);
    SingleFlagProduct(DefaultFields(), DefaultFields(), p, flag);
    DefaultModifier(ModifierOf(flag));
    assert Lookup(DefaultFields(), BaseDelay) == Num(Finite(240.0));
  }

  /** A first call multiplies the product of the factors by the warm-up decayed from 5 to 10/3. */
  lemma DefaultFirstCall(s: string, product: real)
    requires Accumulate(DefaultFields(), DefaultFields(), Process(s), |ToMultiplyBy|) == Finite(product)
    ensures DefaultDelay(s) == Finite(product * 10.0 / 3.0)
  {
  }

  /** A plain token: 240 ms, times the warm-up decayed from 5 to 10/3 on a first call. */
  lemma DefaultPlain(s: string)
    requires Process(s) == PlainWord
    ensures Accumulate(DefaultFields(), DefaultFields(), Process(s), |ToMultiplyBy|) == Finite(240.0)
    ensures DefaultDelay(s) == Finite(800.0)
  {
    assert Accumulate(DefaultFields(), DefaultFields(), Process(s), |ToMultiplyBy|) == Finite(240.0) by {
      AccumulateIsProduct(DefaultFields(), DefaultFields(), Process(s));
      NoFlagProduct(DefaultFields(), DefaultFields(), Process(s));
    }
    DefaultFirstCall(s, 240.0);
  }

  /** A short token: 800 ms times 1.3. */
  lemma DefaultShort(s: string)
    requires Process(s) == ShortWord
    ensures DefaultDelay(s) == Finite(1040.0)
  {
    DefaultProduct(Process(s), IsShort);
    DefaultFirstCall(s, 312.0);
  }

  /** A long token: 800 ms times 1.5. */
  lemma DefaultLong(s: string)
    requires Process(s) == LongWord
    ensures DefaultDelay(s) == Finite(1200.0)
  {
    DefaultProduct(Process(s), IsLong);
    DefaultFirstCall(s, 360.0);
  }

  /** A sentence-ending token: 800 ms times 5. */
  lemma DefaultSentence(s: string)
    requires Process(s) == SentenceEnding
    ensures DefaultDelay(s) == Finite(4000.0)
  {
    DefaultProduct(Process(s), HasPeriod);
    DefaultFirstCall(s, 1200.0);
  }

  /** A token with other punctuation: 800 ms times 2.5. */
  lemma DefaultPunctuated(s: string)
    requires Process(s) == Punctuated
    ensures DefaultDelay(s) == Finite(2000.0)
  {
    DefaultProduct(Process(s), HasOtherPunc);
    DefaultFirstCall(s, 600.0);
  }

  /** A numeric token: 800 ms times 2. */
  lemma DefaultNumeric(s: string)
    requires Process(s) == Numeric
    ensures DefaultDelay(s) == Finite(1600.0)
  {
    DefaultProduct(Process(s), IsNumeric);
    DefaultFirstCall(s, 480.0);
  }

  /** The words of the tests, on a fresh instance without settings. */
  lemma DefaultWordDelays()
    ensures DefaultDelay("abcd") == Finite(800.0)
    ensures DefaultDelay("ab") == Finite(1040.0)
    ensures DefaultDelay("a") == Finite(1040.0)
    ensures DefaultDelay("") == Finite(1040.0)
    ensures DefaultDelay("abcdabcda") == Finite(1200.0)
  {
    LowercaseWord("abcd");
    DefaultPlain("abcd");
    LowercaseWord("ab");
    DefaultShort("ab");
    LowercaseWord("a");
    DefaultShort("a");
    LowercaseWord("");
    DefaultShort("");
    LowercaseWord("abcdabcda");
    DefaultLong("abcdabcda");
  }

  /**
   * Any word of two to six letters followed by a sentence ender gets the
   * sentence modifier.
   */
  lemma DefaultSentenceMark(w: string, c: char)
    requires Lowercase(w) && 2 <= |w| < 7 && InClass(SentenceEnder, c)
    ensures DefaultDelay(w + [c]) == Finite(4000.0)
  {
    MarkedWord(w, c, SentenceEnder);
    DefaultSentence(w + [c]);
  }

  /**
   * Any word of two to five letters followed by any other-punctuation
   * mark, or wrapped in two of them, gets the other-punctuation modifier.
   */
  lemma DefaultPunctuationMark(w: string, c: char)
    requires Lowercase(w) && 2 <= |w| < 6 && InClass(OtherPunc, c)
    ensures DefaultDelay(w + [c]) == Finite(2000.0)
    ensures DefaultDelay([c] + w + [c]) == Finite(2000.0)
  {
    MarkedWord(w, c, OtherPunc);
    DefaultPunctuated(w + [c]);
    DefaultPunctuated([c] + w + [c]);
  }

  /** The sentence-ending tokens of the tests. */
  lemma DefaultSentenceDelays()
    ensures DefaultDelay("abc.d..") == Finite(4000.0)
    ensures DefaultDelay("abc.d.!") == Finite(4000.0)
    ensures DefaultDelay("abc.d.?") == Finite(4000.0)
  {
    SentenceTokens();
    DefaultSentence("abc.d..");
    DefaultSentence("abc.d.!");
    DefaultSentence("abc.d.?");
  }

  /**
   * `justOnce`: `false` or absent decays the warm-up from 5 to 10/3, `true`
   * keeps it at 5, and the frozen call uses 5 in full.
   */
  lemma FrozenCall(s: string)
    requires Process(s) == PlainWord
    ensures Warmed(Fresh, Bool(false)) == Num(Finite(10.0 / 3.0))
    ensures Warmed(Fresh, Undefined) == Num(Finite(10.0 / 3.0))
    ensures Warmed(Fresh, Bool(true)) == Fresh
    ensures CalcSpec(Fresh, DefaultFields(), DefaultFields(), s, Bool(true)) == Finite(1200.0)
  {
    DefaultPlain(s);
  }

  /**
   * Four calls in a row on a fresh instance without settings: the warm-up
   * goes 10/3, 20/9, 40/27, 1 and the delays 800, 1600/3, 3200/9, 240.
   */
  method DefaultDecaySequence() returns (d1: Number, d2: Number, d3: Number, d4: Number, last: Value)
    ensures d1 == Finite(800.0) && d2 == Finite(1600.0 / 3.0)
    ensures d3 == Finite(3200.0 / 9.0) && d4 == Finite(240.0)
    ensures last == Num(Finite(1.0))
  {
    var tt := new TickerText(null);
    assert tt.tempSlowStart == Fresh;
    LowercaseWord("abcd");
    DefaultPlain("abcd");
    d1 := tt.CalcDelay("abcd", Undefined);
    assert tt.tempSlowStart == Num(Finite(10.0 / 3.0));
    d2 := tt.CalcDelay("abcd", Undefined);
    assert tt.tempSlowStart == Num(Finite(20.0 / 9.0));
    d3 := tt.CalcDelay("abcd", Undefined);
    assert tt.tempSlowStart == Num(Finite(40.0 / 27.0));
    d4 := tt.CalcDelay("abcd", Undefined);
    last := tt.tempSlowStart;
  }

  /**
   * Two calls, then `resetSlowStart()`: the warm-up is the default
   * slow-start delay again and the next call returns 800 ms, like the first.
   */
  method ResetRestarts() returns (restarted: Value, d: Number)
    ensures restarted == Fresh
    ensures d == Finite(800.0)
  {
    var tt := new TickerText(null);
    LowercaseWord("abcd");
    DefaultPlain("abcd");
    var one := tt.CalcDelay("abcd", Undefined);
    var two := tt.CalcDelay("abcd", Undefined);
    var _ := tt.ResetSlowStart(Undefined);
    restarted := tt.tempSlowStart;
    d := tt.CalcDelay("abcd", Undefined);
  }

  /**
   * Constructed with `Custom`, then the host sets `_baseDelay` to 450 and
   * `slowStartDelay` to 4: the next call uses the new base delay but keeps
   * decaying the old warm-up, 3 to 2, so a plain token gets 900 ms (the
   * strict calculator restarts from 4 and gives 1200 ms).
   */
  method EditsDoNotReset() returns (d: Number, warmup: Value)
    ensures d == Finite(900.0)
    ensures warmup == Num(Finite(2.0))
  {
    var custom := new Settings(Custom);
    var tt := new TickerText(custom);
    assert tt.tempSlowStart == Num(Finite(3.0));
    custom.fields := custom.fields[BaseDelay := Num(Finite(450.0))][SlowStartDelay := Num(Finite(4.0))];
    LowercaseWord("abcd");
    AccumulateIsProduct(custom.fields, tt.defaults.fields, Process("abcd"));
    d := tt.CalcDelay("abcd", Undefined);
    warmup := tt.tempSlowStart;
  }
}
