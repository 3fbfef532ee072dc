/**
 * The token classifier shared by both calculators (`_process` and
 * `_setPuncProps`): five boolean features of a token, each a regular
 * expression test or a length test.
 *
 * A token is a sequence of characters, each counted once by `length`.
 */
module Classifier {

  /** The three bracket expressions the classifier tests tokens against. */
  datatype CharClass =
    | SentenceEnder   // `/[.!?]/`
    | OtherPunc       // `/["'()”’:;,_]/`
    | Digit           // `/\d/`, without the `u` flag: ASCII digits only

  /** Membership of a character in a class. */
  predicate InClass(cls: CharClass, c: char) {
    match cls
    case SentenceEnder => c == '.' || c == '!' || c == '?'
    case OtherPunc =>
      || c == '"' || c == '\'' || c == '(' || c == ')' || c == '\U{201D}' || c == '\U{2019}'
      || c == ':' || c == ';' || c == ',' || c == '_'
    case Digit => '0' <= c <= '9'
  }

  const ShortLength: nat := 2
  const LongLength: nat := 8

  /** Some character of `s` belongs to the class `cls`. */
  ghost predicate Contains(s: string, cls: CharClass) {
    exists i :: 0 <= i < |s| && InClass(cls, s[i])
  }

  /** `/[cls]/.test(s)`: scans `s` from the left for a member of `cls`. */
  function Test(cls: CharClass, s: string): bool {
    if s == [] then false
    else if InClass(cls, s[0]) then true
    else Test(cls, s[1..])
  }

  /** The scan finds a member of the class exactly when the string has one. */
  lemma {:induction false} TestMeaning(cls: CharClass, s: string)
    ensures Test(cls, s) <==> Contains(s, cls)
  {
    if s != [] && !InClass(cls, s[0]) {
      TestMeaning(cls, s[1..]);
      if Contains(s, cls) {
        var i :| 0 <= i < |s| && InClass(cls, s[i]);
        assert InClass(cls, s[1..][i - 1]);
      }
      if Contains(s[1..], cls) {
        var i :| 0 <= i < |s[1..]| && InClass(cls, s[1..][i]);
        assert InClass(cls, s[i + 1]);
      }
    } else if s != [] {
      assert InClass(cls, s[0]);
    }
  }

  /** A match in either half of a string is a match in the whole, and no other. */
  lemma {:induction false} TestConcat(cls: CharClass, s: string, t: string)
    ensures Test(cls, s + t) == (Test(cls, s) || Test(cls, t))
  {
    if s == [] {
      assert s + t == t;
    } else {
      assert (s + t)[1..] == s[1..] + t;
      TestConcat(cls, s[1..], t);
    }
  }

  /** The punctuation flags `_setPuncProps` sets on the processed object. */
  datatype Punctuation = Punctuation(hasPeriod: bool, hasOtherPunc: bool)

  /** The object `_process` returns (its `chars` field is the token itself). */
  datatype Features = Features(
    hasPeriod: bool,
    hasOtherPunc: bool,
    isShort: bool,
    isLong: bool,
    isNumeric: bool)

  /** `_setPuncProps`: the punctuation flags of a token. */
  function SetPuncProps(chars: string): Punctuation {
    Punctuation(Test(SentenceEnder, chars), Test(OtherPunc, chars))
  }

  /** `_process`: the five features of a token. */
  function Process(chars: string): (r: Features)
    ensures !(r.isShort && r.isLong)
  {
    var punc := SetPuncProps(chars);
    Features(
      punc.hasPeriod,
      punc.hasOtherPunc,
      |chars| <= ShortLength,
      |chars| >= LongLength,
      Test(Digit, chars))
  }

  /** The punctuation flags say whether the token has a sentence ender, and other punctuation. */
  lemma SetPuncPropsMeaning(chars: string)
    ensures SetPuncProps(chars).hasPeriod <==> Contains(chars, SentenceEnder)
    ensures SetPuncProps(chars).hasOtherPunc <==> Contains(chars, OtherPunc)
  {
    TestMeaning(SentenceEnder, chars);
    TestMeaning(OtherPunc, chars);
  }

  /**
   * Each feature depends on the token alone: a sentence ender, other
   * punctuation or a decimal digit anywhere in it, at most 2 or at least 8
   * characters.
   */
  lemma ProcessMeaning(chars: string)
    ensures Process(chars).hasPeriod <==> Contains(chars, SentenceEnder)
    ensures Process(chars).hasOtherPunc <==> Contains(chars, OtherPunc)
    ensures Process(chars).isShort <==> |chars| <= 2
    ensures Process(chars).isLong <==> |chars| >= 8
    ensures Process(chars).isNumeric <==> Contains(chars, Digit)
  {
    SetPuncPropsMeaning(chars);
    TestMeaning(Digit, chars);
  }

  /**
   * A token made of two pieces has a punctuation or digit flag exactly
   * when one of the pieces has it; its length flags follow the total length.
   */
  lemma ProcessConcat(s: string, t: string)
    ensures Process(s + t) == Features(
              Process(s).hasPeriod || Process(t).hasPeriod,
              Process(s).hasOtherPunc || Process(t).hasOtherPunc,
              |s| + |t| <= ShortLength,
              |s| + |t| >= LongLength,
              Process(s).isNumeric || Process(t).isNumeric)
  {
    TestConcat(SentenceEnder, s, t);
    TestConcat(OtherPunc, s, t);
    TestConcat(Digit, s, t);
  }

  /**
   * Repeating a character that is already in the token changes no
   * punctuation or digit flag: "abcd." and "abc.d.." are both just
   * sentence-ending tokens.
   */
  lemma RepeatedCharacterAddsNoFlag(s: string, c: char)
    requires c in s
    ensures SetPuncProps(s + [c]) == SetPuncProps(s)
    ensures Process(s + [c]).isNumeric == Process(s).isNumeric
  {
    var i :| 0 <= i < |s| && s[i] == c;
    forall cls: CharClass
      ensures Test(cls, s + [c]) == Test(cls, s)
    {
      TestConcat(cls, s, [c]);
      TestMeaning(cls, s);
      TestMeaning(cls, [c]);
      if InClass(cls, c) {
        assert InClass(cls, s[i]);
      }
    }
  }
}
