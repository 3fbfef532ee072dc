/**
 * The features of the tokens both calculators are exercised with: plain
 * words, short and long words, words marked with punctuation, and words
 * with digits.
 */
module Tokens {
  import opened Classifier

  /** The features of a token of three to seven letters. */
  const PlainWord := Features(false, false, false, false, false)
  /** At most two characters, nothing else. */
  const ShortWord := Features(false, false, true, false, false)
  /** At least eight characters, nothing else. */
  const LongWord := Features(false, false, false, true, false)
  /** A sentence ender, nothing else. */
  const SentenceEnding := Features(true, false, false, false, false)
  /** Other punctuation, nothing else. */
  const Punctuated := Features(false, true, false, false, false)
  /** A digit, nothing else. */
  const Numeric := Features(false, false, false, false, true)

  /** A token of lower-case letters only. */
  predicate Lowercase(w: string) {
    forall i :: 0 <= i < |w| ==> 'a' <= w[i] <= 'z'
  }

  /** A word of letters has no punctuation or digit flag; only its length counts. */
  lemma LowercaseWord(w: string)
    requires Lowercase(w)
    ensures Process(w) == Features(false, false, |w| <= ShortLength, |w| >= LongLength, false)
  {
    ProcessMeaning(w);
  }

  /**
   * A token of letters and characters of one class, with at least one of
   * the latter, has exactly that class's flag besides its length flags.
   */
  lemma LettersAnd(s: string, cls: CharClass, i: nat)
    requires forall j :: 0 <= j < |s| ==> 'a' <= s[j] <= 'z' || InClass(cls, s[j])
    requires i < |s| && InClass(cls, s[i])
    ensures Process(s) ==
              Features(cls == SentenceEnder, cls == OtherPunc, |s| <= ShortLength, |s| >= LongLength, cls == Digit)
  {
    ProcessMeaning(s);
  }

  /**
   * A word of letters followed by a character of a class, or wrapped in
   * two of them, has exactly that class's flag.
   */
  lemma MarkedWord(w: string, c: char, cls: CharClass)
    requires Lowercase(w) && InClass(cls, c)
    ensures Process(w + [c]) ==
              Features(cls == SentenceEnder, cls == OtherPunc, |w| + 1 <= ShortLength, |w| + 1 >= LongLength, cls == Digit)
    ensures Process([c] + w + [c]) ==
              Features(cls == SentenceEnder, cls == OtherPunc, |w| + 2 <= ShortLength, |w| + 2 >= LongLength, cls == Digit)
  {
    LettersAnd(w + [c], cls, |w|);
    LettersAnd([c] + w + [c], cls, 0);
  }

  /** Tokens with several sentence enders are sentence-ending tokens like any other. */
  lemma SentenceTokens()
    ensures Process("abc.d..") == SentenceEnding
    ensures Process("abc.d.!") == SentenceEnding
    ensures Process("abc.d.?") == SentenceEnding
  {
    LettersAnd("abc.d..", SentenceEnder, 3);
    LettersAnd("abc.d.!", SentenceEnder, 3);
    LettersAnd("abc.d.?", SentenceEnder, 3);
  }

  /** A digit anywhere makes a token numeric. */
  lemma NumericTokens()
    ensures Process("12345") == Numeric
    ensures Process("ab345") == Numeric
  {
    LettersAnd("12345", Digit, 0);
    LettersAnd("ab345", Digit, 2);
  }

  lemma MoreNumericTokens()
    ensures Process("123de") == Numeric
    ensures Process("12cd5") == Numeric
    ensures Process("abc3") == Numeric
  {
    LettersAnd("123de", Digit, 0);
    LettersAnd("12cd5", Digit, 0);
    LettersAnd("abc3", Digit, 3);
  }
}
