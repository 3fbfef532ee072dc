# string-time in Dafny

A model of the two delay calculators of the string-time library, which an
RSVP (one word at a time) reader uses to decide how many milliseconds each
token stays on screen:

- `StringTime` (dist/String-Time.js), the strict calculator. Every setting it
  reads goes through `orDefault`, which substitutes the default for an absent
  property and throws a `TypeError` or a `RangeError` for one that is not a
  non-negative number. `calcDelay` checks its arguments, multiplies the base
  delay by the modifier of every feature of the token, resynchronises the
  warm-up with the configured `slowStartDelay`, decays the warm-up unless the
  call is frozen, and returns the delay times the warm-up.
- `TickerText` (Ticker-Text.js), the loose calculator. It has the same
  classifier, table and decay, but no validation: a falsy modifier falls back
  to its default with `||`, the base delay and the slow-start delay are read
  as they are, `justOnce` is only tested for truthiness, and a change of the
  slow-start setting does not reset the warm-up.

The modules follow the program:

| module | file | what it holds |
|---|---|---|
| `Js` | js.dfy | the JavaScript values the calculators meet: numbers with NaN, truthiness, `\|\|`, the numeric coercion of `*`, `/` and `Math.max` |
| `Classifier` | classifier.dfy | `_process` and `_setPuncProps`: the five features of a token |
| `Tokens` | tokens.dfy | the features of the kinds of token the tests use |
| `Settings` | settings.dfy | the property names, the `defaults` table, the host's settings object, the `toMultiplyBy` table |
| `Fixtures` | fixtures.dfy | the custom settings both test suites construct calculators with |
| `SlowStart` | slow_start.dfy | the warm-up decay `Math.max(1, w / 1.5)` and its convergence to 1 |
| `StrictConfig` | strict_config.dfy | `orDefault`, the `delay *=` fold and `_checkSettings` as functions, with their properties |
| `Strict` | strict.dfy | the `StringTime` object: its state, `_init`, `_checkSettings`, `resetSlowStart`, `calcDelay` |
| `StrictScenarios` | strict_scenarios.dfy | the expectations of spec/tests/String-Time-spec.js |
| `Loose` | loose.dfy | the `TickerText` object and the properties of its `calcDelay` |
| `LooseScenarios` | loose_scenarios.dfy | the expectations of spec/tests/Ticker-Text-spec.js, and a configuration edit |

Each object is a class whose fields are the ones the source updates in place:
`setts`, `tempSlowStart` and `oldStart` for `StringTime`; `setts` and
`tempSlowStart` for `TickerText`. A `TickerText` also holds `defaults`, an
object of the instance's own that the source creates and never reassigns
(Ticker-Text.js:92), but whose properties the host can edit through
`tt.defaults` or through the `_setts` alias when no settings were given
(Ticker-Text.js:209).
The host's settings object is a class of its own (`Settings.Settings`),
since both calculators keep a reference to it and see the host's later
edits. The `delay *=` loops are methods proved against the folds
`StrictConfig.Accumulate` and `Loose.Accumulate`. `calcDelay` is proved
against `Strict.CalcSpec` and `Loose.CalcSpec`, functions of the warm-up
state before the call, and the lemmas about those functions carry what the
source promises.

Numbers are exact reals. Because of this the tests' `Math.floor(...) == 533`
checks appear as their exact values 1600/3 and 3200/9.

`calcDelay` decays `_tempSlowStart` before multiplying by it
(dist/String-Time.js:202-207, Ticker-Text.js:140-147), so the returned delay
uses the decayed warm-up. The tests expect 240 × 5/1.5 = 800 on a first call
(spec/tests/String-Time-spec.js:49), and they describe the decay as having "a
minimum value of 1" (spec/tests/String-Time-spec.js:42). The warm-up is at
least 1 only after a decay (`SlowStart.Decay`). `resetSlowStart(v)` stores any
truthy `v`, and the strict `orDefault` accepts a `slowStartDelay` of 0.

## Model

| member | source | states |
|---|---|---|
| Classifier.TestMeaning | dist/String-Time.js:260-261 | a regular-expression test for a bracket expression succeeds exactly when some character of the token is in the bracket |
| Classifier.TestConcat | dist/String-Time.js:260-261 | the test succeeds on a concatenation exactly when it succeeds on one of the pieces |
| Classifier.Process | dist/String-Time.js:240-244 | no token is both short and long |
| Classifier.SetPuncPropsMeaning | dist/String-Time.js:252-264 | `hasPeriod` holds iff the token contains one of `. ! ?`; `hasOtherPunc` holds iff it contains one of `" ' ( ) ” ’ : ; , _` |
| Classifier.ProcessMeaning | dist/String-Time.js:229-249 | the five flags, each as an iff: a sentence ender, other punctuation, length at most 2, length at least 8, an ASCII digit; each depends on the token only |
| Classifier.ProcessConcat | dist/String-Time.js:240-261 | the punctuation and digit flags of a concatenation are the disjunction of the pieces' flags; the length flags follow the total length |
| Classifier.RepeatedCharacterAddsNoFlag | spec/tests/String-Time-spec.js:130-147 | appending a character the token already contains changes neither punctuation flag nor the digit flag |
| Tokens.LowercaseWord | dist/String-Time.js:240-246 | a word of lower-case letters has only the length flags, set by its length |
| Tokens.LettersAnd | dist/String-Time.js:240-261 | letters mixed with at least one character of a single class give exactly that class's flag besides the length flags |
| Tokens.MarkedWord | spec/tests/String-Time-spec.js:153-233 | a word followed by a mark, or wrapped in two copies of it, has exactly the mark's flag |
| Tokens.SentenceTokens | spec/tests/String-Time-spec.js:138-147 | "abc.d..", "abc.d.!" and "abc.d.?" carry the sentence flag only |
| Tokens.NumericTokens | spec/tests/String-Time-spec.js:244-247 | "12345" and "ab345" carry the numeric flag only |
| Tokens.MoreNumericTokens | spec/tests/String-Time-spec.js:249-251 | "123de", "12cd5" and "abc3" carry the numeric flag only |
| Settings.DefaultsArePositive | dist/String-Time.js:102-111 | every default is positive, and the default base delay 1/(250/60)·1000 is 240 ms |
| Settings.DefaultFields | Ticker-Text.js:92-101 | the `defaults` object has every property, each the number of the table |
| Settings.ModifierOf | dist/String-Time.js:94-100 | a flag's modifier is never `wpm`, `_baseDelay` or `slowStartDelay` |
| Settings.IndexOf | dist/String-Time.js:94-100 | each flag sits at one position of `toMultiplyBy`, paired with its modifier |
| Settings.ToMultiplyByListsEachFlagOnce | dist/String-Time.js:94-100 | the table pairs every flag with its own modifier, lists each flag once, and no two flags share a modifier |
| SlowStart.Decay | dist/String-Time.js:205 | `Math.max(1, w/1.5)` is NaN exactly for NaN, is never below 1, is w/1.5 from 1.5 up and 1 below it |
| SlowStart.OneIsFixedPoint | dist/String-Time.js:205 | once at 1, any number of decays keep the warm-up at 1 |
| SlowStart.DecayReachesOne | dist/String-Time.js:205 | a warm-up of at most 1.5^n reaches exactly 1 after n decays |
| SlowStart.StepsToOne | dist/String-Time.js:205 | gives, for any warm-up, a number n ≥ 1 of decays with the warm-up at most 1.5^n |
| SlowStart.ConvergesToOne | dist/String-Time.js:205 | from any finite warm-up, every number of decays from `StepsToOne` on gives exactly 1 |
| StrictConfig.OrDefault | dist/String-Time.js:137-161 | an absent or undefined property gives the default; a non-number gives a TypeError naming it; a negative or NaN number gives a RangeError; any other number, zero included, is returned as it is; a result is never negative |
| StrictConfig.Times | dist/String-Time.js:191 | `delay *= factor` succeeds iff both operands did, with their product, and otherwise propagates the first exception |
| StrictConfig.Factor | dist/String-Time.js:188-192 | the factor of one table entry is never negative |
| StrictConfig.Accumulate | dist/String-Time.js:184-193 | an exception thrown by the `delay *=` loop always names a setting |
| StrictConfig.AccumulateStep | dist/String-Time.js:188-192 | one iteration: an entry whose flag does not hold changes nothing, a modifier that throws ends the loop with its exception, a valid one multiplies the delay |
| StrictConfig.AccumulateFailureStays | dist/String-Time.js:186-193 | after an exception the rest of the table is not reached |
| StrictConfig.TimesChain | dist/String-Time.js:186-193 | five multiplications give the product of all six values, or the first exception |
| StrictConfig.AccumulateUnfolds | dist/String-Time.js:184-193 | the loop over the whole table is the base delay times each flag's factor, in table order |
| StrictConfig.AccumulateIsProduct | dist/String-Time.js:184-193 | when every factor resolves, the loop yields the base delay times the modifier of each flag that holds, each once |
| StrictConfig.AccumulateSucceeds | dist/String-Time.js:184-193 | the loop throws exactly when the base delay or the modifier of a flag that holds is invalid |
| StrictConfig.AccumulateFirstError | dist/String-Time.js:184-193 | it throws the error of the first invalid value in the order base delay, sentence, other punctuation, short, long, numeric |
| StrictConfig.UnusedModifierIsNotRead | dist/String-Time.js:188-192 | the property of a flag that does not hold is never resolved: any value there gives the same result |
| StrictConfig.CheckAllMeaning | dist/String-Time.js:271-287 | validation passes iff every checked property resolves, and otherwise reports the first one that does not |
| StrictConfig.CheckAllSnoc | dist/String-Time.js:278-284 | after a passing prefix, checking one more name checks just that name |
| StrictConfig.CheckAllFailureStays | dist/String-Time.js:278-284 | after a failure, checking more names reports the same failure |
| Strict.MultiplyDelay | dist/String-Time.js:184-193 | the `delay *=` loop, with its early exits on an exception, computes `Accumulate` over the whole table |
| Strict.MultiplyEntry | dist/String-Time.js:189-192 | one pass of the loop body: a pass that completes leaves the delay `Accumulate` gives after that entry; an exception it throws is the one the whole loop ends with |
| Strict.StringTime.Blank | dist/String-Time.js:88-114 | before `_init`: no settings, `oldStart` the default slow-start delay, and `_tempSlowStart` the number null coerces to (0), which `_init` always overwrites before anything reads it |
| Strict.StringTime.New | dist/String-Time.js:290-303 | construction succeeds iff there are no settings or every checked property is valid, throws the first invalid one's error, keeps the settings by reference, and starts the warm-up and `oldStart` at the resolved slow-start delay |
| Strict.StringTime.Init | dist/String-Time.js:290-300 | `_init` stores the reference, validates, then resets; on an exception the warm-up state is unchanged |
| Strict.StringTime.CheckSettings | dist/String-Time.js:271-287 | passes without an argument, whatever the settings hold; with one, returns the first exception among the five modifiers, then the base and slow-start delays, of the current settings, and passes iff all of them resolve |
| Strict.StringTime.ResetSlowStart | dist/String-Time.js:213-224 | a truthy argument becomes the warm-up; otherwise warm-up and `oldStart` take the resolved slow-start delay, or the call throws and changes nothing; returns the instance |
| Strict.StringTime.CalcDelay | dist/String-Time.js:164-210 | returns and leaves exactly what `CalcSpec` gives for the state before the call; on an exception nothing changes |
| Strict.ArgumentErrors | dist/String-Time.js:177-182 | a TypeError naming the first argument iff the token is not a string; naming the second iff the token is a string and `justOnce` is neither undefined nor a boolean |
| Strict.DelayIsProduct | dist/String-Time.js:184-207 | on success the token is a string, every factor resolved, and the delay is the base delay times the modifiers of the flags that hold, times the warm-up after this call's update |
| Strict.SettingErrors | dist/String-Time.js:184-197 | with valid arguments, the call throws iff the base delay, a modifier of a flag that holds, or the slow-start delay is invalid, and then names a setting |
| Strict.UnusedModifierIsHarmless | dist/String-Time.js:188-192 | any value in the modifier of a flag the token lacks leaves the call's result and new state unchanged |
| Strict.WarmupFollowsSetting | dist/String-Time.js:197-198 | after a successful call `oldStart` is the configured slow-start delay; when that setting changed, the warm-up starts over from it |
| Strict.WarmupUpdate | dist/String-Time.js:202-205 | with the setting unchanged, a call that is not frozen decays the warm-up once and a frozen call leaves the state as it was; after a call that is not frozen a finite warm-up is at least 1 |
| Strict.FrozenCallRepeats | dist/String-Time.js:202-207 | repeating a frozen call gives the same delay and the same state |
| Strict.CallSeriesDecays | dist/String-Time.js:197-205 | over a series of calls that are not frozen and leave the configuration alone, the warm-up decays once per call |
| Strict.CallSeriesReachesOne | dist/String-Time.js:205 | enough such calls bring a finite warm-up to exactly 1 |
| Strict.ResetForgetsHistory | dist/String-Time.js:219-222 | `resetSlowStart()` from any state yields the state construction yields |
| Strict.ExplicitResetIsUsed | dist/String-Time.js:219 | `resetSlowStart(v)` with a truthy `v` sets only the warm-up, and the next call decays `v` (or keeps it, when frozen) |
| StrictScenarios.SteadyCall | dist/String-Time.js:197-207 | a call that is not frozen, with the slow-start setting unchanged, returns the product of the factors times the warm-up decayed once |
| StrictScenarios.RestartedCall | dist/String-Time.js:197-207 | after the slow-start setting changed, the call restarts from the new setting and decays it once |
| StrictScenarios.DefaultPlain | spec/tests/String-Time-spec.js:91-95 | a token without flags gets 800 ms on a first call without settings |
| StrictScenarios.DefaultShort | spec/tests/String-Time-spec.js:99-117 | a short token gets 1040 ms |
| StrictScenarios.DefaultLong | spec/tests/String-Time-spec.js:122-126 | a long token gets 1200 ms |
| StrictScenarios.DefaultSentence | spec/tests/String-Time-spec.js:130-148 | a sentence-ending token gets 4000 ms |
| StrictScenarios.DefaultPunctuated | spec/tests/String-Time-spec.js:153-234 | a token with other punctuation gets 2000 ms |
| StrictScenarios.DefaultNumeric | spec/tests/String-Time-spec.js:241-252 | a numeric token gets 1600 ms |
| StrictScenarios.DefaultWordDelays | spec/tests/String-Time-spec.js:91-126 | "abcd" 800, "ab", "a" and "" 1040, "abcdabcda" 1200 |
| StrictScenarios.DefaultSentenceMark | spec/tests/String-Time-spec.js:134-135 | any word of two to six letters followed by `.`, `!` or `?` gets 4000 ms |
| StrictScenarios.DefaultPunctuationMark | spec/tests/String-Time-spec.js:157-233 | any word of two to five letters followed by, or wrapped in, any other-punctuation mark gets 2000 ms |
| StrictScenarios.DefaultSentenceDelays | spec/tests/String-Time-spec.js:138-147 | "abc.d..", "abc.d.!" and "abc.d.?" get 4000 ms |
| StrictScenarios.DefaultNumericDelays | spec/tests/String-Time-spec.js:244-247 | "12345" and "ab345" get 1600 ms |
| StrictScenarios.DefaultFrozen | spec/tests/String-Time-spec.js:331-337 | a frozen first call returns 240 × 5 = 1200 ms and leaves the state as it was |
| StrictScenarios.DefaultDecaySequence | spec/tests/String-Time-spec.js:40-63 | four calls on a new instance return 800, 1600/3, 3200/9 and 240 ms |
| StrictScenarios.CustomIsValid | spec/tests/String-Time-spec.js:481-496 | every property of the custom settings resolves |
| StrictScenarios.CustomPlain | spec/tests/String-Time-spec.js:507-509 | with the custom settings a plain token gets 300 ms |
| StrictScenarios.CustomShort | spec/tests/String-Time-spec.js:511-513 | a short token gets 390 ms |
| StrictScenarios.CustomLong | spec/tests/String-Time-spec.js:515-517 | a long token gets 450 ms |
| StrictScenarios.CustomSentence | spec/tests/String-Time-spec.js:519-521 | a sentence-ending token gets 600 ms |
| StrictScenarios.CustomPunctuated | spec/tests/String-Time-spec.js:523-525 | a token with other punctuation gets 1500 ms |
| StrictScenarios.CustomNumeric | spec/tests/String-Time-spec.js:527-529 | a numeric token gets 960 ms |
| StrictScenarios.CustomDelays | spec/tests/String-Time-spec.js:505-529 | "abcd" 300, "ab" 390, "abcdefghijklm" 450, "abc3" 960 |
| StrictScenarios.CustomMarkDelays | spec/tests/String-Time-spec.js:519-525 | "abcd." 600 and "abcd," 1500 |
| StrictScenarios.EditedPlain | spec/tests/String-Time-spec.js:559-562 | after the host's edits the next call restarts the warm-up at 4, decays it to 8/3 and returns 1200 ms for a plain token |
| StrictScenarios.EditedShort | spec/tests/String-Time-spec.js:564-566 | a short token gets 2880 ms |
| StrictScenarios.EditedLong | spec/tests/String-Time-spec.js:568-570 | a long token gets 1440 ms |
| StrictScenarios.EditedSentence | spec/tests/String-Time-spec.js:572-574 | a sentence-ending token gets 7200 ms |
| StrictScenarios.EditedPunctuated | spec/tests/String-Time-spec.js:576-578 | a token with other punctuation gets 3360 ms |
| StrictScenarios.EditedNumeric | spec/tests/String-Time-spec.js:580-582 | a numeric token gets 4800 ms |
| StrictScenarios.EditedDelays | spec/tests/String-Time-spec.js:535-582 | "abcd" 1200 with the restarted warm-up, "ab" 2880, "abcdefghijklm" 1440, "abc3" 4800 |
| StrictScenarios.EditedMarkDelays | spec/tests/String-Time-spec.js:572-578 | "abcd." 7200 and "abcd," 3360 |
| StrictScenarios.WrongValueIsReported | spec/tests/String-Time-spec.js:454-478 | any of the tests' invalid values in any checked property makes construction throw for that property: a RangeError for a number, a TypeError otherwise |
| StrictScenarios.InvalidShortModifier | spec/tests/String-Time-spec.js:589-609 | an invalid `shortWordDelay` set after construction throws the matching error for "ab" and leaves "abcd" unaffected |
| Loose.Modifier | Ticker-Text.js:133 | the factor is the setting when the setting is truthy, and the default otherwise, both coerced to numbers |
| Loose.MultiplyDelay | Ticker-Text.js:127-136 | the `delay *=` loop computes `Accumulate` over the whole table |
| Loose.AccumulateIsProduct | Ticker-Text.js:125-136 | the loop yields the base delay times the factor of each flag that holds, each once |
| Loose.SingleFlagProduct | Ticker-Text.js:129-136 | a token with exactly one flag gets the base delay times that flag's factor |
| Loose.NoFlagProduct | Ticker-Text.js:129-136 | a token without flags gets the base delay as it is |
| Loose.FalsyModifierFallsBack | Ticker-Text.js:133 | a falsy modifier is replaced by its default, which is positive |
| Loose.NumericModifierNeverZeroes | Ticker-Text.js:133 | a modifier that is absent or a number, 0 included, never makes the factor 0 |
| Loose.StringZeroZeroesModifier | Ticker-Text.js:133 | the string "0" is truthy and coerces to 0, so it zeroes the factor |
| Loose.MissingBaseDelayIsNaN | Ticker-Text.js:127 | a base delay that does not coerce to a number makes every delay NaN; there is no fallback |
| Loose.UnusedModifierIsNotRead | Ticker-Text.js:129-136 | the property of a flag that does not hold is never read |
| Loose.Warmed | Ticker-Text.js:140-145 | a truthy `justOnce` leaves the warm-up as it is; otherwise the warm-up becomes a number that is at least 1 unless NaN |
| Loose.SeriesDecays | Ticker-Text.js:140-145 | n calls that are not frozen decay the warm-up n times, whatever the configuration does meanwhile |
| Loose.SeriesReachesOne | Ticker-Text.js:145 | enough such calls bring any warm-up that coerces to a finite number to exactly 1 |
| Loose.TickerText.constructor | Ticker-Text.js:208-215 | creates the instance's own `defaults`; the settings are the argument, or that `defaults` object when there is none; the warm-up is their `slowStartDelay` as it is |
| Loose.TickerText.Init | Ticker-Text.js:208-212 | `_setts` is the settings or `defaults`, then the warm-up is reset from it; returns the instance |
| Loose.TickerText.ResetSlowStart | Ticker-Text.js:153-162 | a truthy argument becomes the warm-up, otherwise the settings' `slowStartDelay` does, unvalidated; returns the instance |
| Loose.TickerText.CalcDelay | Ticker-Text.js:117-150 | the warm-up is decayed unless `justOnce` is truthy, and the delay is the loop's result times the new warm-up |
| Loose.DelayIsProduct | Ticker-Text.js:125-149 | the delay is the base delay times the factor of each flag that holds, times the updated warm-up |
| Loose.NoSlowStartGivesNaN | Ticker-Text.js:160 | settings without `slowStartDelay` leave the warm-up undefined, and every delay is then NaN |
| LooseScenarios.DefaultModifier | Ticker-Text.js:92-101 | without settings a flag's factor is its default modifier |
| LooseScenarios.DefaultProduct | Ticker-Text.js:127-136 | without settings a token with one flag gets 240 ms times that flag's default modifier |
| LooseScenarios.DefaultFirstCall | Ticker-Text.js:140-147 | a first call without settings multiplies the product of the factors by 10/3 |
| LooseScenarios.DefaultPlain | spec/tests/Ticker-Text-spec.js:119-124 | a token without flags gets 240 ms before the warm-up and 800 ms on a first call |
| LooseScenarios.DefaultShort | spec/tests/Ticker-Text-spec.js:127-146 | a short token gets 1040 ms |
| LooseScenarios.DefaultLong | spec/tests/Ticker-Text-spec.js:150-155 | a long token gets 1200 ms |
| LooseScenarios.DefaultSentence | spec/tests/Ticker-Text-spec.js:158-176 | a sentence-ending token gets 4000 ms |
| LooseScenarios.DefaultPunctuated | spec/tests/Ticker-Text-spec.js:181-262 | a token with other punctuation gets 2000 ms |
| LooseScenarios.DefaultNumeric | Ticker-Text.js:98 | a numeric token gets 1600 ms |
| LooseScenarios.DefaultWordDelays | spec/tests/Ticker-Text-spec.js:114-155 | "abcd" 800, "ab", "a" and "" 1040, "abcdabcda" 1200 |
| LooseScenarios.DefaultSentenceMark | spec/tests/Ticker-Text-spec.js:162-164 | any word of two to six letters followed by a sentence ender gets 4000 ms |
| LooseScenarios.DefaultPunctuationMark | spec/tests/Ticker-Text-spec.js:185-261 | any word of two to five letters followed by, or wrapped in, any other-punctuation mark gets 2000 ms |
| LooseScenarios.DefaultSentenceDelays | spec/tests/Ticker-Text-spec.js:166-176 | "abc.d..", "abc.d.!" and "abc.d.?" get 4000 ms |
| LooseScenarios.FrozenCall | spec/tests/Ticker-Text-spec.js:81-108 | `false` or nothing decays 5 to 10/3, `true` keeps 5, and a frozen first call returns 1200 ms |
| LooseScenarios.DefaultDecaySequence | spec/tests/Ticker-Text-spec.js:35-58 | four calls on a new instance return 800, 1600/3, 3200/9 and 240 ms, and leave the warm-up at 1 |
| LooseScenarios.ResetRestarts | spec/tests/Ticker-Text-spec.js:63-74 | after two calls, `resetSlowStart()` restores the warm-up 5 and the next call returns 800 ms |
| LooseScenarios.EditsDoNotReset | Ticker-Text.js:127-147 | after the host changes `_baseDelay` to 450 and `slowStartDelay` to 4, the next call uses the new base delay but keeps decaying the old warm-up: 900 ms, warm-up 2 |

## Left out

- Infinities, negative zero and IEEE-754 rounding: numbers are exact reals or NaN, so the strict `orDefault` never sees `Infinity`, and the tests' rounded delays appear as exact fractions.
- Js.StringToNumber: converts only the empty string and plain decimal literals (optional sign, optional fraction); any other string, including surrounding white space, exponents, hexadecimal and "Infinity", gives NaN.
- JavaScript values are reduced to undefined, null, booleans, numbers, strings and objects. An object carries the number it coerces to and is always truthy. Symbols and BigInts are not modelled, and neither are getters or prototype properties of a settings object.
- Loose.TickerText.CalcDelay: takes the token as a string. The source also accepts other values, which `_process` may throw on (`null.length`) or classify by their string form. Those cases are not modelled.
- Strict.StringTime.ResetSlowStart: stores a truthy argument as the number it coerces to. The source stores the value as it is. Every later use of the warm-up coerces it the same way, so the delays and the decay agree; only a host reading `_tempSlowStart` directly could tell the difference.
- Strict.StringTime.New: the settings argument is an object or nothing. Falsy non-objects (0, "", false) behave like nothing in the source and are not separately modelled.
- The `toMultiplyBy` tables of both calculators are treated as one constant (`Settings.ToMultiplyBy`). The source exposes each as a property (`stm._toMultiplyBy`, dist/String-Time.js:94; `tktx._toMultiplyBy`, Ticker-Text.js:84), and a host that edits it changes which modifiers the loop reads; that is not modelled.
- The strict calculator's `defaults` table is treated as constant, although the source exposes it as `stm.defaults`. The loose calculator's `defaults` is modelled as an object of its own whose properties the host can edit.
- The `_settings` alias of `_setts` is the same field; no separate property is modelled.
- `for...in` over `toMultiplyBy` visits the keys in their insertion order. The model fixes that order as a sequence.
- Tokens are sequences of Unicode scalar values. JavaScript's `length` counts UTF-16 code units, so a character outside the Basic Multilingual Plane counts 2 there and 1 here for the short and long flags.
- Error messages: only the error kind and what the error names (first argument, second argument, or a setting) are kept.
- The module wrappers (UMD, AMD, CommonJS), the commented-out hooks, and the `wpm` property beyond its place in the defaults table.
- ticker-text.js is not part of this model. It does not parse as JavaScript, and it duplicates Ticker-Text.js.
