/**
 * How the strict calculator, `StringTime`, resolves its settings: every
 * property it reads goes through `orDefault`, which substitutes the default
 * for an absent property and throws for one that is not a non-negative
 * number; the delay is the base delay multiplied, entry by entry of
 * `toMultiplyBy`, by the modifiers of the flags that hold.
 */
module StrictConfig {
  import opened Js
  import opened Classifier
  import opened Settings

  // ---------------------------------------------------------------------
  // Errors

  datatype ErrorKind = TypeError | RangeError

  /** What an error is about: an argument of `calcDelay`, or a settings property. */
  datatype Subject = FirstArgument | SecondArgument | Setting(field: Field)

  datatype Error = Error(kind: ErrorKind, subject: Subject)

  /** A value, or the exception thrown instead. */
  datatype Result<T> = Success(value: T) | Failure(error: Error)

  /** What `_checkSettings` ends with: normal return, or an exception. */
  datatype Check = Pass | Fail(error: Error)

  // ---------------------------------------------------------------------
  // orDefault

  /** A property value that `orDefault` accepts: a number that is neither negative nor NaN. */
  predicate Acceptable(v: Value) {
    v.Num? && v.n.Finite? && v.n.r >= 0.0
  }

  /**
   * `orDefault(name)` against the current properties of the settings object
   * (no settings object at all reads like an object without properties).
   */
  function OrDefault(fields: Fields, name: Field): (r: Result<real>)
    ensures Lookup(fields, name) == Undefined ==> r == Success(Default(name))
    ensures Acceptable(Lookup(fields, name)) ==> r == Success(Lookup(fields, name).n.r)
    ensures r.Success? <==> Lookup(fields, name) == Undefined || Acceptable(Lookup(fields, name))
    ensures r.Success? ==> r.value >= 0.0
    ensures r.Failure? ==> r.error == Error(if Lookup(fields, name).Num? then RangeError else TypeError, Setting(name))
  {
    if name in fields && fields[name] != Undefined then
      var val := fields[name];
      if !val.Num? then Failure(Error(TypeError, Setting(name)))
      else if val.n.NaN? || val.n.r < 0.0 then Failure(Error(RangeError, Setting(name)))
      else Success(val.n.r)
    else
      DefaultsArePositive(name);
      Success(Default(name))
  }

  // ---------------------------------------------------------------------
  // The delay before the warm-up is applied

  /** `delay *= factor`, where either operand may be an exception already thrown. */
  function Times(delay: Result<real>, factor: Result<real>): (r: Result<real>)
    ensures r.Success? <==> delay.Success? && factor.Success?
    ensures r.Success? ==> r.value == delay.value * factor.value
    ensures r.Failure? ==> r.error == (if delay.Failure? then delay.error else factor.error)
  {
    match delay
    case Failure(e) => Failure(e)
    case Success(d) =>
      match factor
      case Failure(e) => Failure(e)
      case Success(m) => Success(d * m)
  }

  /**
   * What one entry of `toMultiplyBy` multiplies the delay by: the resolved
   * modifier when the entry's flag holds (it is resolved only then), and 1
   * otherwise.
   */
  function Factor(fields: Fields, p: Features, entry: (Flag, Field)): (r: Result<real>)
    ensures r.Success? ==> r.value >= 0.0
  {
    if Holds(p, entry.0) then OrDefault(fields, entry.1) else Success(1.0)
  }

  /**
   * The value of `delay` after the base delay and the first `n` entries of
   * `toMultiplyBy` have been processed, or the exception thrown on the way.
   */
  function Accumulate(fields: Fields, p: Features, n: nat): (r: Result<real>)
    requires n <= |ToMultiplyBy|
    ensures r.Failure? ==> r.error.subject.Setting?
  {
    if n == 0 then OrDefault(fields, BaseDelay)
    else
      Times(Accumulate(fields, p, n - 1), Factor(fields, p, ToMultiplyBy[n - 1]))
  }

  /**
   * One more entry of the table, after entries that all resolved to
   * `delay`: an entry whose flag does not hold changes nothing, one whose
   * modifier throws ends the loop with that exception, and one whose
   * modifier resolves multiplies the delay by it.
   */
  lemma AccumulateStep(fields: Fields, p: Features, i: nat, delay: real)
    requires i < |ToMultiplyBy|
    requires Accumulate(fields, p, i).Success? && Accumulate(fields, p, i).value == delay
    ensures !Holds(p, ToMultiplyBy[i].0) ==>
              Accumulate(fields, p, i + 1).Success? && Accumulate(fields, p, i + 1).value == delay
    ensures Holds(p, ToMultiplyBy[i].0) && OrDefault(fields, ToMultiplyBy[i].1).Failure? ==>
              Accumulate(fields, p, |ToMultiplyBy|) == OrDefault(fields, ToMultiplyBy[i].1)
    ensures Holds(p, ToMultiplyBy[i].0) && OrDefault(fields, ToMultiplyBy[i].1).Success? ==>
              && Accumulate(fields, p, i + 1).Success?
              && Accumulate(fields, p, i + 1).value == delay * OrDefault(fields, ToMultiplyBy[i].1).value
  {
    if !Holds(p, ToMultiplyBy[i].0) {
      AccumulateSkips(fields, p, i, delay);
    } else if OrDefault(fields, ToMultiplyBy[i].1).Failure? {
      AccumulateThrows(fields, p, i, delay);
    } else {
      var m := OrDefault(fields, ToMultiplyBy[i].1);
      AccumulateMultiplies(fields, p, i, delay);
      assert Times(Success(delay), m) == Success(delay * m.value);
    }
  }

  /** An entry whose flag does not hold leaves the delay as it is. */
  lemma AccumulateSkips(fields: Fields, p: Features, i: nat, delay: real)
    requires i < |ToMultiplyBy| && !Holds(p, ToMultiplyBy[i].0)
    requires Accumulate(fields, p, i) == Success(delay)
    ensures Accumulate(fields, p, i + 1) == Success(delay)
  {
  }

  /** An entry whose modifier throws ends the loop with that exception. */
  lemma AccumulateThrows(fields: Fields, p: Features, i: nat, delay: real)
    requires i < |ToMultiplyBy| && Holds(p, ToMultiplyBy[i].0)
    requires OrDefault(fields, ToMultiplyBy[i].1).Failure?
    requires Accumulate(fields, p, i) == Success(delay)
    ensures Accumulate(fields, p, |ToMultiplyBy|) == OrDefault(fields, ToMultiplyBy[i].1)
  {
    AccumulateFailureStays(fields, p, i + 1, |ToMultiplyBy|);
  }

  /** An entry whose flag holds multiplies the delay by its modifier, as `*=` does. */
  lemma AccumulateMultiplies(fields: Fields, p: Features, i: nat, delay: real)
    requires i < |ToMultiplyBy| && Holds(p, ToMultiplyBy[i].0)
    requires Accumulate(fields, p, i) == Success(delay)
    ensures Accumulate(fields, p, i + 1) == Times(Success(delay), OrDefault(fields, ToMultiplyBy[i].1))
  {
    assert Factor(fields, p, ToMultiplyBy[i]) == OrDefault(fields, ToMultiplyBy[i].1);
  }

  /** Once an exception is thrown, the rest of the table is not reached. */
  lemma {:induction false} AccumulateFailureStays(fields: Fields, p: Features, i: nat, n: nat)
    requires i <= n <= |ToMultiplyBy|
    requires Accumulate(fields, p, i).Failure?
    ensures Accumulate(fields, p, n) == Accumulate(fields, p, i)
    decreases n
  {
    if i < n {
      AccumulateFailureStays(fields, p, i, n - 1);
    }
  }

  /** The factor a flag contributes: its own modifier when it holds, otherwise 1. */
  function FlagFactor(fields: Fields, p: Features, flag: Flag): Result<real> {
    Factor(fields, p, (flag, ModifierOf(flag)))
  }

  /** Every factor of the delay resolves. */
  predicate FactorsResolve(fields: Fields, p: Features) {
    && OrDefault(fields, BaseDelay).Success?
    && FlagFactor(fields, p, HasPeriod).Success?
    && FlagFactor(fields, p, HasOtherPunc).Success?
    && FlagFactor(fields, p, IsShort).Success?
    && FlagFactor(fields, p, IsLong).Success?
    && FlagFactor(fields, p, IsNumeric).Success?
  }

  /** The product of six resolved values. */
  function ProductOf(b: Result<real>, f1: Result<real>, f2: Result<real>, f3: Result<real>, f4: Result<real>, f5: Result<real>): real
    requires b.Success? && f1.Success? && f2.Success? && f3.Success? && f4.Success? && f5.Success?
  {
    b.value * f1.value * f2.value * f3.value * f4.value * f5.value
  }

  /** The base delay times the modifier of every flag that holds, each once. */
  function Product(fields: Fields, p: Features): real
    requires FactorsResolve(fields, p)
  {
    ProductOf(
      OrDefault(fields, BaseDelay),
      FlagFactor(fields, p, HasPeriod), FlagFactor(fields, p, HasOtherPunc),
      FlagFactor(fields, p, IsShort), FlagFactor(fields, p, IsLong),
      FlagFactor(fields, p, IsNumeric))
  }

  /** The first exception among six results, or success when there is none. */
  function FirstError(b: Result<real>, f1: Result<real>, f2: Result<real>, f3: Result<real>, f4: Result<real>, f5: Result<real>): Error
    requires !(b.Success? && f1.Success? && f2.Success? && f3.Success? && f4.Success? && f5.Success?)
  {
    if b.Failure? then b.error
    else if f1.Failure? then f1.error
    else if f2.Failure? then f2.error
    else if f3.Failure? then f3.error
    else if f4.Failure? then f4.error
    else f5.error
  }

  /** Five multiplications in a row: the product of all six, or the first exception. */
  lemma TimesChain(b: Result<real>, f1: Result<real>, f2: Result<real>, f3: Result<real>, f4: Result<real>, f5: Result<real>)
    ensures var a := Times(Times(Times(Times(Times(b, f1), f2), f3), f4), f5);
            && (a.Success? <==> b.Success? && f1.Success? && f2.Success? && f3.Success? && f4.Success? && f5.Success?)
            && (a.Success? ==> a.value == ProductOf(b, f1, f2, f3, f4, f5))
            && (a.Failure? ==> a.error == FirstError(b, f1, f2, f3, f4, f5))
  {
    var a1 := Times(b, f1);
    var a2 := Times(a1, f2);
    var a3 := Times(a2, f3);
    var a4 := Times(a3, f4);
    var a5 := Times(a4, f5);
    if a5.Success? {
      assert a4.value == b.value * f1.value * f2.value * f3.value * f4.value;
    }
  }

  /** `Accumulate` over the whole table, unfolded entry by entry. */
  lemma AccumulateUnfolds(fields: Fields, p: Features)
    ensures Accumulate(fields, p, 5) ==
              Times(Times(Times(Times(Times(
                OrDefault(fields, BaseDelay),
                FlagFactor(fields, p, HasPeriod)),
                FlagFactor(fields, p, HasOtherPunc)),
                FlagFactor(fields, p, IsShort)),
                FlagFactor(fields, p, IsLong)),
                FlagFactor(fields, p, IsNumeric))
  {
    assert Accumulate(fields, p, 1) == Times(OrDefault(fields, BaseDelay), FlagFactor(fields, p, HasPeriod));
    assert Accumulate(fields, p, 2) == Times(Accumulate(fields, p, 1), FlagFactor(fields, p, HasOtherPunc));
    assert Accumulate(fields, p, 3) == Times(Accumulate(fields, p, 2), FlagFactor(fields, p, IsShort));
    assert Accumulate(fields, p, 4) == Times(Accumulate(fields, p, 3), FlagFactor(fields, p, IsLong));
  }

  /**
   * When it does not throw, the `delay *=` loop computes the product of the
   * base delay and the modifiers of the flags that hold, each once.
   */
  lemma AccumulateIsProduct(fields: Fields, p: Features)
    requires FactorsResolve(fields, p)
    ensures Accumulate(fields, p, 5).Success? && Accumulate(fields, p, 5).value == Product(fields, p)
  {
    AccumulateUnfolds(fields, p);
    TimesChain(OrDefault(fields, BaseDelay),
      FlagFactor(fields, p, HasPeriod), FlagFactor(fields, p, HasOtherPunc),
      FlagFactor(fields, p, IsShort), FlagFactor(fields, p, IsLong), FlagFactor(fields, p, IsNumeric));
  }

  /**
   * The `delay *=` loop throws exactly when the base delay or the modifier
   * of a flag that holds is invalid.
   */
  lemma AccumulateSucceeds(fields: Fields, p: Features)
    ensures Accumulate(fields, p, 5).Success? <==> FactorsResolve(fields, p)
  {
    AccumulateUnfolds(fields, p);
    TimesChain(OrDefault(fields, BaseDelay),
      FlagFactor(fields, p, HasPeriod), FlagFactor(fields, p, HasOtherPunc),
      FlagFactor(fields, p, IsShort), FlagFactor(fields, p, IsLong), FlagFactor(fields, p, IsNumeric));
  }

  /**
   * When the loop throws, it throws the error of the first invalid setting
   * in the order base delay, sentence, other punctuation, short, long,
   * numeric.
   */
  lemma AccumulateFirstError(fields: Fields, p: Features)
    ensures OrDefault(fields, BaseDelay).Failure? ==>
              Accumulate(fields, p, 5).Failure? && Accumulate(fields, p, 5).error == OrDefault(fields, BaseDelay).error
    ensures forall flag ::
              && OrDefault(fields, BaseDelay).Success?
              && FlagFactor(fields, p, flag).Failure?
              && (forall earlier :: IndexOf(earlier) < IndexOf(flag) ==> FlagFactor(fields, p, earlier).Success?)
              ==> Accumulate(fields, p, 5).Failure? && Accumulate(fields, p, 5).error == FlagFactor(fields, p, flag).error
  {
    AccumulateUnfolds(fields, p);
    TimesChain(OrDefault(fields, BaseDelay),
      FlagFactor(fields, p, HasPeriod), FlagFactor(fields, p, HasOtherPunc),
      FlagFactor(fields, p, IsShort), FlagFactor(fields, p, IsLong), FlagFactor(fields, p, IsNumeric));
  }

  /**
   * A modifier is resolved only when its flag holds: whatever the property
   * of a flag that does not hold contains, the delay is the same.
   */
  lemma {:induction false} UnusedModifierIsNotRead(fields: Fields, p: Features, flag: Flag, v: Value, n: nat)
    requires n <= |ToMultiplyBy|
    requires !Holds(p, flag)
    ensures Accumulate(fields[ModifierOf(flag) := v], p, n) == Accumulate(fields, p, n)
  {
    var fields' := fields[ModifierOf(flag) := v];
    if n == 0 {
      assert Lookup(fields', BaseDelay) == Lookup(fields, BaseDelay);
    } else {
      UnusedModifierIsNotRead(fields, p, flag, v, n - 1);
      var entry := ToMultiplyBy[n - 1];
      if Holds(p, entry.0) {
        assert entry.1 == ModifierOf(entry.0) && entry.0 != flag;
        assert Lookup(fields', entry.1) == Lookup(fields, entry.1);
      }
    }
  }

  /** The fields `_checkSettings` resolves, in its order: the modifiers, then the base and slow-start delays. */
  const CheckedFields: seq<Field> := [
    SentenceDelay, OtherPuncDelay, ShortWordDelay, LongWordDelay, NumericDelay,
    BaseDelay, SlowStartDelay
  ]

  /** Resolving `names` one after the other: the first exception, if any. */
  function CheckAll(fields: Fields, names: seq<Field>): Check {
    if names == [] then Pass
    else
      match CheckAll(fields, names[..|names| - 1])
      case Fail(e) => Fail(e)
      case Pass =>
        match OrDefault(fields, names[|names| - 1])
        case Failure(e) => Fail(e)
        case Success(_) => Pass
  }

  /**
   * Validation passes exactly when every listed property is absent or an
   * acceptable number, and otherwise reports the first one that is not.
   */
  lemma {:induction false} CheckAllMeaning(fields: Fields, names: seq<Field>)
    ensures CheckAll(fields, names).Pass? <==> forall i :: 0 <= i < |names| ==> OrDefault(fields, names[i]).Success?
    ensures CheckAll(fields, names).Fail? ==>
              exists i :: 0 <= i < |names| && OrDefault(fields, names[i]) == Failure(CheckAll(fields, names).error)
                && forall j :: 0 <= j < i ==> OrDefault(fields, names[j]).Success?
  {
    if names != [] {
      var init := names[..|names| - 1];
      CheckAllMeaning(fields, init);
      assert forall i :: 0 <= i < |init| ==> init[i] == names[i];
    }
  }

  /** Extending a passing prefix by one name checks just that name. */
  lemma CheckAllSnoc(fields: Fields, names: seq<Field>, i: nat)
    requires i < |names|
    requires CheckAll(fields, names[..i]).Pass?
    ensures CheckAll(fields, names[..i + 1]) ==
              match OrDefault(fields, names[i]) case Failure(e) => Fail(e) case Success(_) => Pass
  {
    assert names[..i + 1][..i] == names[..i];
  }

  /** Once a check fails, checking more names reports the same failure. */
  lemma {:induction false} CheckAllFailureStays(fields: Fields, names: seq<Field>, i: nat)
    requires i <= |names|
    requires CheckAll(fields, names[..i]).Fail?
    ensures CheckAll(fields, names) == CheckAll(fields, names[..i])
    decreases |names| - i
  {
    if i < |names| {
      assert names[..i + 1][..i] == names[..i];
      CheckAllFailureStays(fields, names, i + 1);
    } else {
      assert names[..i] == names;
    }
  }
}
