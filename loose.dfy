/**
 * The loose calculator, `TickerText`: the same classifier, table and warm-up
 * decay as `StringTime`, without any validation. A modifier is read as
 * `_setts[name] || defaults[name]`, the base delay and the slow-start delay
 * are read from the settings as they are, `justOnce` is only tested for
 * truthiness, and a change of the configured slow-start delay does not reset
 * the warm-up.
 */
module Loose {
  import opened Js
  import opened Classifier
  import opened Settings
  import opened SlowStart

  // ---------------------------------------------------------------------
  // The `delay *=` loop

  /**
   * The factor of a modifier whose flag holds: `_setts[name] || defaults[name]`,
   * coerced to a number by `*=`.
   */
  function Modifier(fields: Fields, defaults: Fields, name: Field): (r: Number)
    ensures Truthy(Lookup(fields, name)) ==> r == ToNumber(Lookup(fields, name))
    ensures !Truthy(Lookup(fields, name)) ==> r == ToNumber(Lookup(defaults, name))
  {
    ToNumber(Or(Lookup(fields, name), Lookup(defaults, name)))
  }

  /**
   * `delay` after the first `n` entries of `toMultiplyBy`. The base delay is
   * read as it is; the first `*=` (or the final multiplication) coerces it,
   * so it is coerced here once, up front.
   */
  function Accumulate(fields: Fields, defaults: Fields, p: Features, n: nat): Number
    requires n <= |ToMultiplyBy|
  {
    if n == 0 then ToNumber(Lookup(fields, BaseDelay))
    else
      var d := Accumulate(fields, defaults, p, n - 1);
      if Holds(p, ToMultiplyBy[n - 1].0) then Mul(d, Modifier(fields, defaults, ToMultiplyBy[n - 1].1)) else d
  }

  /** The first half of `calcDelay`: the base delay times the factor of every flag that holds. */
  method MultiplyDelay(fields: Fields, defaults: Fields, processed: Features) returns (delay: Number)
    ensures delay == Accumulate(fields, defaults, processed, |ToMultiplyBy|)
  {
    delay := ToNumber(Lookup(fields, BaseDelay));
    for i := 0 to |ToMultiplyBy|
      invariant delay == Accumulate(fields, defaults, processed, i)
    {
      var key, delayModKey := ToMultiplyBy[i].0, ToMultiplyBy[i].1;
      if Holds(processed, key) {
        delay := Mul(delay, ToNumber(Or(Lookup(fields, delayModKey), Lookup(defaults, delayModKey))));
      }
    }
  }

  /** The factor a flag contributes: its modifier when it holds, otherwise 1. */
  function FlagFactor(fields: Fields, defaults: Fields, p: Features, flag: Flag): Number {
    if Holds(p, flag) then Modifier(fields, defaults, ModifierOf(flag)) else Finite(1.0)
  }

  /** The base delay times the factor of every flag, each once. */
  function Product(fields: Fields, defaults: Fields, p: Features): Number {
    Mul(Mul(Mul(Mul(Mul(
      ToNumber(Lookup(fields, BaseDelay)),
      FlagFactor(fields, defaults, p, HasPeriod)),
      FlagFactor(fields, defaults, p, HasOtherPunc)),
      FlagFactor(fields, defaults, p, IsShort)),
      FlagFactor(fields, defaults, p, IsLong)),
      FlagFactor(fields, defaults, p, IsNumeric))
  }

  /** Multiplying by 1 changes no number, NaN included. */
  lemma MulOne(d: Number)
    ensures Mul(d, Finite(1.0)) == d
  {
  }

  /**
   * The `delay *=` loop computes the base delay times the factor of every
   * flag that holds, each applied once.
   */
  lemma AccumulateIsProduct(fields: Fields, defaults: Fields, p: Features)
    ensures Accumulate(fields, defaults, p, 5) == Product(fields, defaults, p)
  {
    var d0 := ToNumber(Lookup(fields, BaseDelay));
    var d1 := Mul(d0, FlagFactor(fields, defaults, p, HasPeriod));
    var d2 := Mul(d1, FlagFactor(fields, defaults, p, HasOtherPunc));
    var d3 := Mul(d2, FlagFactor(fields, defaults, p, IsShort));
    var d4 := Mul(d3, FlagFactor(fields, defaults, p, IsLong));
    MulOne(Accumulate(fields, defaults, p, 0));
    MulOne(Accumulate(fields, defaults, p, 1));
    MulOne(Accumulate(fields, defaults, p, 2));
    MulOne(Accumulate(fields, defaults, p, 3));
    MulOne(Accumulate(fields, defaults, p, 4));
    assert Accumulate(fields, defaults, p, 1) == d1;
    assert Accumulate(fields, defaults, p, 2) == d2;
    assert Accumulate(fields, defaults, p, 3) == d3;
    assert Accumulate(fields, defaults, p, 4) == d4;
  }

  /**
   * A token with exactly one flag, such as a short word or a word with a
   * period, gets the base delay times that flag's modifier.
   */
  lemma SingleFlagProduct(fields: Fields, defaults: Fields, p: Features, flag: Flag)
    requires forall f :: Holds(p, f) <==> f == flag
    ensures Product(fields, defaults, p) ==
              Mul(ToNumber(Lookup(fields, BaseDelay)), Modifier(fields, defaults, ModifierOf(flag)))
  {
    var b := ToNumber(Lookup(fields, BaseDelay));
    var m := Modifier(fields, defaults, ModifierOf(flag));
    assert FlagFactor(fields, defaults, p, flag) == m;
    MulOne(b);
    MulOne(Mul(b, m));
    match flag {
      case HasPeriod =>
        assert !Holds(p, HasOtherPunc) && !Holds(p, IsShort) && !Holds(p, IsLong) && !Holds(p, IsNumeric);
      case HasOtherPunc =>
        assert !Holds(p, HasPeriod) && !Holds(p, IsShort) && !Holds(p, IsLong) && !Holds(p, IsNumeric);
      case IsShort =>
        assert !Holds(p, HasPeriod) && !Holds(p, HasOtherPunc) && !Holds(p, IsLong) && !Holds(p, IsNumeric);
      case IsLong =>
        assert !Holds(p, HasPeriod) && !Holds(p, HasOtherPunc) && !Holds(p, IsShort) && !Holds(p, IsNumeric);
      case IsNumeric =>
        assert !Holds(p, HasPeriod) && !Holds(p, HasOtherPunc) && !Holds(p, IsShort) && !Holds(p, IsLong);
    }
  }

  /** A token without any flag, a word of three to seven letters, gets the base delay as it is. */
  lemma NoFlagProduct(fields: Fields, defaults: Fields, p: Features)
    requires forall f :: !Holds(p, f)
    ensures Product(fields, defaults, p) == ToNumber(Lookup(fields, BaseDelay))
  {
    var b := ToNumber(Lookup(fields, BaseDelay));
    MulOne(b);
    assert !Holds(p, HasPeriod) && !Holds(p, HasOtherPunc) && !Holds(p, IsShort) && !Holds(p, IsLong) && !Holds(p, IsNumeric);
  }

  /**
   * A falsy modifier (absent, undefined, null, false, 0, NaN or the empty
   * string) is replaced by the default; with the `defaults` table intact
   * that is a positive number.
   */
  lemma FalsyModifierFallsBack(fields: Fields, name: Field)
    requires !Truthy(Lookup(fields, name))
    ensures Modifier(fields, DefaultFields(), name) == Finite(Default(name))
    ensures Default(name) > 0.0
  {
    DefaultsArePositive(name);
  }

  /**
   * A modifier that is absent or a number never zeroes the delay: the
   * number 0 is falsy and falls back to the default.
   */
  lemma NumericModifierNeverZeroes(fields: Fields, name: Field)
    requires Lookup(fields, name) == Undefined || Lookup(fields, name).Num?
    ensures Modifier(fields, DefaultFields(), name) != Finite(0.0)
  {
    DefaultsArePositive(name);
  }

  /**
   * The string "0", however, is truthy and coerces to 0: it zeroes the
   * delay of every token with that modifier's flag.
   */
  lemma StringZeroZeroesModifier(name: Field)
    ensures Modifier(map[name := Str("0")], DefaultFields(), name) == Finite(0.0)
  {
    assert LeadingDigits("0") == 1;
    assert DigitsValue("0") == 0 by {
      assert "0"[..0] == "";
    }
  }

  /**
   * Unlike the modifiers, the base delay has no fallback: without a usable
   * `_baseDelay` every delay is NaN.
   */
  lemma {:induction false} MissingBaseDelayIsNaN(fields: Fields, defaults: Fields, p: Features, n: nat)
    requires n <= |ToMultiplyBy|
    requires ToNumber(Lookup(fields, BaseDelay)) == NaN
    ensures Accumulate(fields, defaults, p, n) == NaN
  {
    if n > 0 {
      MissingBaseDelayIsNaN(fields, defaults, p, n - 1);
    }
  }

  /**
   * A modifier is read only when its flag holds: whatever the property of a
   * flag that does not hold contains, the delay is the same.
   */
  lemma {:induction false} UnusedModifierIsNotRead(fields: Fields, defaults: Fields, p: Features, flag: Flag, v: Value, n: nat)
    requires n <= |ToMultiplyBy|
    requires !Holds(p, flag)
    ensures Accumulate(fields[ModifierOf(flag) := v], defaults, p, n) == Accumulate(fields, defaults, p, n)
  {
    var fields' := fields[ModifierOf(flag) := v];
    if n == 0 {
      assert Lookup(fields', BaseDelay) == Lookup(fields, BaseDelay);
    } else {
      UnusedModifierIsNotRead(fields, defaults, p, flag, v, n - 1);
      var entry := ToMultiplyBy[n - 1];
      if Holds(p, entry.0) {
        assert entry.1 == ModifierOf(entry.0) && entry.0 != flag;
        assert Lookup(fields', entry.1) == Lookup(fields, entry.1);
      }
    }
  }

  // ---------------------------------------------------------------------
  // The warm-up

  /**
   * `_tempSlowStart` after a call: `Math.max(1, extraDelay / 1.5)` unless
   * `justOnce` is truthy. Nothing else is read: the configuration plays no
   * part.
   */
  function Warmed(temp: Value, justOnce: Value): (r: Value)
    ensures Truthy(justOnce) ==> r == temp
    ensures !Truthy(justOnce) ==> r.Num? && (r.n.Finite? ==> r.n.r >= 1.0)
  {
    if Truthy(justOnce) then temp else Num(Decay(ToNumber(temp)))
  }

  /** The warm-up after `n` calls that are not frozen. */
  function Series(temp: Value, n: nat): Value
    decreases n
  {
    if n == 0 then temp else Series(Warmed(temp, Undefined), n - 1)
  }

  /**
   * Over `n` calls that are not frozen the warm-up decays `n` times,
   * whatever the configuration does meanwhile: there is no implicit reset.
   */
  lemma {:induction false} SeriesDecays(temp: Value, n: nat)
    requires n >= 1
    ensures Series(temp, n) == Num(DecayN(ToNumber(temp), n))
    decreases n
  {
    if n > 1 {
      SeriesDecays(Warmed(temp, Undefined), n - 1);
    }
  }

  /**
   * Enough calls that are not frozen bring a warm-up that coerces to a
   * finite number down to 1.
   */
  lemma SeriesReachesOne(temp: Value, n: nat)
    requires ToNumber(temp).Finite?
    requires n >= StepsToOne(ToNumber(temp).r)
    ensures Series(temp, n) == Num(Finite(1.0))
  {
    SeriesDecays(temp, n);
    ConvergesToOne(ToNumber(temp).r, n);
  }

  // ---------------------------------------------------------------------
  // The object

  /** A `TickerText` instance. */
  class TickerText {
    /** `defaults` (also exposed as `tt.defaults`): an object of its own, created with the instance. */
    const defaults: Settings
    /** `_setts` (also exposed as `_settings`): the settings object, or `defaults` itself. */
    var setts: Settings
    /** `_tempSlowStart`, as it was stored: a coerced number after a decay, otherwise the raw value. */
    var tempSlowStart: Value

    /** `new TickerText(settings)`: creates `defaults`, then `_init(settings)`. */
    constructor (settings: Settings?)
      ensures fresh(defaults) && defaults.fields == DefaultFields()
      ensures setts == if settings == null then defaults else settings
      ensures tempSlowStart == Lookup(setts.fields, SlowStartDelay)
    {
      defaults := new Settings(DefaultFields());
      setts := defaults;
      tempSlowStart := Null;
      new;
      var _ := Init(settings);
    }

    /** `_init(settings)`: `_setts = settings || defaults`, then `resetSlowStart()`. */
    method Init(settings: Settings?) returns (r: TickerText)
      modifies this
      ensures r == this
      ensures setts == if settings == null then defaults else settings
      ensures tempSlowStart == Lookup(setts.fields, SlowStartDelay)
    {
      setts := if settings == null then defaults else settings;
      r := ResetSlowStart(Undefined);
    }

    /**
     * `resetSlowStart(val)`: a truthy `val` becomes the warm-up as it is,
     * otherwise the settings' `slowStartDelay` does, whatever it holds.
     */
    method ResetSlowStart(val: Value) returns (r: TickerText)
      modifies this
      ensures r == this && setts == old(setts)
      ensures tempSlowStart == if Truthy(val) then val else Lookup(setts.fields, SlowStartDelay)
    {
      if Truthy(val) {
        tempSlowStart := val;
      } else {
        tempSlowStart := Lookup(setts.fields, SlowStartDelay);
      }
      r := this;
    }

    /**
     * `calcDelay(str, justOnce)`: the base delay times the factor of every
     * flag that holds, times the warm-up after it decays (unless `justOnce`
     * is truthy).
     */
    method CalcDelay(str: string, justOnce: Value) returns (delay: Number)
      modifies this
      ensures setts == old(setts)
      ensures tempSlowStart == Warmed(old(tempSlowStart), justOnce)
      ensures delay == Mul(Accumulate(setts.fields, defaults.fields, Process(str), |ToMultiplyBy|), ToNumber(tempSlowStart))
    {
      var processed := Process(str);
      delay := MultiplyDelay(setts.fields, defaults.fields, processed);

      var extraDelay := tempSlowStart;
      if !Truthy(justOnce) {
        tempSlowStart := Num(Max(Finite(1.0), Div(ToNumber(extraDelay), 1.5)));
      }

      delay := Mul(delay, ToNumber(tempSlowStart));
    }
  }

  // ---------------------------------------------------------------------
  // Properties of calcDelay

  /** `calcDelay`'s result, as a function of the warm-up before the call. */
  function CalcSpec(temp: Value, fields: Fields, defaults: Fields, str: string, justOnce: Value): Number {
    Mul(Accumulate(fields, defaults, Process(str), |ToMultiplyBy|), ToNumber(Warmed(temp, justOnce)))
  }

  /**
   * The delay is the base delay times the factor of every flag that holds,
   * times the updated warm-up.
   */
  lemma DelayIsProduct(temp: Value, fields: Fields, defaults: Fields, str: string, justOnce: Value)
    ensures CalcSpec(temp, fields, defaults, str, justOnce) ==
              Mul(Product(fields, defaults, Process(str)), ToNumber(Warmed(temp, justOnce)))
  {
    AccumulateIsProduct(fields, defaults, Process(str));
  }

  /**
   * A settings object without a `slowStartDelay` leaves the warm-up
   * undefined after construction, and then every delay is NaN, frozen or
   * not.
   */
  lemma NoSlowStartGivesNaN(fields: Fields, defaults: Fields, str: string, justOnce: Value)
    requires Lookup(fields, SlowStartDelay) == Undefined
    ensures CalcSpec(Lookup(fields, SlowStartDelay), fields, defaults, str, justOnce) == NaN
  {
  }
}
