/**
 * The strict calculator, `StringTime`: the object, its warm-up state and
 * `calcDelay`, over the settings resolution of `StrictConfig`.
 */
module Strict {
  import opened Js
  import opened Classifier
  import opened Settings
  import opened SlowStart
  import opened StrictConfig

  // ---------------------------------------------------------------------
  // The `delay *=` loop

  /**
   * The first half of `calcDelay`: the resolved base delay multiplied, in
   * table order, by the resolved modifier of every flag that holds.
   */
  method MultiplyDelay(fields: Fields, processed: Features) returns (r: Result<real>)
    ensures r == Accumulate(fields, processed, |ToMultiplyBy|)
  {
    var base := OrDefault(fields, BaseDelay);
    if base.Failure? {
      AccumulateFailureStays(fields, processed, 0, |ToMultiplyBy|);
      return base;
    }
    var delay := base.value;

    for i := 0 to |ToMultiplyBy|
      invariant Accumulate(fields, processed, i) == Success(delay)
    {
      var next := MultiplyEntry(fields, processed, i, delay);
      if next.Failure? {
        return next;
      }
      delay := next.value;
    }
    r := Success(delay);
  }

  /**
   * One pass of the `for...in` body: `delay` times the modifier of entry
   * `i` when its flag holds, or the exception that modifier throws, which
   * is then what the whole loop ends with.
   */
  method MultiplyEntry(fields: Fields, processed: Features, i: nat, delay: real) returns (next: Result<real>)
    requires i < |ToMultiplyBy|
    requires Accumulate(fields, processed, i) == Success(delay)
    ensures next.Success? ==> Accumulate(fields, processed, i + 1) == next
    ensures next.Failure? ==> Accumulate(fields, processed, |ToMultiplyBy|) == next
  {
    var key, delayModKey := ToMultiplyBy[i].0, ToMultiplyBy[i].1;
    if !Holds(processed, key) {
      AccumulateSkips(fields, processed, i, delay);
      return Success(delay);
    }
    var m := OrDefault(fields, delayModKey);
    if m.Failure? {
      AccumulateThrows(fields, processed, i, delay);
      return m;
    }
    AccumulateMultiplies(fields, processed, i, delay);
    next := Times(Success(delay), m);
  }

  // ---------------------------------------------------------------------
  // The warm-up state and the operations on it

  /** The state a `StringTime` keeps: `_tempSlowStart` and the captured `oldStart`. */
  datatype Warmup = Warmup(temp: Number, oldStart: real)

  /** What a successful `calcDelay` returns, and the state it leaves. */
  datatype Step = Step(delay: Number, after: Warmup)

  /**
   * `resetSlowStart(val)`: a truthy `val` becomes the warm-up as it is;
   * otherwise both the warm-up and `oldStart` take the resolved
   * `slowStartDelay`.
   */
  function ResetSpec(w: Warmup, fields: Fields, val: Value): Result<Warmup> {
    if Truthy(val) then Success(w.(temp := ToNumber(val)))
    else
      match OrDefault(fields, SlowStartDelay)
      case Failure(e) => Failure(e)
      case Success(start) => Success(Warmup(Finite(start), start))
  }

  /** `calcDelay(str, justOnce)`, as a function of the state before the call. */
  function CalcSpec(w: Warmup, fields: Fields, str: Value, justOnce: Value): Result<Step> {
    if !str.Str? then Failure(Error(TypeError, FirstArgument))
    else if justOnce != Undefined && !justOnce.Bool? then Failure(Error(TypeError, SecondArgument))
    else
      match Accumulate(fields, Process(str.s), |ToMultiplyBy|)
      case Failure(e) => Failure(e)
      case Success(delay) =>
        match OrDefault(fields, SlowStartDelay)
        case Failure(e) => Failure(e)
        case Success(nowStart) =>
          var synced := if w.oldStart != nowStart then Warmup(Finite(nowStart), nowStart) else w;
          var after := if Truthy(justOnce) then synced else synced.(temp := Decay(synced.temp));
          Success(Step(Mul(Finite(delay), after.temp), after))
  }

  // ---------------------------------------------------------------------
  // The object

  /** A `StringTime` instance. */
  class StringTime {
    /** `_setts` (also exposed as `_settings`): a reference to the host's settings, or none. */
    var setts: Settings?
    /** `_tempSlowStart`, the current warm-up multiplier. */
    var tempSlowStart: Number
    /** `oldStart`, the slow-start setting the warm-up was last reset from. */
    var oldStart: real

    /** The properties of the settings object as they are now. */
    function View(): Fields
      reads this, setts
    {
      if setts == null then map[] else setts.fields
    }

    function State(): Warmup
      reads this
    {
      Warmup(tempSlowStart, oldStart)
    }

    /** The object before `_init`: no settings, `_tempSlowStart` null, `oldStart` the default. */
    constructor Blank()
      ensures setts == null && tempSlowStart == ToNumber(Null) && oldStart == Default(SlowStartDelay)
    {
      setts := null;
      tempSlowStart := ToNumber(Null);
      oldStart := Default(SlowStartDelay);
    }

    /** `new StringTime(settings)`: `_init` on a blank object; throws what `_init` throws. */
    static method New(settings: Settings?) returns (r: Result<StringTime>)
      ensures r.Success? <==> settings == null || CheckAll(settings.fields, CheckedFields).Pass?
      ensures r.Failure? ==> r == Failure(CheckAll(settings.fields, CheckedFields).error)
      ensures r.Success? ==> fresh(r.value) && r.value.setts == settings
      ensures r.Success? ==> r.value.State() == Warmup(
                Finite(OrDefault(r.value.View(), SlowStartDelay).value),
                OrDefault(r.value.View(), SlowStartDelay).value)
    {
      var stm := new StringTime.Blank();
      r := stm.Init(settings);
    }

    /**
     * `_init(settings)`: keeps the reference, validates every property it
     * knows of when a settings object is given, then resets the warm-up.
     */
    method Init(settings: Settings?) returns (r: Result<StringTime>)
      modifies this
      ensures setts == settings
      ensures r.Success? <==> settings == null || CheckAll(settings.fields, CheckedFields).Pass?
      ensures r.Failure? ==> r == Failure(CheckAll(settings.fields, CheckedFields).error)
      ensures r.Success? ==> r.value == this
      ensures r.Success? ==> State() == Warmup(
                Finite(OrDefault(View(), SlowStartDelay).value),
                OrDefault(View(), SlowStartDelay).value)
      ensures r.Failure? ==> State() == old(State())
    {
      setts := settings;
      var checked := CheckSettings(settings);
      if checked.Fail? {
        return Failure(checked.error);
      }
      CheckAllMeaning(View(), CheckedFields);
      assert CheckedFields[6] == SlowStartDelay;
      r := ResetSlowStart(Undefined);
    }

    /**
     * `_checkSettings(settings)`: without an argument it checks nothing;
     * otherwise it resolves every known property of the current settings
     * (`_setts`, not the argument), in order, for its exceptions only.
     */
    method CheckSettings(settings: Settings?) returns (r: Check)
      ensures settings == null ==> r == Pass
      ensures settings != null ==> r == CheckAll(View(), CheckedFields)
      ensures settings != null ==> (r.Pass? <==> forall f :: f in CheckedFields ==> OrDefault(View(), f).Success?)
    {
      if settings == null {
        return Pass;
      }
      var fields := View();
      for i := 0 to |ToMultiplyBy|
        invariant CheckAll(fields, CheckedFields[..i]) == Pass
      {
        var name := ToMultiplyBy[i].1;
        assert name == CheckedFields[i];
        CheckAllSnoc(fields, CheckedFields, i);
        var res := OrDefault(fields, name);
        if res.Failure? {
          CheckAllFailureStays(fields, CheckedFields, i + 1);
          CheckAllMeaning(fields, CheckedFields);
          return Fail(res.error);
        }
      }
      CheckAllSnoc(fields, CheckedFields, 5);
      var res := OrDefault(fields, BaseDelay);
      if res.Failure? {
        CheckAllFailureStays(fields, CheckedFields, 6);
        CheckAllMeaning(fields, CheckedFields);
        return Fail(res.error);
      }
      CheckAllSnoc(fields, CheckedFields, 6);
      res := OrDefault(fields, SlowStartDelay);
      if res.Failure? {
        assert CheckedFields[..7] == CheckedFields;
        CheckAllMeaning(fields, CheckedFields);
        return Fail(res.error);
      }
      assert CheckedFields[..7] == CheckedFields;
      CheckAllMeaning(fields, CheckedFields);
      r := Pass;
    }

    /**
     * `resetSlowStart(val)`; returns the instance, or throws when the
     * configured `slowStartDelay` is invalid.
     */
    method ResetSlowStart(val: Value) returns (r: Result<StringTime>)
      modifies this
      ensures setts == old(setts)
      ensures ResetSpec(old(State()), View(), val).Success? ==>
                r == Success(this) && State() == ResetSpec(old(State()), View(), val).value
      ensures ResetSpec(old(State()), View(), val).Failure? ==>
                r == Failure(ResetSpec(old(State()), View(), val).error) && State() == old(State())
    {
      if Truthy(val) {
        tempSlowStart := ToNumber(val);
      } else {
        var start := OrDefault(View(), SlowStartDelay);
        if start.Failure? {
          return Failure(start.error);
        }
        tempSlowStart := Finite(start.value);
        oldStart := start.value;
      }
      r := Success(this);
    }

    /**
     * `calcDelay(str, justOnce)`: checks its arguments, multiplies the base
     * delay by the modifiers that apply, resynchronises the warm-up with the
     * configured slow-start delay, decays it unless frozen, and returns the
     * delay times the (decayed) warm-up. On an exception nothing changes.
     */
    method CalcDelay(str: Value, justOnce: Value) returns (r: Result<Number>)
      modifies this
      ensures setts == old(setts)
      ensures var spec := CalcSpec(old(State()), View(), str, justOnce);
              match spec
              case Success(step) => r == Success(step.delay) && State() == step.after
              case Failure(e) => r == Failure(e) && State() == old(State())
    {
      if !str.Str? {
        return Failure(Error(TypeError, FirstArgument));
      }
      if justOnce != Undefined && !justOnce.Bool? {
        return Failure(Error(TypeError, SecondArgument));
      }

      var processed := Process(str.s);
      var fields := View();

      var product := MultiplyDelay(fields, processed);
      if product.Failure? {
        return Failure(product.error);
      }
      var delay := product.value;

      var nowStart := OrDefault(fields, SlowStartDelay);
      if nowStart.Failure? {
        return Failure(nowStart.error);
      }
      if oldStart != nowStart.value {
        var _ := ResetSlowStart(Undefined);
      }

      var extraDelay := tempSlowStart;
      if !Truthy(justOnce) {
        tempSlowStart := Decay(extraDelay);
      }

      r := Success(Mul(Finite(delay), tempSlowStart));
    }
  }

  // ---------------------------------------------------------------------
  // Properties of calcDelay

  /**
   * The argument checks come first: a token that is not a string is
   * reported as the first argument, and a `justOnce` that is neither
   * undefined nor a boolean as the second; no other cause yields either.
   */
  lemma ArgumentErrors(w: Warmup, fields: Fields, str: Value, justOnce: Value)
    ensures CalcSpec(w, fields, str, justOnce) == Failure(Error(TypeError, FirstArgument)) <==> !str.Str?
    ensures (CalcSpec(w, fields, str, justOnce) == Failure(Error(TypeError, SecondArgument)))
              <==> (str.Str? && justOnce != Undefined && !justOnce.Bool?)
  {
  }

  /**
   * On success the delay is the base delay times the modifiers of the
   * flags that hold, times the warm-up after this call's update.
   */
  lemma DelayIsProduct(w: Warmup, fields: Fields, str: Value, justOnce: Value)
    requires CalcSpec(w, fields, str, justOnce).Success?
    ensures str.Str? && FactorsResolve(fields, Process(str.s))
    ensures CalcSpec(w, fields, str, justOnce).value.delay ==
              Mul(Finite(Product(fields, Process(str.s))), CalcSpec(w, fields, str, justOnce).value.after.temp)
  {
    AccumulateSucceeds(fields, Process(str.s));
    AccumulateIsProduct(fields, Process(str.s));
  }

  /**
   * With valid arguments the call throws exactly when a setting it reads is
   * invalid: the base delay, the modifier of a flag that holds, or the
   * slow-start delay.
   */
  lemma SettingErrors(w: Warmup, fields: Fields, s: string, justOnce: Value)
    requires justOnce == Undefined || justOnce.Bool?
    ensures CalcSpec(w, fields, Str(s), justOnce).Failure? <==>
              !FactorsResolve(fields, Process(s)) || OrDefault(fields, SlowStartDelay).Failure?
    ensures CalcSpec(w, fields, Str(s), justOnce).Failure? ==>
              CalcSpec(w, fields, Str(s), justOnce).error.subject.Setting?
  {
    AccumulateSucceeds(fields, Process(s));
  }

  /**
   * An invalid modifier only matters for tokens that have its feature: an
   * invalid `shortWordDelay` throws for short tokens and for no others.
   */
  lemma UnusedModifierIsHarmless(w: Warmup, fields: Fields, s: string, justOnce: Value, flag: Flag, v: Value)
    requires !Holds(Process(s), flag)
    ensures CalcSpec(w, fields[ModifierOf(flag) := v], Str(s), justOnce) == CalcSpec(w, fields, Str(s), justOnce)
  {
    UnusedModifierIsNotRead(fields, Process(s), flag, v, |ToMultiplyBy|);
    assert Lookup(fields[ModifierOf(flag) := v], SlowStartDelay) == Lookup(fields, SlowStartDelay);
  }

  /**
   * The warm-up follows the configuration: after a successful call
   * `oldStart` is the configured slow-start delay, and when that setting
   * changed since the last reset the call starts over from it, whatever the
   * warm-up was.
   */
  lemma WarmupFollowsSetting(w: Warmup, fields: Fields, str: Value, justOnce: Value)
    requires CalcSpec(w, fields, str, justOnce).Success?
    ensures OrDefault(fields, SlowStartDelay).Success?
    ensures CalcSpec(w, fields, str, justOnce).value.after.oldStart == OrDefault(fields, SlowStartDelay).value
    ensures w.oldStart != OrDefault(fields, SlowStartDelay).value ==>
              var start := Finite(OrDefault(fields, SlowStartDelay).value);
              CalcSpec(w, fields, str, justOnce).value.after.temp ==
                (if Truthy(justOnce) then start else Decay(start))
  {
  }

  /**
   * A call that is not frozen, with the slow-start setting unchanged,
   * decays the warm-up once; a frozen call leaves it as it was. After a
   * call that is not frozen the warm-up is at least 1 (unless it is NaN,
   * which only a non-numeric `resetSlowStart` argument can cause).
   */
  lemma WarmupUpdate(w: Warmup, fields: Fields, str: Value, justOnce: Value)
    requires CalcSpec(w, fields, str, justOnce).Success?
    ensures OrDefault(fields, SlowStartDelay).Success?
    ensures w.oldStart == OrDefault(fields, SlowStartDelay).value ==>
              CalcSpec(w, fields, str, justOnce).value.after ==
                (if Truthy(justOnce) then w else w.(temp := Decay(w.temp)))
    ensures !Truthy(justOnce) && CalcSpec(w, fields, str, justOnce).value.after.temp.Finite? ==>
              CalcSpec(w, fields, str, justOnce).value.after.temp.r >= 1.0
  {
  }

  /**
   * Calling again with `justOnce` true repeats the previous frozen call
   * exactly: same delay, same state.
   */
  lemma FrozenCallRepeats(w: Warmup, fields: Fields, str: Value)
    requires CalcSpec(w, fields, str, Bool(true)).Success?
    ensures CalcSpec(CalcSpec(w, fields, str, Bool(true)).value.after, fields, str, Bool(true))
              == CalcSpec(w, fields, str, Bool(true))
  {
  }

  /** The warm-up after a series of calls that are not frozen, or the first exception. */
  function CallSeries(w: Warmup, fields: Fields, tokens: seq<string>): Result<Warmup>
    decreases |tokens|
  {
    if tokens == [] then Success(w)
    else
      match CalcSpec(w, fields, Str(tokens[0]), Undefined)
      case Failure(e) => Failure(e)
      case Success(step) => CallSeries(step.after, fields, tokens[1..])
  }

  /**
   * Over a series of calls that are not frozen and do not change the
   * configuration, the warm-up decays once per call.
   */
  lemma {:induction false} CallSeriesDecays(w: Warmup, fields: Fields, tokens: seq<string>)
    requires OrDefault(fields, SlowStartDelay) == Success(w.oldStart)
    requires CallSeries(w, fields, tokens).Success?
    ensures CallSeries(w, fields, tokens).value == w.(temp := DecayN(w.temp, |tokens|))
    decreases |tokens|
  {
    if tokens != [] {
      WarmupUpdate(w, fields, Str(tokens[0]), Undefined);
      var after := CalcSpec(w, fields, Str(tokens[0]), Undefined).value.after;
      CallSeriesDecays(after, fields, tokens[1..]);
    }
  }

  /**
   * Enough calls that are not frozen bring a finite warm-up down to 1,
   * and further calls keep it there.
   */
  lemma CallSeriesReachesOne(w: Warmup, fields: Fields, tokens: seq<string>)
    requires w.temp.Finite?
    requires OrDefault(fields, SlowStartDelay) == Success(w.oldStart)
    requires CallSeries(w, fields, tokens).Success?
    requires |tokens| >= StepsToOne(w.temp.r)
    ensures CallSeries(w, fields, tokens).value.temp == Finite(1.0)
  {
    CallSeriesDecays(w, fields, tokens);
    ConvergesToOne(w.temp.r, |tokens|);
  }

  // ---------------------------------------------------------------------
  // Properties of resetSlowStart and construction

  /**
   * `resetSlowStart()` forgets the history: from any state it yields the
   * state construction yields, so the next call returns what the first
   * call after construction returned.
   */
  lemma ResetForgetsHistory(w: Warmup, fields: Fields)
    requires OrDefault(fields, SlowStartDelay).Success?
    ensures ResetSpec(w, fields, Undefined) ==
              Success(Warmup(Finite(OrDefault(fields, SlowStartDelay).value), OrDefault(fields, SlowStartDelay).value))
  {
  }

  /**
   * `resetSlowStart(v)` with a truthy `v` sets only the warm-up, so the next
   * call uses `v` as long as the slow-start setting is unchanged.
   */
  lemma ExplicitResetIsUsed(w: Warmup, fields: Fields, v: Value, str: Value, justOnce: Value)
    requires Truthy(v)
    requires OrDefault(fields, SlowStartDelay) == Success(w.oldStart)
    requires CalcSpec(ResetSpec(w, fields, v).value, fields, str, justOnce).Success?
    ensures ResetSpec(w, fields, v) == Success(Warmup(ToNumber(v), w.oldStart))
    ensures CalcSpec(ResetSpec(w, fields, v).value, fields, str, justOnce).value.after.temp ==
              (if Truthy(justOnce) then ToNumber(v) else Decay(ToNumber(v)))
  {
  }
}
