/**
 * The configuration both calculators read: the named fields, the `defaults`
 * table, the host-owned settings object, and the `toMultiplyBy` table that
 * pairs each feature flag with the field holding its modifier.
 */
module Settings {
  import opened Js
  import opened Classifier

  /** The properties of a settings object that the calculators know about. */
  datatype Field =
    | Wpm
    | BaseDelay        // `_baseDelay`
    | SlowStartDelay
    | SentenceDelay
    | OtherPuncDelay
    | NumericDelay
    | ShortWordDelay
    | LongWordDelay

  /** The `defaults` table. */
  function Default(f: Field): real {
    match f
    case Wpm => 250.0
    case BaseDelay => 1.0 / (250.0 / 60.0) * 1000.0   // based on wpm
    case SlowStartDelay => 5.0
    case SentenceDelay => 5.0
    case OtherPuncDelay => 2.5
    case NumericDelay => 2.0
    case ShortWordDelay => 1.3
    case LongWordDelay => 1.5
  }

  /** Every default is a positive number, and the base delay is 240 ms (250 words per minute). */
  lemma DefaultsArePositive(f: Field)
    ensures Default(f) > 0.0
    ensures Default(BaseDelay) == 240.0
  {
  }

  /** The properties of a settings object; a property that is absent reads as `undefined`. */
  type Fields = map<Field, Value>

  /** `obj[name]`. */
  function Lookup(fields: Fields, name: Field): Value {
    if name in fields then fields[name] else Undefined
  }

  /** The `defaults` table as the properties of an object. */
  function DefaultFields(): (m: Fields)
    ensures forall f :: Lookup(m, f) == Num(Finite(Default(f)))
  {
    map f: Field | true :: Num(Finite(Default(f)))
  }

  /**
   * A settings object. The host application owns it and may change its
   * properties at any time; the calculators keep a reference and only read it.
   */
  class Settings {
    var fields: Fields

    constructor (fields: Fields)
      ensures this.fields == fields
    {
      this.fields := fields;
    }
  }

  /** The keys of `toMultiplyBy`: the feature flags that carry a modifier. */
  datatype Flag = HasPeriod | HasOtherPunc | IsShort | IsLong | IsNumeric

  /** `processed[key]`. */
  function Holds(p: Features, flag: Flag): bool {
    match flag
    case HasPeriod => p.hasPeriod
    case HasOtherPunc => p.hasOtherPunc
    case IsShort => p.isShort
    case IsLong => p.isLong
    case IsNumeric => p.isNumeric
  }

  /** `toMultiplyBy`, in the order in which `for...in` visits its keys. */
  const ToMultiplyBy: seq<(Flag, Field)> := [
    (HasPeriod, SentenceDelay),
    (HasOtherPunc, OtherPuncDelay),
    (IsShort, ShortWordDelay),
    (IsLong, LongWordDelay),
    (IsNumeric, NumericDelay)
  ]

  /** The modifier field of each flag. */
  function ModifierOf(flag: Flag): (f: Field)
    ensures f !in {Wpm, BaseDelay, SlowStartDelay}
  {
    match flag
    case HasPeriod => SentenceDelay
    case HasOtherPunc => OtherPuncDelay
    case IsShort => ShortWordDelay
    case IsLong => LongWordDelay
    case IsNumeric => NumericDelay
  }

  /** The position of each flag in `toMultiplyBy`. */
  function IndexOf(flag: Flag): (i: nat)
    ensures i < |ToMultiplyBy| && ToMultiplyBy[i] == (flag, ModifierOf(flag))
  {
    match flag
    case HasPeriod => 0
    case HasOtherPunc => 1
    case IsShort => 2
    case IsLong => 3
    case IsNumeric => 4
  }

  /**
   * `toMultiplyBy` lists every flag exactly once, with its own modifier, so
   * every modifier that applies is applied exactly once.
   */
  lemma ToMultiplyByListsEachFlagOnce()
    ensures forall i :: 0 <= i < |ToMultiplyBy| ==> ToMultiplyBy[i].1 == ModifierOf(ToMultiplyBy[i].0)
    ensures forall i :: 0 <= i < |ToMultiplyBy| ==> IndexOf(ToMultiplyBy[i].0) == i
    ensures forall flag, flag' :: ModifierOf(flag) == ModifierOf(flag') ==> flag == flag'
  {
  }
}
