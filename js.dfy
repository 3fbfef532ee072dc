/**
 * The few JavaScript value semantics the delay calculators rely on: numbers
 * (with NaN), truthiness, the `||` operator, `typeof` tests, the numeric
 * coercion done by `*` and `/`, and `Math.max`.
 *
 * Numbers are exact reals; the infinities and IEEE-754 rounding are not part
 * of this model.
 */
module Js {

  /** A JavaScript number: a finite value or NaN. */
  datatype Number = Finite(r: real) | NaN

  /**
   * A JavaScript value as far as the calculators can tell values apart.
   * `Obj` stands for objects, arrays and functions; it carries what the
   * numeric coercion (ToPrimitive, then ToNumber) yields for it, which
   * depends on its `toString`/`valueOf` and is not modelled further.
   */
  datatype Value =
    | Undefined
    | Null
    | Bool(b: bool)
    | Num(n: Number)
    | Str(s: string)
    | Obj(asNumber: Number)

  /** ToBoolean: what `if (v)` and `!v` test. */
  predicate Truthy(v: Value) {
    match v
    case Undefined => false
    case Null => false
    case Bool(b) => b
    case Num(n) => n.Finite? && n.r != 0.0
    case Str(s) => s != ""
    case Obj(_) => true
  }

  /** `a || b`: the first operand when it is truthy, otherwise the second. */
  function Or(a: Value, b: Value): Value {
    if Truthy(a) then a else b
  }

  /** ToNumber, the coercion applied to the operands of `*` and `/`. */
  function ToNumber(v: Value): Number {
    match v
    case Undefined => NaN
    case Null => Finite(0.0)
    case Bool(b) => Finite(if b then 1.0 else 0.0)
    case Num(n) => n
    case Str(s) => StringToNumber(s)
    case Obj(n) => n
  }

  /** `a * b` on numbers. */
  function Mul(a: Number, b: Number): Number {
    if a.Finite? && b.Finite? then Finite(a.r * b.r) else NaN
  }

  /** `a / d` for a non-zero constant divisor `d`. */
  function Div(a: Number, d: real): Number
    requires d != 0.0
  {
    if a.Finite? then Finite(a.r / d) else NaN
  }

  /** `Math.max(a, b)`: NaN as soon as one argument is NaN. */
  function Max(a: Number, b: Number): Number {
    if a.Finite? && b.Finite? then Finite(if a.r >= b.r then a.r else b.r) else NaN
  }

  // ---------------------------------------------------------------------
  // StringToNumber, restricted to the empty string and to decimal literals
  // with an optional sign and an optional fraction ("12", "-0.5", "3.", ".5").

  predicate IsDigit(c: char) { '0' <= c <= '9' }

  function DigitValue(c: char): nat
    requires IsDigit(c)
  {
    (c as int - '0' as int) as nat
  }

  /** The number of leading decimal digits of `s`. */
  function LeadingDigits(s: string): (n: nat)
    ensures n <= |s|
    ensures forall i :: 0 <= i < n ==> IsDigit(s[i])
    ensures n < |s| ==> !IsDigit(s[n])
  {
    if s == [] || !IsDigit(s[0]) then 0 else 1 + LeadingDigits(s[1..])
  }

  /** The value of a string of decimal digits. */
  function DigitsValue(s: string): nat
    requires forall i :: 0 <= i < |s| ==> IsDigit(s[i])
  {
    if s == [] then 0 else DigitsValue(s[..|s| - 1]) * 10 + DigitValue(s[|s| - 1])
  }

  function Pow10(n: nat): (r: nat)
    ensures r >= 1
  {
    if n == 0 then 1 else 10 * Pow10(n - 1)
  }

  /** An unsigned decimal literal: digits, optionally a point and more digits, one digit at least. */
  function UnsignedDecimal(s: string): Number {
    var i := LeadingDigits(s);
    if i == |s| then
      if i == 0 then NaN else Finite(DigitsValue(s) as real)
    else if s[i] != '.' then NaN
    else
      var frac := s[i + 1..];
      if LeadingDigits(frac) != |frac| || (i == 0 && frac == []) then NaN
      else Finite(DigitsValue(s[..i]) as real + DigitsValue(frac) as real / Pow10(|frac|) as real)
  }

  function Negate(n: Number): Number {
    if n.Finite? then Finite(-n.r) else NaN
  }

  function StringToNumber(s: string): Number {
    if s == "" then Finite(0.0)
    else if s[0] == '-' then Negate(UnsignedDecimal(s[1..]))
    else if s[0] == '+' then UnsignedDecimal(s[1..])
    else UnsignedDecimal(s)
  }
}
