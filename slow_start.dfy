/**
 * The slow-start ("warm-up") multiplier shared by both calculators: every
 * call that is not frozen replaces it by `Math.max(1, w / 1.5)`.
 */
module SlowStart {
  import opened Js

  /** `Math.max( 1, extraDelay / 1.5 )`. */
  function Decay(w: Number): (r: Number)
    ensures w.NaN? <==> r.NaN?
    ensures r.Finite? ==> r.r >= 1.0
    ensures w.Finite? && w.r >= 1.5 ==> r == Finite(w.r / 1.5)
    ensures w.Finite? && w.r <= 1.5 ==> r == Finite(1.0)
  {
    Max(Finite(1.0), Div(w, 1.5))
  }

  /** The warm-up after `n` calls that are not frozen. */
  function DecayN(w: Number, n: nat): Number
    decreases n
  {
    if n == 0 then w else DecayN(Decay(w), n - 1)
  }

  /** 1.5 to the power `n`. */
  function Pow(n: nat): (p: real)
    ensures p >= 1.0
  {
    if n == 0 then 1.0 else 1.5 * Pow(n - 1)
  }

  /** Bernoulli's inequality for 1.5: the powers grow at least linearly. */
  lemma {:induction false} PowGrows(n: nat)
    ensures Pow(n) >= 1.0 + n as real / 2.0
  {
    if n > 0 {
      PowGrows(n - 1);
    }
  }

  lemma {:induction false} PowMonotonic(m: nat, n: nat)
    requires m <= n
    ensures Pow(m) <= Pow(n)
  {
    if m < n {
      PowMonotonic(m, n - 1);
    }
  }

  /** Once at 1, the warm-up stays at 1. */
  lemma {:induction false} OneIsFixedPoint(n: nat)
    ensures DecayN(Finite(1.0), n) == Finite(1.0)
  {
    if n > 0 {
      OneIsFixedPoint(n - 1);
    }
  }

  /** A warm-up of at most 1.5^n reaches 1 after n (at least one) calls. */
  lemma {:induction false} DecayReachesOne(w: real, n: nat)
    requires 1 <= n && w <= Pow(n)
    ensures DecayN(Finite(w), n) == Finite(1.0)
    decreases n
  {
    if n == 1 {
      assert Decay(Finite(w)) == Finite(1.0);
    } else {
      var w' := Decay(Finite(w)).r;
      assert w' <= Pow(n - 1);
      DecayReachesOne(w', n - 1);
    }
  }

  /** A number of calls after which a warm-up of `w` has reached 1. */
  function StepsToOne(w: real): (n: nat)
    ensures 1 <= n && w <= Pow(n)
  {
    if w <= 1.5 then
      assert Pow(1) == 1.5;
      1
    else
      var n := (2.0 * w).Floor;
      PowGrows(n);
      n
  }

  /**
   * Repeated calls that are not frozen bring any finite warm-up down to 1,
   * and it stays there.
   */
  lemma ConvergesToOne(w: real, m: nat)
    requires m >= StepsToOne(w)
    ensures DecayN(Finite(w), m) == Finite(1.0)
  {
    PowMonotonic(StepsToOne(w), m);
    DecayReachesOne(w, m);
  }
}
