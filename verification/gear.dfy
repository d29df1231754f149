/**
 * The fifth-order Gear predictor-corrector for the damped oscillator
 * x'' = (-k x - gamma x') / m. The integrator keeps the position and its
 * first five time derivatives in a six-slot array, r r1 r2 r3 r4 r5.
 *
 * A step predicts every slot by a Taylor expansion of the slots above it,
 * compares the acceleration the oscillator law gives at the predicted
 * position and velocity with the predicted acceleration, and corrects every
 * slot by its Gear coefficient times that difference, rescaled to the slot's
 * order.
 */
module GearIntegrator {
  import opened RealMath
  import Bodies

  /** Number of kept derivatives, the position included. */
  const Order: nat := 6

  /** 0! .. 5!. */
  const Factorials: seq<real> := [1.0, 1.0, 2.0, 6.0, 24.0, 120.0]

  /** The Gear corrector coefficients of the fifth-order scheme for second-order equations. */
  const Alpha: seq<real> := [3.0 / 16.0, 251.0 / 360.0, 1.0, 11.0 / 18.0, 1.0 / 6.0, 1.0 / 60.0]

  /** The six slots of a particle at rest at the origin. */
  const AtRest: seq<real> := [0.0, 0.0, 0.0, 0.0, 0.0, 0.0]

  /** n!, the reference the factorial table is checked against. */
  function Fact(n: nat): (r: nat)
    ensures 1 <= r
  {
    if n == 0 then 1 else n * Fact(n - 1)
  }

  /** The factorial table holds n! in slot n. */
  lemma FactorialsAreFactorials()
    ensures |Factorials| == Order
    ensures forall n :: 0 <= n < Order ==> Factorials[n] == Fact(n) as real
  {
    assert Fact(0) == 1 && Fact(1) == 1 && Fact(2) == 2;
    assert Fact(3) == 6 && Fact(4) == 24 && Fact(5) == 120;
  }

  /** Term j of the Taylor expansion of slot i: d[j] dt^(j-i) / (j-i)!. */
  function TaylorTerm(d: seq<real>, i: nat, j: nat, dt: real): real
    requires i <= j < |d| == Order
  {
    d[j] * (Pow(dt, j - i) / Factorials[j - i])
  }

  /** The terms i .. j-1 of the expansion of slot i, added in that order. */
  function TaylorSum(d: seq<real>, i: nat, j: nat, dt: real): real
    requires i <= j <= |d| == Order
    decreases j
  {
    if j == i then 0.0 else TaylorSum(d, i, j - 1, dt) + TaylorTerm(d, i, j - 1, dt)
  }

  /** The predicted slots: every slot expanded to the top of the array. */
  function Predicted(d: seq<real>, dt: real): (p: seq<real>)
    requires |d| == Order
    ensures |p| == Order
  {
    seq(Order, i requires 0 <= i < Order => TaylorSum(d, i, Order, dt))
  }

  /** The corrected slots: p[i] + alpha_i deltaR2 i! / dt^i. */
  function Corrected(p: seq<real>, deltaR2: real, dt: real): (c: seq<real>)
    requires |p| == Order && dt != 0.0
    ensures |c| == Order
  {
    seq(Order, i requires 0 <= i < Order => p[i] + (Alpha[i] * deltaR2 * Factorials[i]) / Pow(dt, i))
  }

  /** The force of the damped spring at position x and velocity v. */
  function OscillatorForce(x: real, v: real, k: real, gamma: real): real {
    -k * x - gamma * v
  }

  /** The acceleration of the oscillator at position x and velocity v. */
  function OscillatorAcceleration(x: real, v: real, k: real, gamma: real, mass: real): real
    requires mass != 0.0
  {
    OscillatorForce(x, v, k, gamma) / mass
  }

  /** The acceleration the law gives at the predicted position and velocity, minus the predicted one. */
  function AccelerationError(p: seq<real>, k: real, gamma: real, mass: real): real
    requires |p| == Order && mass != 0.0
  {
    OscillatorAcceleration(p[0], p[1], k, gamma, mass) - p[2]
  }

  /** The correction term: the acceleration error times dt^2 / 2!. */
  function DeltaR2(deltaA: real, dt: real): real {
    deltaA * (dt * dt) / Factorials[2]
  }

  /** One Gear step on the six slots. */
  function GearStep(d: seq<real>, k: real, gamma: real, mass: real, dt: real): (e: seq<real>)
    requires |d| == Order && mass != 0.0 && dt != 0.0
    ensures |e| == Order
  {
    var p := Predicted(d, dt);
    Corrected(p, DeltaR2(AccelerationError(p, k, gamma, mass), dt), dt)
  }

  class Gear {
    /** The spring constant. */
    const k: real
    /** The damping constant. */
    const gamma: real
    const mass: real
    /** r r1 r2 r3 r4 r5. */
    var derivatives: array<real>

    ghost predicate Valid()
      reads this
    {
      derivatives.Length == Order && mass != 0.0
    }

    /**
     * An integrator for the given particle. Only the mass is taken from it:
     * position and velocity stay 0, so the higher slots, computed from them
     * by the oscillator law, are 0 as well.
     */
    constructor (p: Bodies.Particle, k: real, gamma: real)
      ensures Valid() && fresh(derivatives)
      ensures this.k == k && this.gamma == gamma && mass == p.mass
      ensures derivatives[..] == AtRest
    {
      this.k := k;
      this.gamma := gamma;
      this.mass := p.mass;
      var d := new real[Order](_ => 0.0);
      d[2] := (-k * d[0] - gamma * d[1]) / p.mass;
      d[3] := (-k * d[1] - gamma * d[2]) / p.mass;
      d[4] := (-k * d[2] - gamma * d[3]) / p.mass;
      d[5] := (-k * d[3] - gamma * d[4]) / p.mass;
      derivatives := d;
    }

    /** The predicted slots, in a fresh array; the slots themselves are not touched. */
    method Predict(dt: real) returns (predicted: array<real>)
      requires Valid()
      ensures fresh(predicted) && predicted[..] == Predicted(derivatives[..], dt)
    {
      ghost var d := derivatives[..];
      predicted := new real[Order];
      for i := 0 to Order
        invariant forall m :: 0 <= m < i ==> predicted[m] == TaylorSum(d, m, Order, dt)
      {
        var sum := 0.0;
        for j := i to Order
          invariant sum == TaylorSum(d, i, j, dt)
        {
          var term := derivatives[j] * (Pow(dt, j - i) / Factorials[j - i]);
          assert term == TaylorTerm(d, i, j, dt);
          sum := sum + term;
        }
        predicted[i] := sum;
      }
    }

    /** Overwrites every slot with its corrected value. */
    method Correct(predicted: array<real>, deltaR2: real, dt: real)
      requires Valid() && predicted.Length == Order && dt != 0.0
      modifies derivatives
      ensures derivatives[..] == Corrected(old(predicted[..]), deltaR2, dt)
    {
      ghost var p := predicted[..];
      for i := 0 to Order
        invariant forall m :: 0 <= m < i ==> derivatives[m] == Corrected(p, deltaR2, dt)[m]
        invariant forall m :: i <= m < Order ==> predicted[m] == p[m]
      {
        derivatives[i] := predicted[i] + (Alpha[i] * deltaR2 * Factorials[i]) / Pow(dt, i);
      }
    }

    /** One step of length dt; the particle is neither read nor written. */
    method Step(p: Bodies.Particle, dt: real)
      requires Valid() && dt != 0.0
      modifies derivatives
      ensures derivatives[..] == GearStep(old(derivatives[..]), k, gamma, mass, dt)
    {
      var predictedDerivatives := Predict(dt);
      var r0p := predictedDerivatives[0];
      var r1p := predictedDerivatives[1];
      var realForce := OscillatorForce(r0p, r1p, k, gamma);
      var realAcceleration := realForce / mass;
      var deltaA := realAcceleration - predictedDerivatives[2];
      var deltaR2 := DeltaR2(deltaA, dt);
      ghost var pd := predictedDerivatives[..];
      assert r0p == pd[0] && r1p == pd[1] && predictedDerivatives[2] == pd[2];
      assert pd == Predicted(old(derivatives[..]), dt);
      Correct(predictedDerivatives, deltaR2, dt);
      assert derivatives[..] == Corrected(pd, deltaR2, dt);
    }
  }

  /** The terms of slot i from i+1 on vanish when dt is 0, so the partial sums stay at d[i]. */
  lemma {:induction false} TaylorSumAtZero(d: seq<real>, i: nat, j: nat)
    requires i < j <= |d| == Order
    ensures TaylorSum(d, i, j, 0.0) == d[i]
    decreases j
  {
    if j == i + 1 {
      assert TaylorSum(d, i, i, 0.0) == 0.0;
      assert Pow(0.0, 0) == 1.0;
    } else {
      TaylorSumAtZero(d, i, j - 1);
      PowOfZero(j - 1 - i);
    }
  }

  /** A step of length 0 predicts every slot unchanged. */
  lemma PredictedAtZero(d: seq<real>)
    requires |d| == Order
    ensures Predicted(d, 0.0) == d
  {
    forall i | 0 <= i < Order
      ensures Predicted(d, 0.0)[i] == d[i]
    {
      TaylorSumAtZero(d, i, Order);
    }
  }

  /** The top slot has nothing above it: its prediction is itself. */
  lemma PredictedTop(d: seq<real>, dt: real)
    requires |d| == Order
    ensures Predicted(d, dt)[5] == d[5]
  {
    assert TaylorSum(d, 5, 5, dt) == 0.0;
    assert Pow(dt, 0) == 1.0;
  }

  /** Slots above the accumulated range contribute nothing when they are 0. */
  lemma {:induction false} TaylorSumOfZeros(d: seq<real>, i: nat, j: nat, dt: real)
    requires i <= j <= |d| == Order
    requires forall m :: i < m < Order ==> d[m] == 0.0
    ensures TaylorSum(d, i, j, dt) == if j == i then 0.0 else d[i]
    decreases j
  {
    if j == i + 1 {
      assert TaylorSum(d, i, i, dt) == 0.0;
      assert Pow(dt, 0) == 1.0;
    } else if j > i + 1 {
      TaylorSumOfZeros(d, i, j - 1, dt);
    }
  }

  /** Uniform motion: position r and velocity v, all higher slots 0, is predicted exactly. */
  lemma UniformMotionPredicted(r: real, v: real, dt: real)
    ensures Predicted([r, v, 0.0, 0.0, 0.0, 0.0], dt) == [r + v * dt, v, 0.0, 0.0, 0.0, 0.0]
  {
    var d := [r, v, 0.0, 0.0, 0.0, 0.0];
    var p := Predicted(d, dt);
    assert Pow(dt, 1) == dt * Pow(dt, 0) == dt;
    assert TaylorSum(d, 0, 2, dt) == r + v * dt;
    forall i | 1 <= i < Order
      ensures p[i] == d[i]
    {
      TaylorSumOfZeros(d, i, Order, dt);
    }
    assert p[0] == TaylorSum(d, 0, Order, dt);
    assert TaylorSum(d, 0, 3, dt) == r + v * dt + 0.0;
    assert TaylorSum(d, 0, 4, dt) == r + v * dt + 0.0;
    assert TaylorSum(d, 0, 5, dt) == r + v * dt + 0.0;
  }

  /**
   * The corrector makes the acceleration slot exact: after a step it is the
   * oscillator law evaluated at the predicted position and velocity. This
   * holds because alpha_2 = 1 and 2!/dt^2 undoes the dt^2/2! of deltaR2.
   */
  lemma CorrectedAcceleration(d: seq<real>, k: real, gamma: real, mass: real, dt: real)
    requires |d| == Order && mass != 0.0 && dt != 0.0
    ensures var p := Predicted(d, dt);
      GearStep(d, k, gamma, mass, dt)[2] == OscillatorAcceleration(p[0], p[1], k, gamma, mass)
  {
    var p := Predicted(d, dt);
    SlotTwoCancels(p[2], AccelerationError(p, k, gamma, mass), dt);
  }

  /** alpha_2 = 1 and 2! / dt^2 undo the factor dt^2 / 2! of deltaR2. */
  lemma SlotTwoCancels(p2: real, deltaA: real, dt: real)
    requires dt != 0.0
    ensures p2 + (Alpha[2] * DeltaR2(deltaA, dt) * Factorials[2]) / Pow(dt, 2) == p2 + deltaA
  {
    var s := dt * dt;
    assert Pow(dt, 2) == s by {
      assert Pow(dt, 1) == dt * Pow(dt, 0) == dt;
    }
    assert s != 0.0;
    assert Alpha[2] == 1.0 && Factorials[2] == 2.0;
    assert 1.0 * (deltaA * s / 2.0) * 2.0 == deltaA * s;
    assert deltaA * s / s == deltaA;
  }

  /** The particle at rest at the origin stays there: the all-zero slots are a fixed point. */
  lemma RestIsFixedPoint(k: real, gamma: real, mass: real, dt: real)
    requires mass != 0.0 && dt != 0.0
    ensures GearStep(AtRest, k, gamma, mass, dt) == AtRest
  {
    var p := Predicted(AtRest, dt);
    forall i | 0 <= i < Order
      ensures p[i] == 0.0
    {
      TaylorSumOfZeros(AtRest, i, Order, dt);
    }
    assert AccelerationError(p, k, gamma, mass) == 0.0;
    assert DeltaR2(0.0, dt) == 0.0;
  }
}
