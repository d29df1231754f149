/**
 * The explicit (position) Verlet integrator of the damped oscillator
 * a = (-k r - gamma v) / m. The integrator remembers the previous position;
 * before its first step it has none (the source keeps NaN there, modelled
 * as None) and bootstraps it with a Taylor step backwards in time.
 */
module ExplicitVerlet {
  import Oscillator

  datatype Option<T> = None | Some(value: T)

  /** The acceleration of the damped spring at position r and velocity v. */
  function Acceleration(k: real, gamma: real, m: real, r: real, v: real): real
    requires m != 0.0
  {
    (-k * r - gamma * v) / m
  }

  /** The bootstrap: where a Taylor expansion says the particle was dt ago. */
  function BackStep(k: real, gamma: real, m: real, r0: real, v0: real, dt: real): real
    requires m != 0.0
  {
    r0 - v0 * dt + 0.5 * Acceleration(k, gamma, m, r0, v0) * dt * dt
  }

  /** What one step reads and writes: the integrator's memory and the particle. */
  datatype VerletState = VerletState(previousPosition: Option<real>, position: real, velocity: real)

  /** The previous position a step works from: the stored one, or the bootstrap. */
  function PreviousFor(s: VerletState, k: real, gamma: real, m: real, dt: real): real
    requires m != 0.0
  {
    match s.previousPosition
    case None => BackStep(k, gamma, m, s.position, s.velocity, dt)
    case Some(prev) => prev
  }

  /** One step of the integrator on a value. */
  function StepState(s: VerletState, k: real, gamma: real, m: real, dt: real): VerletState
    requires m != 0.0 && dt != 0.0
  {
    var prev := PreviousFor(s, k, gamma, m, dt);
    var a := Acceleration(k, gamma, m, s.position, s.velocity);
    var next := 2.0 * s.position - prev + a * dt * dt;
    VerletState(Some(s.position), next, (next - prev) / (2.0 * dt))
  }

  /** n steps of the integrator. */
  function Steps(s: VerletState, k: real, gamma: real, m: real, dt: real, n: nat): VerletState
    requires m != 0.0 && dt != 0.0
  {
    if n == 0 then s else StepState(Steps(s, k, gamma, m, dt, n - 1), k, gamma, m, dt)
  }

  class Verlet {
    /** The spring constant. */
    const k: real
    /** The damping constant. */
    const gamma: real
    /** None until the first step has bootstrapped it. */
    var previousPosition: Option<real>

    /** A fresh integrator is uninitialised. */
    constructor (k: real, gamma: real)
      ensures this.k == k && this.gamma == gamma
      ensures previousPosition == None
    {
      this.k := k;
      this.gamma := gamma;
      previousPosition := None;
    }

    /**
     * Advances the particle by dt: bootstraps the previous position if there
     * is none, then applies the Verlet position formula and the
     * central-difference velocity, and remembers the position it started from.
     */
    method Step(p: Oscillator.Particle, dt: real)
      requires p.mass != 0.0 && dt != 0.0
      modifies this, p
      ensures VerletState(previousPosition, p.position, p.velocity)
        == StepState(VerletState(old(previousPosition), old(p.position), old(p.velocity)), k, gamma, p.mass, dt)
    {
      ghost var s0 := VerletState(previousPosition, p.position, p.velocity);
      if previousPosition.None? {
        InitializePreviousPosition(p, dt);
      }
      var currentPosition := p.position;
      var mass := p.mass;
      var force := -k * currentPosition - gamma * p.velocity;
      var acceleration := force / mass;
      var nextPosition := 2.0 * currentPosition - previousPosition.value + acceleration * dt * dt;
      var nextVelocity := (nextPosition - previousPosition.value) / (2.0 * dt);
      ghost var t := StepState(s0, k, gamma, mass, dt);
      assert previousPosition.value == PreviousFor(s0, k, gamma, mass, dt);
      assert acceleration == Acceleration(k, gamma, mass, s0.position, s0.velocity);
      assert nextPosition == t.position;
      assert nextVelocity == t.velocity;
      previousPosition := Some(currentPosition);
      p.SetPosition(nextPosition);
      p.SetVelocity(nextVelocity);
    }

    /** Stores the Taylor back-step from the particle's current state. */
    method InitializePreviousPosition(p0: Oscillator.Particle, dt: real)
      requires p0.mass != 0.0
      modifies this
      ensures previousPosition == Some(BackStep(k, gamma, p0.mass, p0.position, p0.velocity, dt))
    {
      var r0 := p0.position;
      var v0 := p0.velocity;
      var m := p0.mass;
      var f0 := -k * r0 - gamma * v0;
      var a0 := f0 / m;
      var back := r0 - v0 * dt + 0.5 * a0 * dt * dt;
      assert back == BackStep(k, gamma, m, r0, v0, dt);
      previousPosition := Some(back);
    }
  }

  /**
   * The first step from an uninitialised integrator is the second-order
   * Taylor step r0 + v0 dt + a0 dt^2 / 2, and it reports the starting
   * velocity v0 unchanged.
   */
  lemma FirstStepIsTaylorStep(r0: real, v0: real, k: real, gamma: real, m: real, dt: real)
    requires m != 0.0 && dt != 0.0
    ensures var a0 := Acceleration(k, gamma, m, r0, v0);
      StepState(VerletState(None, r0, v0), k, gamma, m, dt)
        == VerletState(Some(r0), r0 + v0 * dt + 0.5 * a0 * dt * dt, v0)
  {
    var a0 := Acceleration(k, gamma, m, r0, v0);
    var prev := r0 - v0 * dt + 0.5 * a0 * dt * dt;
    var next := 2.0 * r0 - prev + a0 * dt * dt;
    assert next == r0 + v0 * dt + 0.5 * a0 * dt * dt;
    assert next - prev == v0 * (2.0 * dt);
    assert (next - prev) / (2.0 * dt) == v0;
  }

  /**
   * After any step the integrator is initialised and remembers the position
   * the step started from, so the bootstrap never runs again: every later step
   * works from the stored previous position.
   */
  lemma BootstrapOnlyOnce(s: VerletState, k: real, gamma: real, m: real, dt: real, n: nat)
    requires m != 0.0 && dt != 0.0 && 0 < n
    ensures Steps(s, k, gamma, m, dt, n).previousPosition == Some(Steps(s, k, gamma, m, dt, n - 1).position)
    ensures 1 < n ==> PreviousFor(Steps(s, k, gamma, m, dt, n - 1), k, gamma, m, dt)
                        == Steps(s, k, gamma, m, dt, n - 2).position
  {
  }

  /**
   * Along any run, from the second step on, the positions of three
   * consecutive states follow the discrete equation of motion
   * r(n+1) - 2 r(n) + r(n-1) = a(n) dt^2, and the reported velocity is the
   * central difference (r(n+1) - r(n-1)) / (2 dt).
   */
  lemma DiscreteEquationOfMotion(s: VerletState, k: real, gamma: real, m: real, dt: real, n: nat)
    requires m != 0.0 && dt != 0.0 && 0 < n
    ensures var before := Steps(s, k, gamma, m, dt, n - 1);
      var now := Steps(s, k, gamma, m, dt, n);
      var after := Steps(s, k, gamma, m, dt, n + 1);
      && after.position - 2.0 * now.position + before.position
         == Acceleration(k, gamma, m, now.position, now.velocity) * dt * dt
      && after.velocity * (2.0 * dt) == after.position - before.position
  {
    var now := Steps(s, k, gamma, m, dt, n);
    BootstrapOnlyOnce(s, k, gamma, m, dt, n);
    assert Steps(s, k, gamma, m, dt, n + 1) == StepState(now, k, gamma, m, dt);
    StepFrom(now, Steps(s, k, gamma, m, dt, n - 1).position, k, gamma, m, dt);
  }

  /** One step from a state that remembers prev, in the form of the discrete equation of motion. */
  lemma StepFrom(now: VerletState, prev: real, k: real, gamma: real, m: real, dt: real)
    requires m != 0.0 && dt != 0.0 && now.previousPosition == Some(prev)
    ensures var after := StepState(now, k, gamma, m, dt);
      && after.position - 2.0 * now.position + prev == Acceleration(k, gamma, m, now.position, now.velocity) * dt * dt
      && after.velocity * (2.0 * dt) == after.position - prev
  {
    var after := StepState(now, k, gamma, m, dt);
    assert after.velocity == (after.position - prev) / (2.0 * dt);
  }

  /**
   * Without spring and damping the integrator moves a particle uniformly:
   * after n steps from an uninitialised start the position is r0 + n v0 dt,
   * the velocity is still v0, and the stored previous position is one
   * displacement v0 dt behind.
   */
  lemma {:induction false} FreeParticleMovesUniformly(r0: real, v0: real, m: real, dt: real, n: nat)
    requires m != 0.0 && dt != 0.0
    ensures var s := Steps(VerletState(None, r0, v0), 0.0, 0.0, m, dt, n);
      s.position == r0 + (n as real) * (v0 * dt) && s.velocity == v0
    ensures 0 < n ==> var s := Steps(VerletState(None, r0, v0), 0.0, 0.0, m, dt, n);
      s.previousPosition == Some(s.position - v0 * dt)
  {
    if n == 0 {
      assert n as real == 0.0;
    } else if n == 1 {
      FirstFreeStep(r0, v0, m, dt);
      assert n as real == 1.0;
    } else {
      FreeParticleMovesUniformly(r0, v0, m, dt, n - 1);
      var s := Steps(VerletState(None, r0, v0), 0.0, 0.0, m, dt, n - 1);
      FreeStep(s, m, dt, v0);
      assert Steps(VerletState(None, r0, v0), 0.0, 0.0, m, dt, n) == StepState(s, 0.0, 0.0, m, dt);
      CountUp(r0, v0 * dt, n - 1, n);
    }
  }

  /** The bootstrapping first step of a free particle moves it by v0 dt. */
  lemma FirstFreeStep(r0: real, v0: real, m: real, dt: real)
    requires m != 0.0 && dt != 0.0
    ensures var s := Steps(VerletState(None, r0, v0), 0.0, 0.0, m, dt, 1);
      s.position == r0 + 1.0 * (v0 * dt) && s.velocity == v0 && s.previousPosition == Some(s.position - v0 * dt)
  {
    FirstStepIsTaylorStep(r0, v0, 0.0, 0.0, m, dt);
    assert Acceleration(0.0, 0.0, m, r0, v0) == 0.0;
  }

  /** A free step from a state one displacement w = v0 dt past its previous position advances it by w. */
  lemma FreeStep(s: VerletState, m: real, dt: real, v0: real)
    requires m != 0.0 && dt != 0.0
    requires s.velocity == v0 && s.previousPosition == Some(s.position - v0 * dt)
    ensures var t := StepState(s, 0.0, 0.0, m, dt);
      t.position == s.position + v0 * dt && t.velocity == v0 && t.previousPosition == Some(t.position - v0 * dt)
  {
    var w := v0 * dt;
    assert Acceleration(0.0, 0.0, m, s.position, s.velocity) == 0.0;
    var next := 2.0 * s.position - (s.position - w) + 0.0 * dt * dt;
    assert next == s.position + w;
    assert next - (s.position - w) == v0 * (2.0 * dt);
  }

  /** k displacements and one more are k + 1 displacements. */
  lemma CountUp(r0: real, w: real, k: nat, n: nat)
    requires n == k + 1
    ensures r0 + (k as real) * w + w == r0 + (n as real) * w
  {
  }



}
