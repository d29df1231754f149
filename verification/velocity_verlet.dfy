/**
 * The split Velocity-Verlet integrator: updatePositions takes the half kick
 * v + a dt/2 and drifts every particle by it, updateVelocities adds the
 * second half kick with the acceleration found at the new positions. Between
 * the two halves the caller recomputes the accelerations from the positions;
 * that recomputation is a parameter `accel` of the value-level step.
 */
module VelocityVerletIntegrator {
  import opened Vectors
  import opened Bodies

  /** v(t + dt/2) = v(t) + a(t) dt/2. */
  function HalfKick(b: Body, dt: real): Vec3 {
    Add(b.velocity, Scale(b.acceleration, dt / 2.0))
  }

  /** What updatePositions does to every particle: half kick, then drift with the new velocity. */
  function PositionsUpdated(bs: seq<Body>, dt: real): (cs: seq<Body>)
    ensures |cs| == |bs|
    ensures forall i :: 0 <= i < |bs| ==>
      cs[i] == bs[i].(position := Add(bs[i].position, Scale(HalfKick(bs[i], dt), dt)),
                      velocity := HalfKick(bs[i], dt))
  {
    seq(|bs|, i requires 0 <= i < |bs| =>
      bs[i].(position := Add(bs[i].position, Scale(HalfKick(bs[i], dt), dt)), velocity := HalfKick(bs[i], dt)))
  }

  /** What updateVelocities does to every particle: the second half kick. */
  function VelocitiesUpdated(bs: seq<Body>, dt: real): (cs: seq<Body>)
    ensures |cs| == |bs|
    ensures forall i :: 0 <= i < |bs| ==> cs[i] == bs[i].(velocity := HalfKick(bs[i], dt))
  {
    seq(|bs|, i requires 0 <= i < |bs| => bs[i].(velocity := HalfKick(bs[i], dt)))
  }

  /** The first half of a step, particle by particle in list order. */
  method UpdatePositions(particles: seq<Particle>, dt: real)
    requires Distinct(particles)
    modifies particles
    ensures Snapshot(particles) == PositionsUpdated(old(Snapshot(particles)), dt)
  {
    ghost var bs := Snapshot(particles);
    for k := 0 to |particles|
      invariant forall m :: 0 <= m < k ==> particles[m].State() == PositionsUpdated(bs, dt)[m]
      invariant forall m :: k <= m < |particles| ==> particles[m].State() == bs[m]
    {
      var p := particles[k];
      var halfStepVelocity := Add(p.velocity, Scale(p.acceleration, dt / 2.0));
      var nextPosition := Add(p.position, Scale(halfStepVelocity, dt));
      p.SetPosition(nextPosition);
      p.SetVelocity(halfStepVelocity);
    }
  }

  /** The second half of a step, particle by particle in list order. */
  method UpdateVelocities(particles: seq<Particle>, dt: real)
    requires Distinct(particles)
    modifies particles
    ensures Snapshot(particles) == VelocitiesUpdated(old(Snapshot(particles)), dt)
  {
    ghost var bs := Snapshot(particles);
    for k := 0 to |particles|
      invariant forall m :: 0 <= m < k ==> particles[m].State() == VelocitiesUpdated(bs, dt)[m]
      invariant forall m :: k <= m < |particles| ==> particles[m].State() == bs[m]
    {
      var p := particles[k];
      var finalVelocity := Add(p.velocity, Scale(p.acceleration, dt / 2.0));
      p.SetVelocity(finalVelocity);
    }
  }

  /** Every body's acceleration replaced by the corresponding entry of as_. */
  function WithAccelerations(bs: seq<Body>, as_: seq<Vec3>): (cs: seq<Body>)
    requires |as_| == |bs|
    ensures |cs| == |bs|
    ensures forall i :: 0 <= i < |bs| ==> cs[i] == bs[i].(acceleration := as_[i])
  {
    seq(|bs|, i requires 0 <= i < |bs| => bs[i].(acceleration := as_[i]))
  }

  /** An acceleration law gives one acceleration per position. */
  ghost predicate KeepsLength(accel: seq<Vec3> -> seq<Vec3>) {
    forall xs :: |accel(xs)| == |xs|
  }

  /** The accelerations recomputed from the current positions. */
  ghost function Recomputed(bs: seq<Body>, accel: seq<Vec3> -> seq<Vec3>): (cs: seq<Body>)
    requires KeepsLength(accel)
    ensures |cs| == |bs|
  {
    WithAccelerations(bs, accel(Positions(bs)))
  }

  /** One full step: updatePositions, recompute the accelerations, updateVelocities. */
  ghost function SplitStep(bs: seq<Body>, dt: real, accel: seq<Vec3> -> seq<Vec3>): (cs: seq<Body>)
    requires KeepsLength(accel)
    ensures |cs| == |bs|
  {
    VelocitiesUpdated(Recomputed(PositionsUpdated(bs, dt), accel), dt)
  }

  /** A full step as a function of the state. */
  ghost function Stepper(dt: real, accel: seq<Vec3> -> seq<Vec3>): seq<Body> -> seq<Body>
    requires KeepsLength(accel)
  {
    bs => SplitStep(bs, dt, accel)
  }

  /** n applications of a step function. */
  ghost function Iterate(step: seq<Body> -> seq<Body>, bs: seq<Body>, n: nat): seq<Body> {
    if n == 0 then bs else step(Iterate(step, bs, n - 1))
  }

  /** n full steps. */
  ghost function SplitSteps(bs: seq<Body>, dt: real, accel: seq<Vec3> -> seq<Vec3>, n: nat): seq<Body>
    requires KeepsLength(accel)
  {
    Iterate(Stepper(dt, accel), bs, n)
  }

  /** The stored accelerations are the ones the law gives at the stored positions. */
  ghost predicate Consistent(bs: seq<Body>, accel: seq<Vec3> -> seq<Vec3>)
    requires KeepsLength(accel)
  {
    Accelerations(bs) == accel(Positions(bs))
  }

  /** Every velocity negated, as the reversibility check does between its two runs. */
  function Reversed(bs: seq<Body>): (cs: seq<Body>)
    ensures |cs| == |bs|
    ensures forall i :: 0 <= i < |bs| ==> cs[i] == bs[i].(velocity := Neg(bs[i].velocity))
  {
    seq(|bs|, i requires 0 <= i < |bs| => bs[i].(velocity := Neg(bs[i].velocity)))
  }

  /** Reversing twice restores the velocities. */
  lemma ReversedTwice(bs: seq<Body>)
    ensures Reversed(Reversed(bs)) == bs
  {
    assert forall i :: 0 <= i < |bs| ==> Neg(Neg(bs[i].velocity)) == bs[i].velocity;
  }

  /**
   * Without acceleration, updatePositions followed by updateVelocities moves
   * every particle by v dt and leaves every velocity as it was.
   */
  lemma DriftWithoutAcceleration(bs: seq<Body>, dt: real)
    requires forall i :: 0 <= i < |bs| ==> bs[i].acceleration == Zero
    ensures var cs := VelocitiesUpdated(PositionsUpdated(bs, dt), dt);
      |cs| == |bs| &&
      forall i :: 0 <= i < |bs| ==> cs[i] == bs[i].(position := Add(bs[i].position, Scale(bs[i].velocity, dt)))
  {
    var cs := VelocitiesUpdated(PositionsUpdated(bs, dt), dt);
    forall i | 0 <= i < |bs|
      ensures cs[i] == bs[i].(position := Add(bs[i].position, Scale(bs[i].velocity, dt)))
    {
      assert HalfKick(bs[i], dt) == bs[i].velocity;
      assert HalfKick(PositionsUpdated(bs, dt)[i], dt) == bs[i].velocity;
    }
  }

  /** A step leaves the accelerations consistent with the positions it produced. */
  lemma StepKeepsConsistent(bs: seq<Body>, dt: real, accel: seq<Vec3> -> seq<Vec3>)
    requires KeepsLength(accel)
    ensures Consistent(SplitStep(bs, dt, accel), accel)
  {
    var ps := PositionsUpdated(bs, dt);
    var rs := Recomputed(ps, accel);
    var cs := SplitStep(bs, dt, accel);
    assert Positions(cs) == Positions(rs) == Positions(ps);
    assert Accelerations(cs) == Accelerations(rs) == accel(Positions(ps));
  }

  /** One particle's half of the reversibility argument. */
  lemma ReverseOne(b: Body, a1: Vec3, dt: real)
    ensures var p := b.(position := Add(b.position, Scale(HalfKick(b, dt), dt)), velocity := HalfKick(b, dt));
      var c := p.(acceleration := a1);
      var d := c.(velocity := HalfKick(c, dt));
      var e := d.(velocity := Neg(d.velocity));
      HalfKick(e, dt) == Neg(HalfKick(b, dt)) &&
      Add(e.position, Scale(Neg(HalfKick(b, dt)), dt)) == b.position
  {
    var h := HalfKick(b, dt);
    var k := Scale(a1, dt / 2.0);
    assert Add(Neg(Add(h, k)), k) == Neg(h);
    var s := Scale(h, dt);
    assert Scale(Neg(h), dt) == Neg(s);
    assert Add(Add(b.position, s), Neg(s)) == b.position;
  }

  /** The second half of a particle's reversed step restores its velocity, negated. */
  lemma ReverseOneVelocity(b: Body, dt: real)
    ensures Add(Neg(HalfKick(b, dt)), Scale(b.acceleration, dt / 2.0)) == Neg(b.velocity)
  {
    var k := Scale(b.acceleration, dt / 2.0);
    assert Add(Neg(Add(b.velocity, k)), k) == Neg(b.velocity);
  }

  /**
   * Time reversibility of one step: from a state whose accelerations match
   * its positions, a step, a reversal of the velocities and a second step
   * give back the starting state with its velocities reversed.
   */
  lemma StepReversible(bs: seq<Body>, dt: real, accel: seq<Vec3> -> seq<Vec3>)
    requires KeepsLength(accel) && Consistent(bs, accel)
    ensures SplitStep(Reversed(SplitStep(bs, dt, accel)), dt, accel) == Reversed(bs)
  {
    var n := |bs|;
    var ps := PositionsUpdated(bs, dt);
    var rs := Recomputed(ps, accel);
    var cs := VelocitiesUpdated(rs, dt);
    var es := Reversed(cs);
    var qs := PositionsUpdated(es, dt);
    forall i | 0 <= i < n
      ensures qs[i] == bs[i].(velocity := Neg(HalfKick(bs[i], dt)), acceleration := rs[i].acceleration)
    {
      ReverseOne(bs[i], rs[i].acceleration, dt);
    }
    assert Positions(qs) == Positions(bs);
    var ts := Recomputed(qs, accel);
    assert forall i :: 0 <= i < n ==> ts[i] == bs[i].(velocity := Neg(HalfKick(bs[i], dt)));
    var us := VelocitiesUpdated(ts, dt);
    forall i | 0 <= i < n
      ensures us[i] == Reversed(bs)[i]
    {
      ReverseOneVelocity(bs[i], dt);
    }
  }

  /** Unfolding the first of n + 1 steps instead of the last. */
  lemma {:induction false} IterateFirst(step: seq<Body> -> seq<Body>, bs: seq<Body>, n: nat)
    ensures Iterate(step, bs, n + 1) == Iterate(step, step(bs), n)
  {
    if n > 0 {
      IterateFirst(step, bs, n - 1);
    }
  }

  /** A property every step preserves holds after any number of steps. */
  lemma {:induction false} IterateKeeps(step: seq<Body> -> seq<Body>, inv: seq<Body> -> bool, bs: seq<Body>, n: nat)
    requires inv(bs) && forall x {:trigger step(x)} :: inv(x) ==> inv(step(x))
    ensures inv(Iterate(step, bs, n))
  {
    if n > 0 {
      IterateKeeps(step, inv, bs, n - 1);
    }
  }

  /**
   * A step that reversal undoes, on a set of states that steps preserve, is
   * undone by reversal over any number of steps.
   */
  lemma {:induction false} IterateReversible(step: seq<Body> -> seq<Body>, inv: seq<Body> -> bool, bs: seq<Body>, n: nat)
    requires inv(bs)
    requires forall x {:trigger step(x)} :: inv(x) ==> inv(step(x))
    requires forall x {:trigger Reversed(step(x))} :: inv(x) ==> step(Reversed(step(x))) == Reversed(x)
    ensures Iterate(step, Reversed(Iterate(step, bs, n)), n) == Reversed(bs)
  {
    if n > 0 {
      var ys := Iterate(step, bs, n - 1);
      IterateKeeps(step, inv, bs, n - 1);
      IterateFirst(step, Reversed(step(ys)), n - 1);
      IterateReversible(step, inv, bs, n - 1);
    }
  }

  /**
   * Time reversibility over n steps, as the integrator test runs it: n steps
   * forward, reverse the velocities, n steps more, and every particle is back
   * where it started with its velocity reversed.
   */
  lemma StepsReversible(bs: seq<Body>, dt: real, accel: seq<Vec3> -> seq<Vec3>, n: nat)
    requires KeepsLength(accel) && Consistent(bs, accel)
    ensures SplitSteps(Reversed(SplitSteps(bs, dt, accel, n)), dt, accel, n) == Reversed(bs)
  {
    var step := Stepper(dt, accel);
    var inv := xs => Consistent(xs, accel);
    forall x | inv(x)
      ensures inv(step(x)) && step(Reversed(step(x))) == Reversed(x)
    {
      StepKeepsConsistent(x, dt, accel);
      StepReversible(x, dt, accel);
    }
    IterateReversible(step, inv, bs, n);
  }

  /** The velocity sum after a half kick: the old sum plus dt/2 times the acceleration sum. */
  lemma HalfKickSum(bs: seq<Body>, dt: real)
    ensures Sum(Velocities(VelocitiesUpdated(bs, dt)))
      == Add(Sum(Velocities(bs)), Scale(Sum(Accelerations(bs)), dt / 2.0))
  {
    assert Velocities(VelocitiesUpdated(bs, dt)) == Plus(Velocities(bs), Times(Accelerations(bs), dt / 2.0));
    SumPlus(Velocities(bs), Times(Accelerations(bs), dt / 2.0));
    SumTimes(Accelerations(bs), dt / 2.0);
  }

  /** The same for the half kick of updatePositions. */
  lemma DriftKickSum(bs: seq<Body>, dt: real)
    ensures Sum(Velocities(PositionsUpdated(bs, dt)))
      == Add(Sum(Velocities(bs)), Scale(Sum(Accelerations(bs)), dt / 2.0))
  {
    assert Velocities(PositionsUpdated(bs, dt)) == Velocities(VelocitiesUpdated(bs, dt));
    HalfKickSum(bs, dt);
  }

  /** An acceleration law whose accelerations always sum to zero, as a pair law's do. */
  ghost predicate NetZero(accel: seq<Vec3> -> seq<Vec3>) {
    forall xs :: Sum(accel(xs)) == Zero
  }

  /**
   * With unit masses, a step whose accelerations sum to zero before it, under
   * a law whose accelerations always sum to zero, leaves the total momentum
   * unchanged.
   */
  lemma StepConservesMomentum(bs: seq<Body>, dt: real, accel: seq<Vec3> -> seq<Vec3>)
    requires KeepsLength(accel) && NetZero(accel) && Sum(Accelerations(bs)) == Zero
    ensures Momentum(SplitStep(bs, dt, accel)) == Momentum(bs)
  {
    var ps := PositionsUpdated(bs, dt);
    var rs := Recomputed(ps, accel);
    DriftKickSum(bs, dt);
    assert Velocities(rs) == Velocities(ps);
    assert Accelerations(rs) == accel(Positions(ps));
    HalfKickSum(rs, dt);
    MomentumIsVelocitySum(bs);
    MomentumIsVelocitySum(SplitStep(bs, dt, accel));
    assert Scale(Zero, dt / 2.0) == Zero;
  }

  /** A state consistent with a net-zero law has accelerations summing to zero. */
  lemma ConsistentNetZero(bs: seq<Body>, accel: seq<Vec3> -> seq<Vec3>)
    requires KeepsLength(accel) && NetZero(accel) && Consistent(bs, accel)
    ensures Sum(Accelerations(bs)) == Zero
  {
    assert Sum(accel(Positions(bs))) == Zero;
  }

  /**
   * Momentum conservation, as the integrator test checks it: from a state
   * whose accelerations come from a law whose accelerations always sum to
   * zero, any number of steps leave the total momentum unchanged.
   */
  lemma StepsConserveMomentum(bs: seq<Body>, dt: real, accel: seq<Vec3> -> seq<Vec3>, n: nat)
    requires KeepsLength(accel) && NetZero(accel) && Consistent(bs, accel)
    ensures Momentum(SplitSteps(bs, dt, accel, n)) == Momentum(bs)
  {
    var step := Stepper(dt, accel);
    var p := Momentum(bs);
    var inv := xs => Consistent(xs, accel) && Momentum(xs) == p;
    forall x | inv(x)
      ensures inv(step(x))
    {
      StepKeepsConsistent(x, dt, accel);
      ConsistentNetZero(x, accel);
      StepConservesMomentum(x, dt, accel);
    }
    IterateKeeps(step, inv, bs, n);
  }
}
