/**
 * The fused Velocity-Verlet integrator over an array of particles: back up
 * the acceleration, drift every particle by v dt + a dt^2/2, recompute all
 * forces with the pairwise routine, then set every acceleration from its
 * force and kick every velocity by the average of the old and the new
 * acceleration.
 *
 * The pair force routine the source calls (Particle.calculateForceFrom) is not
 * part of this model; it is a parameter `law`, a function of the two particles'
 * positions and of G and h. The routine adds the negation of law(pi, pj) to
 * the first particle of a pair and law(pi, pj) itself to the second.
 */
module FusedVerlet {
  import opened Vectors
  import opened RealMath
  import opened Bodies
  import opened PairForces
  import opened Stars
  import opened VelocityVerletIntegrator

  /** The force particle i's routine returns for the pair (i, j): positions of i and j, G, h. */
  type PairLaw = (Vec3, Vec3, real, real) -> Vec3

  /** The pair vectors of calculateForcesBetweenParticles: particle i of the pair (i, j) receives -law(i, j). */
  function ReactionTable(pos: seq<Vec3>, law: PairLaw, G: real, h: real): (T: seq<seq<Vec3>>)
    ensures IsTable(T, |pos|)
    ensures forall i, j :: 0 <= i < j < |pos| ==> T[i][j] == Neg(law(pos[i], pos[j], G, h))
  {
    seq(|pos|, i requires 0 <= i < |pos| =>
      seq(|pos|, j requires 0 <= j < |pos| =>
        if i < j then Neg(law(pos[i], pos[j], G, h)) else Zero))
  }

  /** The forces calculateForcesBetweenParticles leaves on particles at the given positions. */
  function PairForcesAt(pos: seq<Vec3>, law: PairLaw, G: real, h: real): (fs: seq<Vec3>)
    ensures |fs| == |pos|
  {
    Accumulated(ReactionTable(pos, law, G, h), |pos|)
  }

  /**
   * Resets every force, then, for every pair i < j, adds -law(pi, pj) to
   * particle i and law(pi, pj) to particle j. Only the forces change, and the
   * result does not depend on the forces held before.
   */
  method CalculateForcesBetweenParticles(particles: array<Particle>, G: real, h: real, law: PairLaw)
    requires Distinct(particles[..])
    modifies particles[..]
    ensures Snapshot(particles[..]) ==
      WithForces(old(Snapshot(particles[..])), PairForcesAt(Positions(old(Snapshot(particles[..]))), law, G, h))
  {
    ghost var bs := Snapshot(particles[..]);
    ghost var T := ReactionTable(Positions(bs), law, G, h);
    ResetAll(particles[..]);
    PairRows(particles[..], G, h, law, bs, T);
  }

  /** The outer loop of the pair routine, run on forces that are all zero. */
  method PairRows(ps: seq<Particle>, G: real, h: real, law: PairLaw, ghost bs: seq<Body>, ghost T: seq<seq<Vec3>>)
    requires Distinct(ps) && |ps| == |bs| && IsTable(T, |ps|)
    requires forall i, j :: 0 <= i < j < |ps| ==> T[i][j] == Neg(law(bs[i].position, bs[j].position, G, h))
    requires Snapshot(ps) == WithForces(bs, Zeros(|ps|))
    modifies ps
    ensures Snapshot(ps) == WithForces(bs, Accumulated(T, |ps|))
  {
    ghost var n := |ps|;
    var i := 0;
    while i < |ps|
      invariant i <= |ps|
      invariant forall m :: 0 <= m < n ==> ps[m].State() == bs[m].(force := RowsDone(Zeros(n), T, i)[m])
    {
      var next := i + 1;
      PairRow(ps, i, G, h, law, bs, T, RowsDone(Zeros(n), T, i));
      RowsDoneNext(Zeros(n), T, i, next);
      i := next;
    }
  }

  /** The inner loop of the pair routine: the pairs (i, j) for every j > i. */
  method PairRow(ps: seq<Particle>, i: nat, G: real, h: real, law: PairLaw,
                 ghost bs: seq<Body>, ghost T: seq<seq<Vec3>>, ghost F: seq<Vec3>)
    requires Distinct(ps) && i < |ps| == |bs| == |F| && IsTable(T, |ps|)
    requires forall j :: i < j < |ps| ==> T[i][j] == Neg(law(bs[i].position, bs[j].position, G, h))
    requires forall m :: 0 <= m < |ps| ==> ps[m].State() == bs[m].(force := F[m])
    modifies ps
    ensures forall m :: 0 <= m < |ps| ==> ps[m].State() == bs[m].(force := RowDone(F, T, i, |ps|)[m])
  {
    var j := i + 1;
    while j < |ps|
      invariant i < j <= |ps|
      invariant forall m :: 0 <= m < |ps| ==> ps[m].State() == bs[m].(force := RowDone(F, T, i, j)[m])
    {
      var next := j + 1;
      var pi := ps[i];
      var pj := ps[j];
      var force := law(pi.position, pj.position, G, h);
      assert force == Neg(T[i][j]);
      assert Neg(force) == T[i][j];
      AddPairForces(ps, i, j, Neg(force), force, bs, T, F, next);
      j := next;
    }
  }

  /** The first loop of a step: the acceleration is backed up and the position advanced. */
  function Drifted(bs: seq<Body>, dt: real): (cs: seq<Body>)
    ensures |cs| == |bs|
    ensures forall i :: 0 <= i < |bs| ==> cs[i] == bs[i].(
      oldAcceleration := bs[i].acceleration,
      position := Add(Add(bs[i].position, Scale(bs[i].velocity, dt)), Scale(bs[i].acceleration, Pow(dt, 2) / 2.0)))
  {
    seq(|bs|, i requires 0 <= i < |bs| => bs[i].(
      oldAcceleration := bs[i].acceleration,
      position := Add(Add(bs[i].position, Scale(bs[i].velocity, dt)), Scale(bs[i].acceleration, Pow(dt, 2) / 2.0))))
  }

  /** The last loop of a step: acceleration from force, velocity kicked by the mean acceleration. */
  function Kicked(bs: seq<Body>, dt: real): (cs: seq<Body>)
    ensures |cs| == |bs|
    ensures forall i :: 0 <= i < |bs| ==>
      var a := Scale(bs[i].force, 1.0 / Mass);
      cs[i] == bs[i].(acceleration := a,
                      velocity := Add(bs[i].velocity, Scale(Add(bs[i].oldAcceleration, a), dt / 2.0)))
  {
    seq(|bs|, i requires 0 <= i < |bs| =>
      var a := Scale(bs[i].force, 1.0 / Mass);
      bs[i].(acceleration := a, velocity := Add(bs[i].velocity, Scale(Add(bs[i].oldAcceleration, a), dt / 2.0))))
  }

  /** One fused step on the particles' states. */
  function FusedStep(bs: seq<Body>, dt: real, G: real, h: real, law: PairLaw): (cs: seq<Body>)
    ensures |cs| == |bs|
  {
    var ds := Drifted(bs, dt);
    Kicked(WithForces(ds, PairForcesAt(Positions(ds), law, G, h)), dt)
  }

  /** Advances every particle by dt. */
  method Step(particles: array<Particle>, dt: real, G: real, h: real, law: PairLaw)
    requires Distinct(particles[..])
    modifies particles[..]
    ensures Snapshot(particles[..]) == FusedStep(old(Snapshot(particles[..])), dt, G, h, law)
  {
    ghost var bs := Snapshot(particles[..]);
    DriftAll(particles[..], dt);
    CalculateForcesBetweenParticles(particles, G, h, law);
    KickAll(particles[..], dt);
  }

  /** The first loop of Step. */
  method DriftAll(ps: seq<Particle>, dt: real)
    requires Distinct(ps)
    modifies ps
    ensures Snapshot(ps) == Drifted(old(Snapshot(ps)), dt)
  {
    ghost var bs := Snapshot(ps);
    for k := 0 to |ps|
      invariant forall m :: 0 <= m < k ==> ps[m].State() == Drifted(bs, dt)[m]
      invariant forall m :: k <= m < |ps| ==> ps[m].State() == bs[m]
    {
      var particle := ps[k];
      particle.SetOldAcceleration(particle.acceleration);
      var newPosition := Add(Add(particle.position, Scale(particle.velocity, dt)),
                             Scale(particle.acceleration, Pow(dt, 2) / 2.0));
      particle.SetPosition(newPosition);
    }
  }

  /** The last loop of Step. */
  method KickAll(ps: seq<Particle>, dt: real)
    requires Distinct(ps)
    modifies ps
    ensures Snapshot(ps) == Kicked(old(Snapshot(ps)), dt)
  {
    ghost var bs := Snapshot(ps);
    for k := 0 to |ps|
      invariant forall m :: 0 <= m < k ==> ps[m].State() == Kicked(bs, dt)[m]
      invariant forall m :: k <= m < |ps| ==> ps[m].State() == bs[m]
    {
      var particle := ps[k];
      particle.UpdateAcceleration();
      var accelerationSum := Add(particle.oldAcceleration, particle.acceleration);
      var newVelocity := Add(particle.velocity, Scale(accelerationSum, dt / 2.0));
      particle.SetVelocity(newVelocity);
    }
  }

  /** Newton's third law for the pair routine: the forces it leaves sum to zero. */
  lemma PairForcesCancel(pos: seq<Vec3>, law: PairLaw, G: real, h: real)
    ensures Sum(PairForcesAt(pos, law, G, h)) == Zero
  {
    AccumulatedCancels(ReactionTable(pos, law, G, h), |pos|);
  }

  /** The pair routine as an acceleration law (unit masses: acceleration = force). */
  function PairAccelerations(law: PairLaw, G: real, h: real): seq<Vec3> -> seq<Vec3> {
    xs => PairForcesAt(xs, law, G, h)
  }

  /** The pair routine's accelerations always sum to zero. */
  lemma PairAccelerationsNetZero(law: PairLaw, G: real, h: real)
    ensures KeepsLength(PairAccelerations(law, G, h)) && NetZero(PairAccelerations(law, G, h))
  {
    forall xs
      ensures Sum(PairAccelerations(law, G, h)(xs)) == Zero
    {
      PairForcesCancel(xs, law, G, h);
    }
  }

  /** Unit mass: dividing by the mass changes nothing. */
  lemma UnitMassScale(f: Vec3)
    ensures Scale(f, 1.0 / Mass) == f
  {
  }

  /** One coordinate of the drift: the half-kick form and the Taylor form agree. */
  lemma DriftCoordinate(r: real, v: real, a: real, dt: real)
    ensures r + (v + a * (dt / 2.0)) * dt == r + v * dt + a * (Pow(dt, 2) / 2.0)
  {
    assert Pow(dt, 1) == dt * Pow(dt, 0) == dt;
    assert Pow(dt, 2) == dt * Pow(dt, 1) == dt * dt;
    assert (v + a * (dt / 2.0)) * dt == v * dt + a * (dt / 2.0) * dt;
    assert a * (dt / 2.0) * dt == a * (dt * dt / 2.0);
  }

  /** The drift of the fused step is the drift of updatePositions. */
  lemma DriftAgrees(b: Body, dt: real)
    ensures Add(Add(b.position, Scale(b.velocity, dt)), Scale(b.acceleration, Pow(dt, 2) / 2.0))
         == Add(b.position, Scale(HalfKick(b, dt), dt))
  {
    DriftCoordinate(b.position.x, b.velocity.x, b.acceleration.x, dt);
    DriftCoordinate(b.position.y, b.velocity.y, b.acceleration.y, dt);
    DriftCoordinate(b.position.z, b.velocity.z, b.acceleration.z, dt);
  }

  /** The kick of the fused step is the two half kicks of the split form. */
  lemma KickAgrees(v: Vec3, a0: Vec3, a1: Vec3, dt: real)
    ensures Add(v, Scale(Add(a0, a1), dt / 2.0)) == Add(Add(v, Scale(a0, dt / 2.0)), Scale(a1, dt / 2.0))
  {
    ScaleAdd(a0, a1, dt / 2.0);
  }

  /**
   * The fused step and the split step (updatePositions, recompute the
   * accelerations with the pair routine, updateVelocities) agree exactly on
   * every position, velocity and acceleration.
   */
  lemma FusedEqualsSplit(bs: seq<Body>, dt: real, G: real, h: real, law: PairLaw)
    ensures KeepsLength(PairAccelerations(law, G, h))
    ensures var f := FusedStep(bs, dt, G, h, law);
      var s := SplitStep(bs, dt, PairAccelerations(law, G, h));
      Positions(f) == Positions(s) && Velocities(f) == Velocities(s) && Accelerations(f) == Accelerations(s)
  {
    var accel := PairAccelerations(law, G, h);
    PairAccelerationsNetZero(law, G, h);
    var ds := Drifted(bs, dt);
    var ps := PositionsUpdated(bs, dt);
    forall i | 0 <= i < |bs|
      ensures ds[i].position == ps[i].position
    {
      DriftAgrees(bs[i], dt);
    }
    assert Positions(ds) == Positions(ps);
    var fs := PairForcesAt(Positions(ds), law, G, h);
    assert accel(Positions(ps)) == fs;
    var f := FusedStep(bs, dt, G, h, law);
    var s := SplitStep(bs, dt, accel);
    forall i | 0 <= i < |bs|
      ensures f[i].position == s[i].position
      ensures f[i].acceleration == s[i].acceleration
      ensures f[i].velocity == s[i].velocity
    {
      UnitMassScale(fs[i]);
      KickAgrees(bs[i].velocity, bs[i].acceleration, fs[i], dt);
    }
  }

  /** Two states with the same velocities have the same momentum. */
  lemma MomentumOfVelocities(bs: seq<Body>, cs: seq<Body>)
    requires Velocities(bs) == Velocities(cs)
    ensures Momentum(bs) == Momentum(cs)
  {
  }

  /**
   * With unit masses and accelerations that sum to zero (as the pair routine
   * leaves them), a fused step leaves the total momentum unchanged.
   */
  lemma FusedStepConservesMomentum(bs: seq<Body>, dt: real, G: real, h: real, law: PairLaw)
    requires Sum(Accelerations(bs)) == Zero
    ensures Momentum(FusedStep(bs, dt, G, h, law)) == Momentum(bs)
  {
    PairAccelerationsNetZero(law, G, h);
    FusedEqualsSplit(bs, dt, G, h, law);
    StepConservesMomentum(bs, dt, PairAccelerations(law, G, h));
    MomentumOfVelocities(FusedStep(bs, dt, G, h, law), SplitStep(bs, dt, PairAccelerations(law, G, h)));
  }

  /** After a fused step the accelerations are the pair routine's forces at the new positions. */
  lemma FusedStepConsistent(bs: seq<Body>, dt: real, G: real, h: real, law: PairLaw)
    ensures KeepsLength(PairAccelerations(law, G, h))
    ensures Consistent(FusedStep(bs, dt, G, h, law), PairAccelerations(law, G, h))
  {
    PairAccelerationsNetZero(law, G, h);
    FusedEqualsSplit(bs, dt, G, h, law);
    StepKeepsConsistent(bs, dt, PairAccelerations(law, G, h));
  }

  /**
   * Momentum over any number of fused steps, from accelerations initialised by
   * the pair routine itself, as the simulation driver initialises them.
   */
  lemma FusedStepsConserveMomentum(bs: seq<Body>, dt: real, G: real, h: real, law: PairLaw, n: nat)
    requires Accelerations(bs) == PairForcesAt(Positions(bs), law, G, h)
    ensures Momentum(Iterate(cs => FusedStep(cs, dt, G, h, law), bs, n)) == Momentum(bs)
  {
    var accel := PairAccelerations(law, G, h);
    PairAccelerationsNetZero(law, G, h);
    var step := cs => FusedStep(cs, dt, G, h, law);
    var p := Momentum(bs);
    var inv := xs => Consistent(xs, accel) && Momentum(xs) == p;
    assert Consistent(bs, accel);
    forall x | inv(x)
      ensures inv(step(x))
    {
      ConsistentNetZero(x, accel);
      FusedStepConservesMomentum(x, dt, G, h, law);
      FusedStepConsistent(x, dt, G, h, law);
    }
    IterateKeeps(step, inv, bs, n);
  }
}
