/**
 * The particle of the N-body system: position, velocity, acceleration, a
 * force accumulator and the acceleration of the previous step, all updated
 * in place by the integrators and the force routines. Every particle has
 * unit mass.
 *
 * Besides the class, this module holds the value-level view of a particle
 * (Body) that the integrators' specifications are written over, and the
 * snapshot of a list of particles as a sequence of Bodies.
 */
module Bodies {
  import opened Vectors

  /** The mass of every particle. */
  const Mass: real := 1.0

  /** The state of one particle as a value. */
  datatype Body = Body(position: Vec3, velocity: Vec3, acceleration: Vec3, force: Vec3, oldAcceleration: Vec3)

  class Particle {
    var position: Vec3
    var velocity: Vec3
    var acceleration: Vec3
    var force: Vec3
    /** The acceleration saved at the start of a fused Velocity-Verlet step. */
    var oldAcceleration: Vec3
    const mass: real := Mass
    const id: int

    /** The particle's mutable state as a value. */
    ghost function State(): Body
      reads this
    {
      Body(position, velocity, acceleration, force, oldAcceleration)
    }

    /** A particle at the given place and speed, with no force and no acceleration. */
    constructor (id: int, initialPosition: Vec3, initialVelocity: Vec3)
      ensures this.id == id
      ensures State() == Body(initialPosition, initialVelocity, Zero, Zero, Zero)
    {
      this.id := id;
      position := initialPosition;
      velocity := initialVelocity;
      acceleration := Zero;
      force := Zero;
      oldAcceleration := Zero;
    }

    /** A particle at rest at the origin. */
    constructor AtRest(id: int)
      ensures this.id == id
      ensures State() == Body(Zero, Zero, Zero, Zero, Zero)
    {
      this.id := id;
      position := Zero;
      velocity := Zero;
      acceleration := Zero;
      force := Zero;
      oldAcceleration := Zero;
    }

    /** Empties the force accumulator and touches nothing else. */
    method ResetForce()
      modifies this
      ensures State() == old(State()).(force := Zero)
    {
      force := Zero;
    }

    /** Adds f to the force accumulator and touches nothing else. */
    method AddForce(f: Vec3)
      modifies this
      ensures State() == old(State()).(force := Add(old(force), f))
    {
      force := Add(force, f);
    }

    /**
     * Sets the acceleration from the accumulated force (Newton's second law);
     * with unit mass the acceleration is the force itself.
     */
    method UpdateAcceleration()
      modifies this
      ensures State() == old(State()).(acceleration := Scale(force, 1.0 / mass))
      ensures acceleration == force
    {
      acceleration := Scale(force, 1.0 / mass);
    }

    /** One half of the mass times the squared speed. */
    function KineticEnergy(): (e: real)
      reads this
      ensures 0.0 <= e
      ensures velocity == Zero ==> e == 0.0
    {
      0.5 * mass * NormSq(velocity)
    }

    method SetPosition(position: Vec3)
      modifies this
      ensures State() == old(State()).(position := position)
    {
      this.position := position;
    }

    method SetVelocity(velocity: Vec3)
      modifies this
      ensures State() == old(State()).(velocity := velocity)
    {
      this.velocity := velocity;
    }

    method SetAcceleration(acceleration: Vec3)
      modifies this
      ensures State() == old(State()).(acceleration := acceleration)
    {
      this.acceleration := acceleration;
    }

    method SetOldAcceleration(oldAcceleration: Vec3)
      modifies this
      ensures State() == old(State()).(oldAcceleration := oldAcceleration)
    {
      this.oldAcceleration := oldAcceleration;
    }
  }

  /** No particle object occurs twice in the list. */
  predicate Distinct(ps: seq<Particle>) {
    forall i, j :: 0 <= i < j < |ps| ==> ps[i] != ps[j]
  }

  /** The states of a list of particles, in order. */
  ghost function Snapshot(ps: seq<Particle>): (bs: seq<Body>)
    reads ps
    ensures |bs| == |ps|
    ensures forall i :: 0 <= i < |ps| ==> bs[i] == ps[i].State()
  {
    seq(|ps|, i reads ps requires 0 <= i < |ps| => ps[i].State())
  }

  function Positions(bs: seq<Body>): (rs: seq<Vec3>)
    ensures |rs| == |bs|
    ensures forall i :: 0 <= i < |bs| ==> rs[i] == bs[i].position
  {
    seq(|bs|, i requires 0 <= i < |bs| => bs[i].position)
  }

  function Velocities(bs: seq<Body>): (vs: seq<Vec3>)
    ensures |vs| == |bs|
    ensures forall i :: 0 <= i < |bs| ==> vs[i] == bs[i].velocity
  {
    seq(|bs|, i requires 0 <= i < |bs| => bs[i].velocity)
  }

  function Accelerations(bs: seq<Body>): (as_: seq<Vec3>)
    ensures |as_| == |bs|
    ensures forall i :: 0 <= i < |bs| ==> as_[i] == bs[i].acceleration
  {
    seq(|bs|, i requires 0 <= i < |bs| => bs[i].acceleration)
  }

  function Forces(bs: seq<Body>): (fs: seq<Vec3>)
    ensures |fs| == |bs|
    ensures forall i :: 0 <= i < |bs| ==> fs[i] == bs[i].force
  {
    seq(|bs|, i requires 0 <= i < |bs| => bs[i].force)
  }

  /** Every body's force replaced by the corresponding entry of fs. */
  function WithForces(bs: seq<Body>, fs: seq<Vec3>): (cs: seq<Body>)
    requires |fs| == |bs|
    ensures |cs| == |bs|
    ensures forall i :: 0 <= i < |bs| ==> cs[i] == bs[i].(force := fs[i])
  {
    seq(|bs|, i requires 0 <= i < |bs| => bs[i].(force := fs[i]))
  }

  /** The total momentum: with unit masses, the sum of the velocities. */
  function Momentum(bs: seq<Body>): Vec3 {
    Sum(Times(Velocities(bs), Mass))
  }

  /** With unit masses the momentum is the plain sum of the velocities. */
  lemma {:induction false} MomentumIsVelocitySum(bs: seq<Body>)
    ensures Momentum(bs) == Sum(Velocities(bs))
  {
    SumTimes(Velocities(bs), Mass);
  }
}
