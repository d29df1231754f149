/**
 * The galaxy of the N-body simulation: an array of unit-mass stars with a
 * centre, the softened-gravity pair force, the O(N^2) force accumulation, and
 * the rigid translations used to set up galaxy collisions.
 *
 * The pair force is added to the first star of the pair and its negation to
 * the second, although the force is documented as the one the first star
 * exerts on the second; the model keeps this orientation, so two stars push
 * each other apart (TwoStarsRepel).
 */
module GalaxyModel {
  import opened Vectors
  import opened RealMath
  import opened Bodies
  import opened PairForces
  import opened Stars

  /** The gravitational constant and the softening length every galaxy uses. */
  const GalaxyG: real := 1.0
  const GalaxyH: real := 0.05

  /** The squared softened distance |pos2 - pos1|^2 + h^2. */
  function SoftenedSq(pos1: Vec3, pos2: Vec3, h: real): real {
    NormSq(Sub(pos2, pos1)) + h * h
  }

  /**
   * The softened gravitational force between two point masses:
   * r (-G m1 m2 / (|r|^2 + h^2)^(3/2)) with r = pos2 - pos1. It lies along the
   * line through the two points and, exactly when G m1 m2 is positive, points
   * from pos2 back towards pos1: the attraction felt by the particle at pos2.
   */
  function ForceFromP1ToP2(pos1: Vec3, m1: real, pos2: Vec3, m2: real, G: real, h: real,
                           sqrt: real -> real): (F: Vec3)
    requires PositiveRoots(sqrt) && 0.0 < SoftenedSq(pos1, pos2, h)
    ensures exists c :: (0.0 < c <==> 0.0 < G * m1 * m2) && F == Scale(Sub(pos1, pos2), c)
  {
    var r := Sub(pos2, pos1);
    var rSoft := sqrt(NormSq(r) + h * h);
    var denominator := Pow(rSoft, 3);
    var forceMag := -G * m1 * m2 / denominator;
    PullTowardsFirst(pos1, pos2, G * m1 * m2, -G * m1 * m2, denominator);
    Scale(r, forceMag)
  }

  /** Scaling pos2 - pos1 by -g/d is scaling pos1 - pos2 by g/d, which has the sign of g. */
  lemma PullTowardsFirst(pos1: Vec3, pos2: Vec3, g: real, minusG: real, d: real)
    requires 0.0 < d && minusG == -g
    ensures (0.0 < g / d <==> 0.0 < g) && Scale(Sub(pos2, pos1), minusG / d) == Scale(Sub(pos1, pos2), g / d)
  {
    var c := g / d;
    assert minusG / d == -c;
    assert (pos2.x - pos1.x) * -c == (pos1.x - pos2.x) * c;
    assert (pos2.y - pos1.y) * -c == (pos1.y - pos2.y) * c;
    assert (pos2.z - pos1.z) * -c == (pos1.z - pos2.z) * c;
  }

  /** Every pair of stars is at a positive softened distance. */
  predicate Separated(pos: seq<Vec3>, h: real) {
    forall i, j :: 0 <= i < j < |pos| ==> 0.0 < SoftenedSq(pos[i], pos[j], h)
  }

  /** The pair vectors the galaxy's force loops add: the force of the pair (i, j), for i < j. */
  function GravityTable(pos: seq<Vec3>, G: real, h: real, sqrt: real -> real): (T: seq<seq<Vec3>>)
    requires PositiveRoots(sqrt) && Separated(pos, h)
    ensures IsTable(T, |pos|)
    ensures forall i, j :: 0 <= i < j < |pos| ==>
      T[i][j] == ForceFromP1ToP2(pos[i], Mass, pos[j], Mass, G, h, sqrt)
  {
    seq(|pos|, i requires 0 <= i < |pos| =>
      seq(|pos|, j requires 0 <= j < |pos| =>
        if i < j then ForceFromP1ToP2(pos[i], Mass, pos[j], Mass, G, h, sqrt) else Zero))
  }

  /**
   * Resets every force, then adds the pair force to star i and its negation
   * to star j for every pair i < j: the loop shared by calculateForces and
   * the forceCalculator field.
   */
  method GravityForces(ps: seq<Particle>, G: real, h: real, sqrt: real -> real, ghost T: seq<seq<Vec3>>)
    requires Distinct(ps) && PositiveRoots(sqrt) && Separated(Positions(Snapshot(ps)), h)
    requires T == GravityTable(Positions(Snapshot(ps)), G, h, sqrt)
    modifies ps
    ensures Snapshot(ps) == WithForces(old(Snapshot(ps)), Accumulated(T, |ps|))
  {
    ghost var bs := Snapshot(ps);
    ResetAll(ps);
    GravityRows(ps, G, h, sqrt, bs, T);
  }

  /** The outer loop of GravityForces, run on forces that are all zero. */
  method GravityRows(ps: seq<Particle>, G: real, h: real, sqrt: real -> real,
                     ghost bs: seq<Body>, ghost T: seq<seq<Vec3>>)
    requires Distinct(ps) && |ps| == |bs| && IsTable(T, |ps|) && PositiveRoots(sqrt) && Separated(Positions(bs), h)
    requires forall i, j :: 0 <= i < j < |ps| ==> T[i][j] == ForceFromP1ToP2(bs[i].position, Mass, bs[j].position, Mass, G, h, sqrt)
    requires Snapshot(ps) == WithForces(bs, Zeros(|ps|))
    modifies ps
    ensures Snapshot(ps) == WithForces(bs, Accumulated(T, |ps|))
  {
    ghost var n := |ps|;
    var i := 0;
    while i < |ps|
      invariant i <= |ps|
      invariant forall m :: 0 <= m < n ==> ps[m].State() == bs[m].(force := RowsDone(Zeros(n), T, i)[m])
    {
      var next := i + 1;
      GravityRow(ps, i, G, h, sqrt, bs, T, RowsDone(Zeros(n), T, i));
      RowsDoneNext(Zeros(n), T, i, next);
      i := next;
    }
  }

  /** The inner loop of GravityForces: the pairs (i, j) for every j > i. */
  method GravityRow(ps: seq<Particle>, i: nat, G: real, h: real, sqrt: real -> real,
                    ghost bs: seq<Body>, ghost T: seq<seq<Vec3>>, ghost F: seq<Vec3>)
    requires Distinct(ps) && i < |ps| == |bs| == |F| && IsTable(T, |ps|) && PositiveRoots(sqrt)
    requires forall j :: i < j < |ps| ==> 0.0 < SoftenedSq(bs[i].position, bs[j].position, h)
    requires forall j :: i < j < |ps| ==> T[i][j] == ForceFromP1ToP2(bs[i].position, Mass, bs[j].position, Mass, G, h, sqrt)
    requires forall m :: 0 <= m < |ps| ==> ps[m].State() == bs[m].(force := F[m])
    modifies ps
    ensures forall m :: 0 <= m < |ps| ==> ps[m].State() == bs[m].(force := RowDone(F, T, i, |ps|)[m])
  {
    var j := i + 1;
    while j < |ps|
      invariant i < j <= |ps|
      invariant forall m :: 0 <= m < |ps| ==> ps[m].State() == bs[m].(force := RowDone(F, T, i, j)[m])
    {
      var next := j + 1;
      assert 0.0 < SoftenedSq(bs[i].position, bs[j].position, h);
      assert T[i][j] == ForceFromP1ToP2(bs[i].position, Mass, bs[j].position, Mass, G, h, sqrt);
      GravityPair(ps, i, j, G, h, sqrt, bs, T, F, next);
      j := next;
    }
  }

  /** One visit of the pair (i, j): the pair force is computed and added to both stars. */
  method GravityPair(ps: seq<Particle>, i: nat, j: nat, G: real, h: real, sqrt: real -> real,
                     ghost bs: seq<Body>, ghost T: seq<seq<Vec3>>, ghost F: seq<Vec3>, ghost next: nat)
    requires Distinct(ps) && i < j < |ps| && next == j + 1 && |bs| == |F| == |ps| && IsTable(T, |ps|) && PositiveRoots(sqrt)
    requires 0.0 < SoftenedSq(bs[i].position, bs[j].position, h)
    requires T[i][j] == ForceFromP1ToP2(bs[i].position, Mass, bs[j].position, Mass, G, h, sqrt)
    requires forall m :: 0 <= m < |ps| ==> ps[m].State() == bs[m].(force := RowDone(F, T, i, j)[m])
    modifies ps[i], ps[j]
    ensures forall m :: 0 <= m < |ps| ==> ps[m].State() == bs[m].(force := RowDone(F, T, i, next)[m])
  {
    var pi := ps[i];
    var pj := ps[j];
    var force := ForceFromP1ToP2(pi.position, pi.mass, pj.position, pj.mass, G, h, sqrt);
    AddPairForces(ps, i, j, force, Neg(force), bs, T, F, next);
  }

  class Galaxy {
    const name: string
    var numberOfStars: int
    var centerPosition: Vec3
    var stars: array<Particle>
    const G: real := GalaxyG
    const h: real := GalaxyH

    /** The star count matches the array, and no star object occurs twice. */
    ghost predicate Valid()
      reads this, stars
    {
      numberOfStars == stars.Length && Distinct(stars[..])
    }

    /** The stars' states, in array order. */
    ghost function StarStates(): seq<Body>
      reads this, stars, stars[..]
    {
      Snapshot(stars[..])
    }

    /** A galaxy around the given stars (their random placement is not modelled). */
    constructor (name: string, centerPosition: Vec3, stars: array<Particle>)
      requires Distinct(stars[..])
      ensures Valid()
      ensures this.name == name && this.centerPosition == centerPosition && this.stars == stars
      ensures numberOfStars == stars.Length
    {
      this.name := name;
      this.centerPosition := centerPosition;
      this.stars := stars;
      numberOfStars := stars.Length;
    }

    /** Sets the centre to the mean star position. */
    method CalculateNewCenterPosition()
      requires Valid() && numberOfStars != 0
      modifies this
      ensures stars == old(stars) && numberOfStars == old(numberOfStars)
      ensures centerPosition == Mean(Positions(StarStates()), numberOfStars)
    {
      var sumPositions := SumPositions(stars[..]);
      centerPosition := Scale(sumPositions, 1.0 / numberOfStars as real);
    }

    /** The mean star velocity; changes nothing. */
    method GetCenterVelocity() returns (v: Vec3)
      requires Valid() && numberOfStars != 0
      ensures v == Mean(Velocities(StarStates()), numberOfStars)
    {
      var sumVelocities := SumVelocities(stars[..]);
      v := Scale(sumVelocities, 1.0 / numberOfStars as real);
    }

    /** Moves the centre and every star by the displacement; velocities are untouched. */
    method MoveGalaxy(displacement: Vec3)
      requires Valid()
      modifies this, stars[..]
      ensures Valid() && stars == old(stars) && numberOfStars == old(numberOfStars)
      ensures centerPosition == Add(old(centerPosition), displacement)
      ensures StarStates() == Translated(old(StarStates()), displacement)
    {
      centerPosition := Add(centerPosition, displacement);
      TranslateAll(stars[..], displacement);
    }

    /** Adds the galaxy velocity to every star; positions are untouched. */
    method AddGalaxyVelocity(galaxyVelocity: Vec3)
      requires Valid()
      modifies stars[..]
      ensures StarStates() == Boosted(old(StarStates()), galaxyVelocity)
    {
      BoostAll(stars[..], galaxyVelocity);
    }

    /** Empties every star's force accumulator. */
    method ResetForces()
      requires Valid()
      modifies stars[..]
      ensures StarStates() == WithForces(old(StarStates()), Zeros(stars.Length))
    {
      ResetAll(stars[..]);
    }

    /** The pairwise softened-gravity forces on every star, with the given G and h. */
    method CalculateForces(G: real, h: real, sqrt: real -> real)
      requires Valid() && PositiveRoots(sqrt) && Separated(Positions(StarStates()), h)
      modifies stars[..]
      ensures StarStates() ==
        WithForces(old(StarStates()), Accumulated(GravityTable(Positions(old(StarStates())), G, h, sqrt), stars.Length))
    {
      GravityForces(stars[..], G, h, sqrt, GravityTable(Positions(StarStates()), G, h, sqrt));
    }

    /** The same accumulation over a list of particles, with the galaxy's own G and h. */
    method ForceCalculator(pList: seq<Particle>, sqrt: real -> real)
      requires Distinct(pList) && PositiveRoots(sqrt)
      modifies pList
      ensures Separated(Positions(old(Snapshot(pList))), h)
      ensures Snapshot(pList) ==
        WithForces(old(Snapshot(pList)), Accumulated(GravityTable(Positions(old(Snapshot(pList))), G, h, sqrt), |pList|))
    {
      GalaxySofteningSeparates(Positions(Snapshot(pList)));
      GravityForces(pList, G, h, sqrt, GravityTable(Positions(Snapshot(pList)), G, h, sqrt));
    }
  }

  /** With the galaxy's softening length every configuration is separated, coincident stars included. */
  lemma GalaxySofteningSeparates(pos: seq<Vec3>)
    ensures Separated(pos, GalaxyH)
  {
  }

  /** Exchanging the two particles negates the pair force. */
  lemma ForceAntisymmetric(pos1: Vec3, m1: real, pos2: Vec3, m2: real, G: real, h: real, sqrt: real -> real)
    requires PositiveRoots(sqrt) && 0.0 < SoftenedSq(pos1, pos2, h)
    ensures 0.0 < SoftenedSq(pos2, pos1, h)
    ensures ForceFromP1ToP2(pos2, m2, pos1, m1, G, h, sqrt) == Neg(ForceFromP1ToP2(pos1, m1, pos2, m2, G, h, sqrt))
  {
    var r := Sub(pos2, pos1);
    var s := Sub(pos1, pos2);
    assert s == Neg(r);
    assert NormSq(s) == NormSq(r);
    var c := -G * m1 * m2 / Pow(sqrt(NormSq(r) + h * h), 3);
    assert -G * m2 * m1 / Pow(sqrt(NormSq(s) + h * h), 3) == c;
    assert Scale(s, c) == Neg(Scale(r, c));
  }

  /** Two stars at the same place exert no force on each other when softened. */
  lemma CoincidentStarsExertNoForce(pos: Vec3, m1: real, m2: real, G: real, h: real, sqrt: real -> real)
    requires PositiveRoots(sqrt) && 0.0 < SoftenedSq(pos, pos, h)
    ensures ForceFromP1ToP2(pos, m1, pos, m2, G, h, sqrt) == Zero
  {
    assert Sub(pos, pos) == Zero;
  }

  /** The pair force depends only on the separation: translating both particles changes nothing. */
  lemma ForceTranslationInvariant(pos1: Vec3, m1: real, pos2: Vec3, m2: real, d: Vec3, G: real, h: real,
                                  sqrt: real -> real)
    requires PositiveRoots(sqrt) && 0.0 < SoftenedSq(pos1, pos2, h)
    ensures 0.0 < SoftenedSq(Add(pos1, d), Add(pos2, d), h)
    ensures ForceFromP1ToP2(Add(pos1, d), m1, Add(pos2, d), m2, G, h, sqrt) == ForceFromP1ToP2(pos1, m1, pos2, m2, G, h, sqrt)
  {
    assert Sub(Add(pos2, d), Add(pos1, d)) == Sub(pos2, pos1);
  }

  /** Moving a galaxy rigidly does not change any force between its stars. */
  lemma GravityTableTranslationInvariant(pos: seq<Vec3>, d: Vec3, G: real, h: real, sqrt: real -> real)
    requires PositiveRoots(sqrt) && Separated(pos, h)
    ensures Separated(Shifted(pos, d), h)
    ensures GravityTable(Shifted(pos, d), G, h, sqrt) == GravityTable(pos, G, h, sqrt)
  {
    var qos := Shifted(pos, d);
    forall i, j | 0 <= i < j < |pos|
      ensures 0.0 < SoftenedSq(qos[i], qos[j], h)
      ensures ForceFromP1ToP2(qos[i], Mass, qos[j], Mass, G, h, sqrt)
              == ForceFromP1ToP2(pos[i], Mass, pos[j], Mass, G, h, sqrt)
    {
      ForceTranslationInvariant(pos[i], Mass, pos[j], Mass, d, G, h, sqrt);
    }
    var T1 := GravityTable(qos, G, h, sqrt);
    var T2 := GravityTable(pos, G, h, sqrt);
    forall i | 0 <= i < |pos|
      ensures T1[i] == T2[i]
    {
      forall j | 0 <= j < |pos|
        ensures T1[i][j] == T2[i][j]
      {
      }
    }
  }

  /**
   * After calculateForces the star forces sum to zero, whatever the
   * positions: every pair contributes a vector and its negation.
   */
  lemma GalaxyForcesCancel(pos: seq<Vec3>, G: real, h: real, sqrt: real -> real)
    requires PositiveRoots(sqrt) && Separated(pos, h)
    ensures Sum(Accumulated(GravityTable(pos, G, h, sqrt), |pos|)) == Zero
  {
    AccumulatedCancels(GravityTable(pos, G, h, sqrt), |pos|);
  }

  /**
   * With the orientation of the source, two stars with positive G push each
   * other apart: each receives a force pointing away from the other.
   */
  lemma TwoStarsRepel(p0: Vec3, p1: Vec3, G: real, h: real, sqrt: real -> real)
    requires PositiveRoots(sqrt) && 0.0 < G && 0.0 < SoftenedSq(p0, p1, h)
    ensures Separated([p0, p1], h)
    ensures exists c :: (0.0 < c
      && Accumulated(GravityTable([p0, p1], G, h, sqrt), 2)[0] == Scale(Sub(p0, p1), c)
      && Accumulated(GravityTable([p0, p1], G, h, sqrt), 2)[1] == Scale(Sub(p1, p0), c))
  {
    var T := GravityTable([p0, p1], G, h, sqrt);
    TwoParticles(T);
    assert G * Mass * Mass == G;
    assert T[0][1] == ForceFromP1ToP2(p0, Mass, p1, Mass, G, h, sqrt);
    var c :| 0.0 < c && T[0][1] == Scale(Sub(p0, p1), c);
    NegScaledSub(p0, p1, c);
  }
}
