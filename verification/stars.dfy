/**
 * The loops over a list of stars that both galaxy classes run: translate
 * every position, add a velocity to every star, reset every force, and sum
 * positions or velocities for the centre-of-mass averages. Each loop is
 * specified by a function on the snapshot of the stars.
 */
module Stars {
  import opened Vectors
  import opened Bodies
  import opened PairForces

  /** Every body moved by d; nothing else changes. */
  function Translated(bs: seq<Body>, d: Vec3): (cs: seq<Body>)
    ensures |cs| == |bs|
    ensures forall i :: 0 <= i < |bs| ==> cs[i] == bs[i].(position := Add(bs[i].position, d))
  {
    seq(|bs|, i requires 0 <= i < |bs| => bs[i].(position := Add(bs[i].position, d)))
  }

  /** Every body given the extra velocity u; nothing else changes. */
  function Boosted(bs: seq<Body>, u: Vec3): (cs: seq<Body>)
    ensures |cs| == |bs|
    ensures forall i :: 0 <= i < |bs| ==> cs[i] == bs[i].(velocity := Add(bs[i].velocity, u))
  {
    seq(|bs|, i requires 0 <= i < |bs| => bs[i].(velocity := Add(bs[i].velocity, u)))
  }

  /** Adds d to the position of every star. */
  method TranslateAll(ps: seq<Particle>, d: Vec3)
    requires Distinct(ps)
    modifies ps
    ensures Snapshot(ps) == Translated(old(Snapshot(ps)), d)
  {
    ghost var bs := Snapshot(ps);
    for k := 0 to |ps|
      invariant forall m :: 0 <= m < k ==> ps[m].State() == bs[m].(position := Add(bs[m].position, d))
      invariant forall m :: k <= m < |ps| ==> ps[m].State() == bs[m]
    {
      var star := ps[k];
      star.SetPosition(Add(star.position, d));
    }
  }

  /** Adds u to the velocity of every star. */
  method BoostAll(ps: seq<Particle>, u: Vec3)
    requires Distinct(ps)
    modifies ps
    ensures Snapshot(ps) == Boosted(old(Snapshot(ps)), u)
  {
    ghost var bs := Snapshot(ps);
    for k := 0 to |ps|
      invariant forall m :: 0 <= m < k ==> ps[m].State() == bs[m].(velocity := Add(bs[m].velocity, u))
      invariant forall m :: k <= m < |ps| ==> ps[m].State() == bs[m]
    {
      var star := ps[k];
      star.SetVelocity(Add(star.velocity, u));
    }
  }

  /** Empties the force accumulator of every star. */
  method ResetAll(ps: seq<Particle>)
    requires Distinct(ps)
    modifies ps
    ensures Snapshot(ps) == WithForces(old(Snapshot(ps)), Zeros(|ps|))
  {
    ghost var bs := Snapshot(ps);
    for k := 0 to |ps|
      invariant forall m :: 0 <= m < k ==> ps[m].State() == bs[m].(force := Zero)
      invariant forall m :: k <= m < |ps| ==> ps[m].State() == bs[m]
    {
      ps[k].ResetForce();
    }
  }

  /**
   * One visit of the pair (i, j) of the force loops: fi, the table entry
   * T[i][j], is added to particle i and fj, its negation, to particle j. The
   * forces before the visit are those of row i run up to partner j - 1 on
   * top of the states bs; after it, those of the row run up to partner j,
   * that is, up to next - 1 with next the loop's following partner.
   */
  method AddPairForces(ps: seq<Particle>, i: nat, j: nat, fi: Vec3, fj: Vec3,
                       ghost bs: seq<Body>, ghost T: seq<seq<Vec3>>, ghost F: seq<Vec3>, ghost next: nat)
    requires Distinct(ps) && i < j < |ps| && next == j + 1 && |bs| == |F| == |ps| && IsTable(T, |ps|)
    requires fi == T[i][j] && fj == Neg(fi)
    requires forall m :: 0 <= m < |ps| ==> ps[m].State() == bs[m].(force := RowDone(F, T, i, j)[m])
    modifies ps[i], ps[j]
    ensures forall m :: 0 <= m < |ps| ==> ps[m].State() == bs[m].(force := RowDone(F, T, i, next)[m])
  {
    assert RowDone(F, T, i, next) == AddPair(RowDone(F, T, i, j), i, j, fi);
    ps[i].AddForce(fi);
    ps[j].AddForce(fj);
  }

  /** The sum of the star positions, added in list order from zero. */
  method SumPositions(ps: seq<Particle>) returns (s: Vec3)
    ensures s == Sum(Positions(Snapshot(ps)))
  {
    ghost var rs := Positions(Snapshot(ps));
    s := Zero;
    for k := 0 to |ps|
      invariant s == Sum(rs[..k])
    {
      assert rs[..k + 1][..k] == rs[..k];
      s := Add(s, ps[k].position);
    }
    assert rs[..|ps|] == rs;
  }

  /** The sum of the star velocities, added in list order from zero. */
  method SumVelocities(ps: seq<Particle>) returns (s: Vec3)
    ensures s == Sum(Velocities(Snapshot(ps)))
  {
    ghost var vs := Velocities(Snapshot(ps));
    s := Zero;
    for k := 0 to |ps|
      invariant s == Sum(vs[..k])
    {
      assert vs[..k + 1][..k] == vs[..k];
      s := Add(s, ps[k].velocity);
    }
    assert vs[..|ps|] == vs;
  }

  /** Translating the stars translates their positions and leaves the velocities. */
  lemma TranslatedParts(bs: seq<Body>, d: Vec3)
    ensures Positions(Translated(bs, d)) == Shifted(Positions(bs), d)
    ensures Velocities(Translated(bs, d)) == Velocities(bs)
  {
  }

  /** Boosting the stars shifts their velocities and leaves the positions. */
  lemma BoostedParts(bs: seq<Body>, u: Vec3)
    ensures Velocities(Boosted(bs, u)) == Shifted(Velocities(bs), u)
    ensures Positions(Boosted(bs, u)) == Positions(bs)
  {
  }

  /** Moving every star by d moves their average position by d. */
  lemma CenterFollowsTranslation(bs: seq<Body>, d: Vec3)
    requires |bs| > 0
    ensures Mean(Positions(Translated(bs, d)), |bs|) == Add(Mean(Positions(bs), |bs|), d)
  {
    TranslatedParts(bs, d);
    MeanShifted(Positions(bs), d);
  }

  /** Adding u to every star's velocity adds u to the average velocity. */
  lemma CenterVelocityFollowsBoost(bs: seq<Body>, u: Vec3)
    requires |bs| > 0
    ensures Mean(Velocities(Boosted(bs, u)), |bs|) == Add(Mean(Velocities(bs), |bs|), u)
  {
    BoostedParts(bs, u);
    MeanShifted(Velocities(bs), u);
  }
}
