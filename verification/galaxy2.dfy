/**
 * The second galaxy class: the same stars, centre and rigid motions as the
 * first, without the force routines, and with a setter that replaces the
 * star array. The setter leaves the star count alone, and both averages keep
 * dividing by that count, so after it the averages are the true means scaled
 * by (array length) / (star count).
 */
module Galaxy2Model {
  import opened Vectors
  import opened Bodies
  import opened Stars

  class Galaxy2 {
    const name: string
    var numberOfStars: int
    var centerPosition: Vec3
    var stars: array<Particle>

    /** No star object occurs twice; the count may differ from the array length. */
    ghost predicate Valid()
      reads this, stars
    {
      Distinct(stars[..])
    }

    /** The stars' states, in array order. */
    ghost function StarStates(): seq<Body>
      reads this, stars, stars[..]
    {
      Snapshot(stars[..])
    }

    /** A galaxy around the given stars (their random placement is not modelled). */
    constructor (name: string, centerPosition: Vec3, stars: array<Particle>)
      requires Distinct(stars[..])
      ensures Valid()
      ensures this.name == name && this.centerPosition == centerPosition && this.stars == stars
      ensures numberOfStars == stars.Length
    {
      this.name := name;
      this.centerPosition := centerPosition;
      this.stars := stars;
      numberOfStars := stars.Length;
    }

    /** Replaces the star array; the count and the centre keep their values. */
    method SetStars(stars: array<Particle>)
      modifies this
      ensures this.stars == stars
      ensures numberOfStars == old(numberOfStars) && centerPosition == old(centerPosition)
    {
      this.stars := stars;
    }

    /** Sets the centre to the star positions' sum divided by the star count. */
    method CalculateNewCenterPosition()
      requires Valid() && numberOfStars != 0
      modifies this
      ensures stars == old(stars) && numberOfStars == old(numberOfStars)
      ensures centerPosition == Mean(Positions(StarStates()), numberOfStars)
    {
      var sumPositions := SumPositions(stars[..]);
      centerPosition := Scale(sumPositions, 1.0 / numberOfStars as real);
    }

    /** The star velocities' sum divided by the star count; changes nothing. */
    method GetCenterVelocity() returns (v: Vec3)
      requires Valid() && numberOfStars != 0
      ensures v == Mean(Velocities(StarStates()), numberOfStars)
    {
      var sumVelocities := SumVelocities(stars[..]);
      v := Scale(sumVelocities, 1.0 / numberOfStars as real);
    }

    /** Moves the centre and every star by the displacement; velocities are untouched. */
    method MoveGalaxy(displacement: Vec3)
      requires Valid()
      modifies this, stars[..]
      ensures Valid() && stars == old(stars) && numberOfStars == old(numberOfStars)
      ensures centerPosition == Add(old(centerPosition), displacement)
      ensures StarStates() == Translated(old(StarStates()), displacement)
    {
      centerPosition := Add(centerPosition, displacement);
      TranslateAll(stars[..], displacement);
    }

    /** Adds the galaxy velocity to every star; positions are untouched. */
    method AddGalaxyVelocity(galaxyVelocity: Vec3)
      requires Valid()
      modifies stars[..]
      ensures StarStates() == Boosted(old(StarStates()), galaxyVelocity)
    {
      BoostAll(stars[..], galaxyVelocity);
    }
  }

  /**
   * Adding u to every velocity adds u·(stars / count) to the computed centre
   * velocity: exactly u while the count matches the array, as the first galaxy
   * class guarantees, and a different vector after a replacement of the stars.
   */
  lemma CenterVelocityAfterBoost(bs: seq<Body>, u: Vec3, numberOfStars: int)
    requires numberOfStars != 0
    ensures Mean(Velocities(Boosted(bs, u)), numberOfStars)
      == Add(Mean(Velocities(bs), numberOfStars), Scale(u, |bs| as real / numberOfStars as real))
  {
    BoostedParts(bs, u);
    MeanShiftedBy(Velocities(bs), u, numberOfStars);
  }

  /** The same for moving the stars: the computed centre moves by d·(stars / count). */
  lemma CenterAfterMove(bs: seq<Body>, d: Vec3, numberOfStars: int)
    requires numberOfStars != 0
    ensures Mean(Positions(Translated(bs, d)), numberOfStars)
      == Add(Mean(Positions(bs), numberOfStars), Scale(d, |bs| as real / numberOfStars as real))
  {
    TranslatedParts(bs, d);
    MeanShiftedBy(Positions(bs), d, numberOfStars);
  }
}
