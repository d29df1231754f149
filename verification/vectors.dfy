/**
 * Three-dimensional vectors over the reals, standing in for the Vector3D
 * class the N-body engine uses for positions, velocities, accelerations and
 * forces. Only the operations the engine calls are modelled: add, subtract,
 * scalar multiply, negate and the squared norm; plus the sum of a sequence
 * of vectors, which is what every accumulation loop of the engine computes.
 */
module Vectors {

  datatype Vec3 = Vec3(x: real, y: real, z: real)

  /** The zero vector (Vector3D.ZERO). */
  const Zero: Vec3 := Vec3(0.0, 0.0, 0.0)

  function Add(a: Vec3, b: Vec3): Vec3 {
    Vec3(a.x + b.x, a.y + b.y, a.z + b.z)
  }

  function Sub(a: Vec3, b: Vec3): Vec3 {
    Vec3(a.x - b.x, a.y - b.y, a.z - b.z)
  }

  /** scalarMultiply */
  function Scale(a: Vec3, s: real): Vec3 {
    Vec3(a.x * s, a.y * s, a.z * s)
  }

  function Neg(a: Vec3): Vec3 {
    Vec3(-a.x, -a.y, -a.z)
  }

  /** getNormSq: the sum of the squared components, never negative. */
  function NormSq(a: Vec3): (r: real)
    ensures 0.0 <= r
  {
    SquareSign(a.x);
    SquareSign(a.y);
    SquareSign(a.z);
    a.x * a.x + a.y * a.y + a.z * a.z
  }

  /** A square is never negative, and positive unless its root is zero. */
  lemma SquareSign(t: real)
    ensures 0.0 <= t * t
    ensures t != 0.0 ==> 0.0 < t * t
  {
    if t < 0.0 {
      assert 0.0 < (-t) * (-t) == t * t;
    } else if t > 0.0 {
      assert 0.0 < t * t;
    }
  }

  /**
   * The sum of a sequence of vectors, added left to right from Zero, the way
   * the engine's accumulation loops add them.
   */
  function Sum(vs: seq<Vec3>): Vec3 {
    if |vs| == 0 then Zero else Add(Sum(vs[..|vs| - 1]), vs[|vs| - 1])
  }

  /** Element-wise sum of two sequences of the same length. */
  function Plus(xs: seq<Vec3>, ys: seq<Vec3>): (zs: seq<Vec3>)
    requires |xs| == |ys|
    ensures |zs| == |xs|
    ensures forall i :: 0 <= i < |xs| ==> zs[i] == Add(xs[i], ys[i])
  {
    seq(|xs|, i requires 0 <= i < |xs| => Add(xs[i], ys[i]))
  }

  /** Every element scaled by c. */
  function Times(xs: seq<Vec3>, c: real): (zs: seq<Vec3>)
    ensures |zs| == |xs|
    ensures forall i :: 0 <= i < |xs| ==> zs[i] == Scale(xs[i], c)
  {
    seq(|xs|, i requires 0 <= i < |xs| => Scale(xs[i], c))
  }

  /** Every element translated by d. */
  function Shifted(xs: seq<Vec3>, d: Vec3): (zs: seq<Vec3>)
    ensures |zs| == |xs|
    ensures forall i :: 0 <= i < |xs| ==> zs[i] == Add(xs[i], d)
  {
    seq(|xs|, i requires 0 <= i < |xs| => Add(xs[i], d))
  }

  /** The average of n vectors as the engine computes it: the sum scaled by 1/n. */
  function Mean(xs: seq<Vec3>, n: int): Vec3
    requires n != 0
  {
    Scale(Sum(xs), 1.0 / n as real)
  }

  /** Summing is additive over element-wise sums. */
  lemma {:induction false} SumPlus(xs: seq<Vec3>, ys: seq<Vec3>)
    requires |xs| == |ys|
    ensures Sum(Plus(xs, ys)) == Add(Sum(xs), Sum(ys))
  {
    if |xs| > 0 {
      var n := |xs| - 1;
      assert Plus(xs, ys)[..n] == Plus(xs[..n], ys[..n]);
      SumPlus(xs[..n], ys[..n]);
    }
  }

  /** Scaling commutes with summing. */
  lemma {:induction false} SumTimes(xs: seq<Vec3>, c: real)
    ensures Sum(Times(xs, c)) == Scale(Sum(xs), c)
  {
    if |xs| > 0 {
      var n := |xs| - 1;
      assert Times(xs, c)[..n] == Times(xs[..n], c);
      SumTimes(xs[..n], c);
      assert Sum(Times(xs, c)) == Add(Scale(Sum(xs[..n]), c), Scale(xs[n], c));
      ScaleAdd(Sum(xs[..n]), xs[n], c);
    }
  }

  /** Translating n vectors by d translates their sum by n·d. */
  lemma {:induction false} SumShifted(xs: seq<Vec3>, d: Vec3)
    ensures Sum(Shifted(xs, d)) == Add(Sum(xs), Scale(d, |xs| as real))
  {
    if |xs| > 0 {
      var n := |xs| - 1;
      assert Shifted(xs, d)[..n] == Shifted(xs[..n], d);
      SumShifted(xs[..n], d);
      ScaleSucc(d, n);
    }
  }

  lemma ScaleSucc(d: Vec3, n: nat)
    ensures Add(Scale(d, n as real), d) == Scale(d, (n + 1) as real)
  {
    var m := n as real;
    assert d.x * m + d.x == d.x * (m + 1.0);
    assert d.y * m + d.y == d.y * (m + 1.0);
    assert d.z * m + d.z == d.z * (m + 1.0);
  }

  /** Replacing one element changes the sum by exactly the difference. */
  lemma {:induction false} SumUpdate(xs: seq<Vec3>, k: nat, v: Vec3)
    requires k < |xs|
    ensures Sum(xs[k := v]) == Add(Sub(Sum(xs), xs[k]), v)
  {
    var n := |xs| - 1;
    if k < n {
      assert xs[k := v][..n] == xs[..n][k := v];
      SumUpdate(xs[..n], k, v);
    } else {
      assert xs[k := v][..n] == xs[..n];
    }
  }

  /** Translating every vector by d translates their mean by d. */
  lemma MeanShifted(xs: seq<Vec3>, d: Vec3)
    requires |xs| > 0
    ensures Mean(Shifted(xs, d), |xs|) == Add(Mean(xs, |xs|), d)
  {
    MeanShiftedBy(xs, d, |xs|);
    var n := |xs| as real;
    assert n / n == 1.0;
    assert Scale(d, n / n) == d;
  }

  /** Scaling distributes over addition. */
  lemma ScaleAdd(a: Vec3, b: Vec3, q: real)
    ensures Scale(Add(a, b), q) == Add(Scale(a, q), Scale(b, q))
  {
    assert (a.x + b.x) * q == a.x * q + b.x * q;
    assert (a.y + b.y) * q == a.y * q + b.y * q;
    assert (a.z + b.z) * q == a.z * q + b.z * q;
  }

  /** Negating a scaled difference scales the reversed difference. */
  lemma NegScaledSub(a: Vec3, b: Vec3, c: real)
    ensures Neg(Scale(Sub(a, b), c)) == Scale(Sub(b, a), c)
  {
    assert -((a.x - b.x) * c) == (b.x - a.x) * c;
    assert -((a.y - b.y) * c) == (b.y - a.y) * c;
    assert -((a.z - b.z) * c) == (b.z - a.z) * c;
  }

  /** Scaling twice is scaling by the product. */
  lemma ScaleScale(a: Vec3, c: real, q: real)
    ensures Scale(Scale(a, c), q) == Scale(a, c * q)
  {
    assert a.x * c * q == a.x * (c * q);
    assert a.y * c * q == a.y * (c * q);
    assert a.z * c * q == a.z * (c * q);
  }

  /**
   * Translating every vector by d moves the average taken over a count n by
   * d scaled by |xs| / n: by d itself only when n is the number of vectors.
   */
  lemma MeanShiftedBy(xs: seq<Vec3>, d: Vec3, n: int)
    requires n != 0
    ensures Mean(Shifted(xs, d), n) == Add(Mean(xs, n), Scale(d, |xs| as real / n as real))
  {
    var c := |xs| as real;
    var q := 1.0 / n as real;
    SumShifted(xs, d);
    assert Sum(Shifted(xs, d)) == Add(Sum(xs), Scale(d, c));
    ScaleAdd(Sum(xs), Scale(d, c), q);
    ScaleQuotient(d, c, n as real);
  }

  /** Scaling by c and then by 1/m is scaling by c/m. */
  lemma ScaleQuotient(a: Vec3, c: real, m: real)
    requires m != 0.0
    ensures Scale(Scale(a, c), 1.0 / m) == Scale(a, c / m)
  {
    assert a.x * c * (1.0 / m) == a.x * (c / m);
    assert a.y * c * (1.0 / m) == a.y * (c / m);
    assert a.z * c * (1.0 / m) == a.z * (c / m);
  }

  /** An average over a count n is the true mean of the |xs| vectors scaled by |xs| / n. */
  lemma MeanOverCount(xs: seq<Vec3>, n: int)
    requires |xs| > 0 && n != 0
    ensures Mean(xs, n) == Scale(Mean(xs, |xs|), |xs| as real / n as real)
  {
    var c := |xs| as real;
    ScaleScale(Sum(xs), 1.0 / c, c / n as real);
    assert (1.0 / c) * (c / n as real) == 1.0 / n as real;
  }
}
