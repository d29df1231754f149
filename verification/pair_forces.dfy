/**
 * The O(N^2) pairwise force accumulation shared by the galaxy and by the
 * fused Velocity-Verlet integrator: every force is reset to zero, then for
 * each pair i < j, visited row by row (i ascending, then j ascending), the
 * pair vector T[i][j] is added to particle i and its negation to particle j.
 *
 * The pair vectors are given as a table T, so the same specification serves
 * every pair law; Accumulated(T, n) is the list of forces the loops leave.
 */
module PairForces {
  import opened Vectors

  /** T is an n-by-n table of pair vectors. */
  predicate IsTable(T: seq<seq<Vec3>>, n: nat) {
    |T| == n && forall i :: 0 <= i < n ==> |T[i]| == n
  }

  function Zeros(n: nat): (zs: seq<Vec3>)
    ensures |zs| == n
    ensures forall i :: 0 <= i < n ==> zs[i] == Zero
  {
    seq(n, i => Zero)
  }

  /** One visit of the pair (i, j): i receives f, j receives its negation. */
  function AddPair(F: seq<Vec3>, i: nat, j: nat, f: Vec3): (G: seq<Vec3>)
    requires i < j < |F|
    ensures |G| == |F|
  {
    F[i := Add(F[i], f)][j := Add(F[j], Neg(f))]
  }

  /** Row i of the pair loop run over the partners i+1 .. j-1, starting from F. */
  function RowDone(F: seq<Vec3>, T: seq<seq<Vec3>>, i: nat, j: nat): (G: seq<Vec3>)
    requires IsTable(T, |F|) && i < j <= |F|
    ensures |G| == |F|
    decreases j
  {
    if j == i + 1 then F else AddPair(RowDone(F, T, i, j - 1), i, j - 1, T[i][j - 1])
  }

  /** Rows 0 .. i-1 of the pair loop run to completion, starting from F. */
  function RowsDone(F: seq<Vec3>, T: seq<seq<Vec3>>, i: nat): (G: seq<Vec3>)
    requires IsTable(T, |F|) && i <= |F|
    ensures |G| == |F|
  {
    if i == 0 then F else RowDone(RowsDone(F, T, i - 1), T, i - 1, |F|)
  }

  /** Running one more row: rows 0 .. next-1 are rows 0 .. i-1 followed by row i. */
  lemma RowsDoneNext(F: seq<Vec3>, T: seq<seq<Vec3>>, i: nat, next: nat)
    requires IsTable(T, |F|) && i < |F| && next == i + 1
    ensures RowsDone(F, T, next) == RowDone(RowsDone(F, T, i), T, i, |F|)
  {
  }

  /** The forces the routine leaves: reset to zero, then every row of the pair loop. */
  function Accumulated(T: seq<seq<Vec3>>, n: nat): (F: seq<Vec3>)
    requires IsTable(T, n)
    ensures |F| == n
  {
    RowsDone(Zeros(n), T, n)
  }

  /** The sum of the pair vectors T[k][m] over the partners k < m < j. */
  function Outgoing(T: seq<seq<Vec3>>, n: nat, k: nat, j: nat): Vec3
    requires IsTable(T, n) && k < n && j <= n
    decreases j
  {
    if j <= k + 1 then Zero else Add(Outgoing(T, n, k, j - 1), T[k][j - 1])
  }

  /** The sum of the negated pair vectors T[m][k] over the partners m < i (with i <= k). */
  function Incoming(T: seq<seq<Vec3>>, n: nat, k: nat, i: nat): Vec3
    requires IsTable(T, n) && i <= k < n
  {
    if i == 0 then Zero else Add(Incoming(T, n, k, i - 1), Neg(T[i - 1][k]))
  }

  /**
   * An independent description of the result: the force on particle k is the
   * sum of the negated vectors of its pairs with lower-numbered particles plus
   * the sum of the vectors of its pairs with higher-numbered particles, so
   * every unordered pair contributes exactly once to each of its two members.
   */
  function NetForce(T: seq<seq<Vec3>>, n: nat, k: nat): Vec3
    requires IsTable(T, n) && k < n
  {
    Add(Incoming(T, n, k, k), Outgoing(T, n, k, n))
  }

  /** Visiting one pair leaves the total unchanged. */
  lemma SumAddPair(F: seq<Vec3>, i: nat, j: nat, f: Vec3)
    requires i < j < |F|
    ensures Sum(AddPair(F, i, j, f)) == Sum(F)
  {
    var F1 := F[i := Add(F[i], f)];
    SumUpdate(F, i, Add(F[i], f));
    SumUpdate(F1, j, Add(F1[j], Neg(f)));
  }

  lemma {:induction false} SumRowDone(F: seq<Vec3>, T: seq<seq<Vec3>>, i: nat, j: nat)
    requires IsTable(T, |F|) && i < j <= |F|
    ensures Sum(RowDone(F, T, i, j)) == Sum(F)
    decreases j
  {
    if j > i + 1 {
      SumRowDone(F, T, i, j - 1);
      SumAddPair(RowDone(F, T, i, j - 1), i, j - 1, T[i][j - 1]);
    }
  }

  lemma {:induction false} SumRowsDone(F: seq<Vec3>, T: seq<seq<Vec3>>, i: nat)
    requires IsTable(T, |F|) && i <= |F|
    ensures Sum(RowsDone(F, T, i)) == Sum(F)
  {
    if i > 0 {
      SumRowsDone(F, T, i - 1);
      SumRowDone(RowsDone(F, T, i - 1), T, i - 1, |F|);
    }
  }

  lemma {:induction false} SumZeros(n: nat)
    ensures Sum(Zeros(n)) == Zero
  {
    if n > 0 {
      assert Zeros(n)[..n - 1] == Zeros(n - 1);
      SumZeros(n - 1);
    }
  }

  /** Newton's third law for the whole system: the accumulated forces sum to zero. */
  lemma AccumulatedCancels(T: seq<seq<Vec3>>, n: nat)
    requires IsTable(T, n)
    ensures Sum(Accumulated(T, n)) == Zero
  {
    SumRowsDone(Zeros(n), T, n);
    SumZeros(n);
  }

  /** What row i does to each entry: k = i collects the row, the partners receive negations. */
  lemma {:induction false} RowDoneAt(F: seq<Vec3>, T: seq<seq<Vec3>>, i: nat, j: nat, k: nat)
    requires IsTable(T, |F|) && i < j <= |F| && k < |F|
    ensures RowDone(F, T, i, j)[k] ==
      if k == i then Add(F[i], Outgoing(T, |F|, i, j))
      else if i < k < j then Add(F[k], Neg(T[i][k]))
      else F[k]
    decreases j
  {
    if j > i + 1 {
      RowDoneAt(F, T, i, j - 1, k);
    }
  }

  lemma {:induction false} RowsDoneAt(T: seq<seq<Vec3>>, n: nat, i: nat, k: nat)
    requires IsTable(T, n) && i <= n && k < n
    ensures RowsDone(Zeros(n), T, i)[k] ==
      if k < i then NetForce(T, n, k) else Incoming(T, n, k, i)
  {
    if i > 0 {
      RowsDoneAt(T, n, i - 1, k);
      RowDoneAt(RowsDone(Zeros(n), T, i - 1), T, i - 1, n, k);
    }
  }

  /** The loops compute, for every particle, the net force of its pairs. */
  lemma AccumulatedIsNetForce(T: seq<seq<Vec3>>, n: nat)
    requires IsTable(T, n)
    ensures forall k :: 0 <= k < n ==> Accumulated(T, n)[k] == NetForce(T, n, k)
  {
    forall k | 0 <= k < n
      ensures Accumulated(T, n)[k] == NetForce(T, n, k)
    {
      RowsDoneAt(T, n, n, k);
    }
  }

  /** Two particles: the first receives the pair vector, the second its negation. */
  lemma TwoParticles(T: seq<seq<Vec3>>)
    requires IsTable(T, 2)
    ensures Accumulated(T, 2) == [T[0][1], Neg(T[0][1])]
  {
    RowsDoneAt(T, 2, 2, 0);
    RowsDoneAt(T, 2, 2, 1);
    assert Outgoing(T, 2, 0, 2) == Add(Zero, T[0][1]);
    assert Incoming(T, 2, 1, 1) == Add(Zero, Neg(T[0][1]));
    var F := Accumulated(T, 2);
    assert F[0] == T[0][1] && F[1] == Neg(T[0][1]);
  }
}
