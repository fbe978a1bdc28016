/** Power-series polynomials as numpy's polynomial module represents them:
    a coefficient sequence, lowest degree first.  Least-squares fitting
    itself is not modelled; a fit's weights are supplied by the caller. */
module Poly {

  function Pow(x: real, k: nat): real
  {
    if k == 0 then 1.0 else x * Pow(x, k - 1)
  }

  /** Polynomial(c)(x) = sum over k of c[k] * x^k. */
  function Eval(c: seq<real>, x: real): real
  {
    if |c| == 0 then 0.0 else Eval(c[..|c| - 1], x) + c[|c| - 1] * Pow(x, |c| - 1)
  }

  predicate Increasing(deg: seq<nat>)
  {
    forall i, j :: 0 <= i < j < |deg| ==> deg[i] < deg[j]
  }

  /** Position of degree k in the degree list, |deg| when absent. */
  function IndexOf(deg: seq<nat>, k: nat): (i: nat)
    ensures i <= |deg|
    ensures i < |deg| ==> deg[i] == k
    ensures i == |deg| ==> k !in deg
  {
    if |deg| == 0 then 0
    else if deg[0] == k then 0
    else 1 + IndexOf(deg[1..], k)
  }

  lemma {:induction false} IndexOfPosition(deg: seq<nat>, i: nat)
    requires Increasing(deg) && i < |deg|
    ensures IndexOf(deg, deg[i]) == i
  {
    if i > 0 {
      assert deg[0] < deg[i];
      IndexOfPosition(deg[1..], i - 1);
    }
  }

  /** numpy's polyfit with an explicit degree list: the least-squares weights
      w (one per listed degree, in ascending degree order) are placed at their
      degrees in a zero vector of length max(deg) + 1.  A weight the solver
      did not supply reads as zero. */
  function Expand(deg: seq<nat>, w: seq<real>): (c: seq<real>)
    requires |deg| > 0 && Increasing(deg)
    ensures |c| == deg[|deg| - 1] + 1
    ensures forall i :: 0 <= i < |deg| && i < |w| ==> c[deg[i]] == w[i]
    ensures forall k :: 0 <= k < |c| && k !in deg ==> c[k] == 0.0
  {
    var c := seq(deg[|deg| - 1] + 1, k requires 0 <= k =>
      var i := IndexOf(deg, k); if i < |deg| && i < |w| then w[i] else 0.0);
    forall i | 0 <= i < |deg| && i < |w|
      ensures c[deg[i]] == w[i]
    {
      IndexOfPosition(deg, i);
      if i < |deg| - 1 { assert deg[i] < deg[|deg| - 1]; }
    }
    c
  }

  /** The degree list 0..d that an integer degree d stands for. */
  function FullDegrees(d: nat): (deg: seq<nat>)
    ensures |deg| == d + 1 && Increasing(deg)
    ensures forall k :: 0 <= k <= d ==> deg[k] == k
  {
    seq(d + 1, k => k)
  }

  lemma {:induction false} EvalAtZero(c: seq<real>)
    requires |c| > 0
    ensures Eval(c, 0.0) == c[0]
  {
    if |c| > 1 {
      EvalAtZero(c[..|c| - 1]);
      assert Pow(0.0, |c| - 1) == 0.0;
    }
  }

  /** A fit over a degree list without 0 has no constant term, so the
      fitted polynomial passes through the origin. */
  lemma NoConstantTermVanishesAtZero(deg: seq<nat>, w: seq<real>)
    requires |deg| > 0 && Increasing(deg) && 0 !in deg
    ensures Expand(deg, w)[0] == 0.0
    ensures Eval(Expand(deg, w), 0.0) == 0.0
  {
    EvalAtZero(Expand(deg, w));
  }

  /** Lowering coefficient 0 by s lowers the polynomial by s everywhere. */
  lemma {:induction false} ShiftConstantTerm(c: seq<real>, s: real, x: real)
    requires |c| > 0
    ensures Eval(c[0 := c[0] - s], x) == Eval(c, x) - s
  {
    var c' := c[0 := c[0] - s];
    if |c| == 1 {
      assert c'[..0] == c[..0] == [];
    } else {
      ShiftConstantTerm(c[..|c| - 1], s, x);
      assert c'[..|c| - 1] == c[..|c| - 1][0 := c[0] - s];
    }
  }
}
