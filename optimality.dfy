/**
 * The optimality witness: the shortest vector `d` in the convex hull of the
 * saved gradients, with the convex weights `w` that produce it.
 */
module Optimality {
  import opened Numerics
  import opened GradientCache

  /** `w` is a vector of convex weights. */
  predicate OnSimplex(w: Vec) {
    (forall i :: 0 <= i < |w| ==> w[i] >= 0.0) && Sum(w) == 1.0
  }

  /** `d = G w` for convex weights `w`, one per column of `G`. */
  predicate InHull(G: seq<Vec>, n: nat, w: Vec, d: Vec) {
    (forall k :: 0 <= k < |G| ==> |G[k]| == n) &&
    |w| == |G| && OnSimplex(w) && d == Combine(G, w, n)
  }

  /**
   * What the quadratic-program oracle `qpspecial` is relied on for: given
   * at least one column of `n`-vectors, it returns convex weights `w` and
   * the combination `d = G w`.
   */
  ghost predicate QpSound(qp: seq<Vec> -> (Vec, Vec), n: nat) {
    forall G: seq<Vec> {:trigger qp(G)} ::
      1 <= |G| && (forall k :: 0 <= k < |G| ==> |G[k]| == n) ==> InHull(G, n, qp(G).0, qp(G).1)
  }

  /**
   * The witness `(w, d)` after a cache update that saved gradient `g`:
   * the QP solution over `G` when `nG > 1`, otherwise `w = 1` and `d = g`.
   */
  function Witness(c: Cache, g: Vec, qp: seq<Vec> -> (Vec, Vec)): (r: (Vec, Vec))
    ensures c.nG <= 1 ==> r.1 == g && r.0 == [1.0]
  {
    if c.nG > 1 then qp(c.G) else ([1.0], g)
  }

  /**
   * Both branches give a point of the convex hull of the saved gradients:
   * with one gradient `g`, `d = 1 * g`.
   */
  lemma {:induction false} WitnessInHull(c: Cache, g: Vec, ngrad: int, n: nat, qp: seq<Vec> -> (Vec, Vec))
    requires Valid(c, ngrad) && Dimension(c, n) && c.G[0] == g
    requires QpSound(qp, n)
    ensures InHull(c.G, n, Witness(c, g, qp).0, Witness(c, g, qp).1)
  {
    if c.nG <= 1 {
      assert c.G == [g];
      CombineSingle(g);
      assert Sum([1.0]) == 1.0 + Sum([]);
    } else {
      assert InHull(c.G, n, qp(c.G).0, qp(c.G).1);
    }
  }
}
