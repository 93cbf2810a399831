/** Optional values, for the keyword arguments that default to `None`. */
module Optional {
  datatype Option<T> = None | Some(value: T)
}

/**
 * Exact real vectors and matrices standing in for numpy's float arrays,
 * and the IEEE values that the objective and gradient oracles may return.
 * Vectors are `seq<real>`; a matrix is the sequence of its rows.
 */
module Numerics {

  type Vec = seq<real>
  type Matrix = seq<seq<real>>

  /** A double as the oracles return it: a finite number, an infinity or NaN. */
  datatype Float = Num(v: real) | PosInf | NegInf | NaN

  predicate AllFinite(v: seq<Float>) {
    forall i :: 0 <= i < |v| ==> v[i].Num?
  }

  /** The real values of a vector of finite doubles. */
  function Values(v: seq<Float>): (r: Vec)
    requires AllFinite(v)
    ensures |r| == |v|
    ensures forall i :: 0 <= i < |v| ==> v[i] == Num(r[i])
  {
    seq(|v|, i requires 0 <= i < |v| => v[i].v)
  }

  /**
   * Python's `a < b` for a finite `a` and a double `b`: never true against
   * NaN or `-inf`, always true against `+inf`.
   */
  predicate Below(a: real, b: Float): (r: bool)
    ensures b.NaN? || b.NegInf? ==> !r
    ensures b.PosInf? ==> r
    ensures b.Num? ==> (r <==> a < b.v)
  {
    match b
    case Num(v) => a < v
    case PosInf => true
    case NegInf => false
    case NaN => false
  }

  function Max(a: real, b: real): real {
    if a < b then b else a
  }

  function MinInt(a: int, b: int): int {
    if a < b then a else b
  }

  function MaxInt(a: int, b: int): int {
    if a < b then b else a
  }

  // ---------------------------------------------------------------------
  // Vectors

  function Zeros(n: nat): Vec {
    seq(n, _ => 0.0)
  }

  function Add(u: Vec, v: Vec): Vec
    requires |u| == |v|
  {
    seq(|u|, i requires 0 <= i < |u| => u[i] + v[i])
  }

  function Sub(u: Vec, v: Vec): Vec
    requires |u| == |v|
  {
    seq(|u|, i requires 0 <= i < |u| => u[i] - v[i])
  }

  function Scale(c: real, v: Vec): Vec {
    seq(|v|, i requires 0 <= i < |v| => c * v[i])
  }

  function Neg(v: Vec): Vec {
    seq(|v|, i requires 0 <= i < |v| => -v[i])
  }

  /** `z + t*u` */
  function Axpy(z: Vec, t: real, u: Vec): Vec
    requires |z| == |u|
  {
    seq(|z|, i requires 0 <= i < |z| => z[i] + t * u[i])
  }

  /** `r + a*u + b*w` */
  function Axpby(r: Vec, a: real, u: Vec, b: real, w: Vec): Vec
    requires |r| == |u| == |w|
  {
    seq(|r|, i requires 0 <= i < |r| => r[i] + a * u[i] + b * w[i])
  }

  function Sum(v: Vec): real {
    if |v| == 0 then 0.0 else v[0] + Sum(v[1..])
  }

  /** The inner product `uᵗv`. */
  function Dot(u: Vec, v: Vec): real
    requires |u| == |v|
  {
    if |u| == 0 then 0.0 else u[0] * v[0] + Dot(u[1..], v[1..])
  }

  /**
   * `‖v‖₂ > t`, decided without a square root: a norm is never negative,
   * so for `t >= 0` it exceeds `t` exactly when its square exceeds `t*t`.
   * Except against NaN, where both comparisons are false, it is the
   * negation of `‖v‖₂ <= t`.
   */
  predicate NormExceeds(v: Vec, t: Float): (r: bool)
    ensures t.NaN? || t.PosInf? ==> !r
    ensures !t.NaN? ==> (r <==> !NormWithin(v, t))
  {
    match t
    case Num(b) => b < 0.0 || Dot(v, v) > b * b
    case PosInf => false
    case NegInf => true
    case NaN => false
  }

  /** `‖v‖₂ <= t`, decided on squares like `NormExceeds`; never true for a negative `t`. */
  predicate NormWithin(v: Vec, t: Float): (r: bool)
    ensures t.NaN? || t.NegInf? || (t.Num? && t.v < 0.0) ==> !r
    ensures t.PosInf? || (t.Num? && Dot(v, v) == 0.0 && t.v >= 0.0) ==> r
  {
    match t
    case Num(b) => 0.0 <= b && Dot(v, v) <= b * b
    case PosInf => true
    case NegInf => false
    case NaN => false
  }

  /**
   * `alpha * ‖p‖₂ > e` for a step length `alpha >= 0` and a double `e`:
   * never true against `+inf` or NaN, so such an `evaldist` never resets
   * the cache; always true against `-inf` or a negative number.
   */
  predicate StepExceeds(alpha: real, p: Vec, e: Float): (r: bool)
    ensures e.PosInf? || e.NaN? ==> !r
    ensures e.NegInf? || (e.Num? && e.v < 0.0) ==> r
  {
    match e
    case Num(b) => b < 0.0 || alpha * alpha * Dot(p, p) > b * b
    case PosInf => false
    case NegInf => true
    case NaN => false
  }

  /** The combination `Σ_k w[k] * V[k]` of `n`-vectors. */
  function Combine(V: seq<Vec>, w: Vec, n: nat): (r: Vec)
    requires |w| == |V|
    requires forall k :: 0 <= k < |V| ==> |V[k]| == n
    ensures |r| == n
  {
    if |V| == 0 then Zeros(n) else Add(Scale(w[0], V[0]), Combine(V[1..], w[1..], n))
  }

  // ---------------------------------------------------------------------
  // Matrices

  predicate IsSquare(M: Matrix, n: nat) {
    |M| == n && forall i :: 0 <= i < n ==> |M[i]| == n
  }

  predicate Symmetric(M: Matrix)
    requires IsSquare(M, |M|)
  {
    forall i, j :: 0 <= i < |M| && 0 <= j < |M| ==> M[i][j] == M[j][i]
  }

  function Identity(n: nat): (r: Matrix)
    ensures IsSquare(r, n) && Symmetric(r)
  {
    seq(n, i => seq(n, j => if i == j then 1.0 else 0.0))
  }

  function ScaleMat(c: real, M: Matrix): (r: Matrix)
    ensures IsSquare(M, |M|) ==> IsSquare(r, |M|)
  {
    seq(|M|, i requires 0 <= i < |M| => Scale(c, M[i]))
  }

  /** The product `M v`. */
  function MatVec(M: Matrix, v: Vec): (r: Vec)
    requires forall i :: 0 <= i < |M| ==> |M[i]| == |v|
    ensures |r| == |M|
  {
    seq(|M|, i requires 0 <= i < |M| => Dot(M[i], v))
  }

  function Column(M: Matrix, j: nat): Vec
    requires forall i :: 0 <= i < |M| ==> j < |M[i]|
  {
    seq(|M|, i requires 0 <= i < |M| => M[i][j])
  }

  /** The quadratic form `zᵗ M z`. */
  function Quad(M: Matrix, z: Vec): real
    requires IsSquare(M, |z|)
  {
    Dot(z, MatVec(M, z))
  }

  ghost predicate PosSemiDef(M: Matrix) {
    IsSquare(M, |M|) && forall z {:trigger Quad(M, z)} :: |z| == |M| ==> Quad(M, z) >= 0.0
  }

  // ---------------------------------------------------------------------
  // Lemmas

  /** Comparing squares decides the norm comparison exactly. */
  lemma {:induction false} NormComparisonExact(v: Vec, norm: real, b: real)
    requires norm >= 0.0 && norm * norm == Dot(v, v)
    ensures NormExceeds(v, Num(b)) <==> norm > b
    ensures NormWithin(v, Num(b)) <==> norm <= b
  {
    if 0.0 <= b {
      if norm > b {
        assert norm * norm > b * b by { SquareMonotone(b, norm); }
      } else {
        assert norm * norm <= b * b by { SquareMonotoneWeak(norm, b); }
      }
    }
  }

  /** The same for a step `alpha * p` with `alpha >= 0`. */
  lemma {:induction false} StepComparisonExact(alpha: real, p: Vec, norm: real, e: real)
    requires alpha >= 0.0 && norm >= 0.0 && norm * norm == Dot(p, p)
    ensures StepExceeds(alpha, p, Num(e)) <==> alpha * norm > e
  {
    var len := alpha * norm;
    assert len >= 0.0;
    assert len * len == alpha * alpha * Dot(p, p);
    if 0.0 <= e {
      if len > e {
        SquareMonotone(e, len);
      } else {
        SquareMonotoneWeak(len, e);
      }
    }
  }

  /** Negating the second factor negates the inner product. */
  lemma {:induction false} DotNeg(u: Vec, v: Vec)
    requires |u| == |v|
    ensures Dot(u, Neg(v)) == -Dot(u, v)
  {
    if |u| > 0 {
      assert Neg(v)[1..] == Neg(v[1..]);
      DotNeg(u[1..], v[1..]);
    }
  }

  lemma {:induction false} ProductPositive(a: real, b: real)
    requires a > 0.0 && b > 0.0
    ensures a * b > 0.0
  {
  }

  lemma {:induction false} SquarePositive(a: real)
    ensures a * a >= 0.0
    ensures a != 0.0 ==> a * a > 0.0
  {
    if a < 0.0 {
      var b := -a;
      ProductPositive(b, b);
      assert b * b == a * a;
    } else if a > 0.0 {
      ProductPositive(a, a);
    }
  }

  lemma {:induction false} SquareMonotone(a: real, b: real)
    requires 0.0 <= a < b
    ensures a * a < b * b
  {
    ProductPositive(b - a, b + a);
    assert b * b - a * a == (b - a) * (b + a);
  }

  lemma {:induction false} SquareMonotoneWeak(a: real, b: real)
    requires 0.0 <= a <= b
    ensures a * a <= b * b
  {
    if a < b {
      ProductPositive(b - a, b + a);
    }
    assert b * b - a * a == (b - a) * (b + a);
  }

  lemma {:induction false} RingScale(c: real, a0: real, v0: real, d: real)
    ensures c * a0 * v0 + c * d == c * (a0 * v0 + d)
  {
  }

  lemma {:induction false} RingQuad(a: real, b: real, c: real, t: real)
    ensures (a + t * b) + t * (b + t * c) == a + 2.0 * t * b + t * t * c
  {
  }

  lemma {:induction false} ProductNonneg(a: real, b: real)
    requires a >= 0.0 && b >= 0.0
    ensures a * b >= 0.0
  {
  }

  lemma {:induction false} DotComm(u: Vec, v: Vec)
    requires |u| == |v|
    ensures Dot(u, v) == Dot(v, u)
  {
    if |u| > 0 {
      DotComm(u[1..], v[1..]);
    }
  }

  lemma {:induction false} DotZerosLeft(v: Vec)
    ensures Dot(Zeros(|v|), v) == 0.0
  {
    if |v| > 0 {
      assert Zeros(|v|)[1..] == Zeros(|v| - 1);
      DotZerosLeft(v[1..]);
    }
  }

  lemma {:induction false} DotAddLeft(a: Vec, b: Vec, v: Vec)
    requires |a| == |b| == |v|
    ensures Dot(Add(a, b), v) == Dot(a, v) + Dot(b, v)
  {
    if |a| > 0 {
      assert forall i :: 0 <= i < |a| - 1 ==> Add(a, b)[1..][i] == Add(a[1..], b[1..])[i];
      assert Add(a, b)[1..] == Add(a[1..], b[1..]);
      DotAddLeft(a[1..], b[1..], v[1..]);
    }
  }

  lemma {:induction false} DotScaleLeft(c: real, a: Vec, v: Vec)
    requires |a| == |v|
    ensures Dot(Scale(c, a), v) == c * Dot(a, v)
  {
    if |a| > 0 {
      assert forall i :: 0 <= i < |a| - 1 ==> Scale(c, a)[1..][i] == Scale(c, a[1..])[i];
      assert Scale(c, a)[1..] == Scale(c, a[1..]);
      DotScaleLeft(c, a[1..], v[1..]);
      RingScale(c, a[0], v[0], Dot(a[1..], v[1..]));
    }
  }

  lemma {:induction false} DotAxpyLeft(z: Vec, t: real, u: Vec, v: Vec)
    requires |z| == |u| == |v|
    ensures Dot(Axpy(z, t, u), v) == Dot(z, v) + t * Dot(u, v)
  {
    assert Axpy(z, t, u) == Add(z, Scale(t, u));
    DotAddLeft(z, Scale(t, u), v);
    DotScaleLeft(t, u, v);
  }

  lemma {:induction false} DotAxpyRight(v: Vec, z: Vec, t: real, u: Vec)
    requires |z| == |u| == |v|
    ensures Dot(v, Axpy(z, t, u)) == Dot(v, z) + t * Dot(v, u)
  {
    DotComm(v, Axpy(z, t, u));
    DotAxpyLeft(z, t, u, v);
    DotComm(z, v);
    DotComm(u, v);
  }

  lemma {:induction false} DotAxpbyLeft(r: Vec, a: real, u: Vec, b: real, w: Vec, v: Vec)
    requires |r| == |u| == |w| == |v|
    ensures Dot(Axpby(r, a, u, b, w), v) == Dot(r, v) + a * Dot(u, v) + b * Dot(w, v)
  {
    assert Axpby(r, a, u, b, w) == Axpy(Axpy(r, a, u), b, w);
    DotAxpyLeft(Axpy(r, a, u), b, w, v);
    DotAxpyLeft(r, a, u, v);
  }

  lemma {:induction false} DotSelfNonneg(v: Vec)
    ensures Dot(v, v) >= 0.0
  {
    if |v| > 0 {
      DotSelfNonneg(v[1..]);
      SquarePositive(v[0]);
    }
  }

  /** A nonzero inner product needs a nonzero entry in each factor. */
  lemma {:induction false} DotNonzeroEntry(u: Vec, v: Vec) returns (i: nat)
    requires |u| == |v| && Dot(u, v) != 0.0
    ensures i < |v| && v[i] != 0.0
  {
    if v[0] == 0.0 {
      assert u[0] * v[0] == 0.0;
      var k := DotNonzeroEntry(u[1..], v[1..]);
      i := k + 1;
    } else {
      i := 0;
    }
  }

  /** A square plus something nonnegative is positive when the square's root is nonzero. */
  lemma {:induction false} SquarePlusPositive(a: real, d: real)
    requires a != 0.0 && d >= 0.0
    ensures a * a + d > 0.0
  {
    SquarePositive(a);
    calc {
      a * a + d;
    >= a * a;
    > 0.0;
    }
  }

  /** A vector with a nonzero entry has a positive squared length. */
  lemma {:induction false} DotSelfPositive(v: Vec, i: nat)
    requires i < |v| && v[i] != 0.0
    ensures Dot(v, v) > 0.0
  {
    DotSelfNonneg(v[1..]);
    if i == 0 {
      SquarePlusPositive(v[0], Dot(v[1..], v[1..]));
    } else {
      DotSelfPositive(v[1..], i - 1);
      SquarePositive(v[0]);
    }
  }

  /** Positive curvature `sᵗy > 0` forces `y ≠ 0`, hence `yᵗy > 0`. */
  lemma {:induction false} CurvatureNonzero(s: Vec, y: Vec)
    requires |s| == |y| && Dot(s, y) > 0.0
    ensures Dot(y, y) > 0.0
  {
    var i := DotNonzeroEntry(s, y);
    DotSelfPositive(y, i);
  }

  /** The one-term combination `1 * v` is `v` itself. */
  lemma {:induction false} CombineSingle(v: Vec)
    ensures Combine([v], [1.0], |v|) == v
  {
    var n := |v|;
    assert [v][1..] == [];
    assert Combine([v][1..], [1.0][1..], n) == Zeros(n);
    var c := Combine([v], [1.0], n);
    assert c == Add(Scale(1.0, v), Zeros(n));
    assert forall i :: 0 <= i < n ==> c[i] == v[i];
  }

  /** `yᵗ (M z) = (Σ_i y_i M[i])ᵗ z`. */
  lemma {:induction false} DotMatVecIsCombine(M: Matrix, y: Vec, z: Vec)
    requires |y| == |M|
    requires forall i :: 0 <= i < |M| ==> |M[i]| == |z|
    ensures Dot(y, MatVec(M, z)) == Dot(Combine(M, y, |z|), z)
  {
    if |M| == 0 {
      DotZerosLeft(z);
    } else {
      var n := |z|;
      var rest := Combine(M[1..], y[1..], n);
      calc {
        Dot(y, MatVec(M, z));
      == { assert MatVec(M, z)[1..] == MatVec(M[1..], z); }
        y[0] * Dot(M[0], z) + Dot(y[1..], MatVec(M[1..], z));
      == { DotMatVecIsCombine(M[1..], y[1..], z); }
        y[0] * Dot(M[0], z) + Dot(rest, z);
      == { DotScaleLeft(y[0], M[0], z); }
        Dot(Scale(y[0], M[0]), z) + Dot(rest, z);
      == { DotAddLeft(Scale(y[0], M[0]), rest, z); }
        Dot(Combine(M, y, n), z);
      }
    }
  }

  /** Entry `i` of `r + a u + b w`, with the three entries named. */
  lemma {:induction false} AxpbyAt(r: Vec, a: real, u: Vec, b: real, w: Vec, i: nat, ri: real, ui: real, wi: real)
    requires |r| == |u| == |w| && i < |r|
    requires ri == r[i] && ui == u[i] && wi == w[i]
    ensures Axpby(r, a, u, b, w)[i] == ri + a * ui + b * wi
  {
  }

  /** Entry `j` of `Σ_i y_i M[i]` is column `j` of `M` against `y`. */
  lemma {:induction false} CombineAt(M: Matrix, y: Vec, n: nat, j: nat)
    requires |y| == |M| && j < n
    requires forall i :: 0 <= i < |M| ==> |M[i]| == n
    ensures Combine(M, y, n)[j] == Dot(Column(M, j), y)
  {
    if |M| > 0 {
      assert Column(M, j)[1..] == Column(M[1..], j);
      CombineAt(M[1..], y[1..], n, j);
    }
  }

  /** For a symmetric matrix, `yᵗ M z = zᵗ M y`. */
  lemma {:induction false} SymmetricBilinear(M: Matrix, y: Vec, z: Vec)
    requires |y| == |z| && IsSquare(M, |z|) && Symmetric(M)
    ensures Dot(y, MatVec(M, z)) == Dot(z, MatVec(M, y))
  {
    var n := |z|;
    forall j | 0 <= j < n
      ensures Combine(M, y, n)[j] == MatVec(M, y)[j]
    {
      CombineAt(M, y, n, j);
      assert Column(M, j) == M[j];
    }
    assert Combine(M, y, n) == MatVec(M, y);
    DotMatVecIsCombine(M, y, z);
    DotComm(MatVec(M, y), z);
  }

  /** `M (z + t u) = M z + t (M u)`. */
  lemma {:induction false} MatVecAxpy(M: Matrix, z: Vec, t: real, u: Vec)
    requires |z| == |u| && IsSquare(M, |z|)
    ensures MatVec(M, Axpy(z, t, u)) == Axpy(MatVec(M, z), t, MatVec(M, u))
  {
    forall i | 0 <= i < |M|
      ensures MatVec(M, Axpy(z, t, u))[i] == Axpy(MatVec(M, z), t, MatVec(M, u))[i]
    {
      DotAxpyRight(M[i], z, t, u);
    }
  }

  /** `(z + t u)ᵗ M (z + t u) = zᵗMz + 2t·zᵗMu + t²·uᵗMu` for a symmetric `M`. */
  lemma {:induction false} QuadShift(M: Matrix, z: Vec, t: real, u: Vec)
    requires |z| == |u| && IsSquare(M, |z|) && Symmetric(M)
    ensures Quad(M, Axpy(z, t, u))
         == Quad(M, z) + 2.0 * t * Dot(z, MatVec(M, u)) + t * t * Quad(M, u)
  {
    QuadExpand(M, z, t, u);
    RingQuad(Quad(M, z), Dot(z, MatVec(M, u)), Quad(M, u), t);
  }

  lemma {:induction false} QuadExpand(M: Matrix, z: Vec, t: real, u: Vec)
    requires |z| == |u| && IsSquare(M, |z|) && Symmetric(M)
    ensures Quad(M, Axpy(z, t, u))
         == (Quad(M, z) + t * Dot(z, MatVec(M, u))) + t * (Dot(z, MatVec(M, u)) + t * Quad(M, u))
  {
    QuadSplit(M, z, t, u);
    CrossTerm(M, z, t, u);
    SquareTerm(M, z, t, u);
  }

  lemma {:induction false} QuadSplit(M: Matrix, z: Vec, t: real, u: Vec)
    requires |z| == |u| && IsSquare(M, |z|)
    ensures Quad(M, Axpy(z, t, u))
         == Dot(Axpy(z, t, u), MatVec(M, z)) + t * Dot(Axpy(z, t, u), MatVec(M, u))
  {
    MatVecAxpy(M, z, t, u);
    DotAxpyRight(Axpy(z, t, u), MatVec(M, z), t, MatVec(M, u));
  }

  lemma {:induction false} CrossTerm(M: Matrix, z: Vec, t: real, u: Vec)
    requires |z| == |u| && IsSquare(M, |z|) && Symmetric(M)
    ensures Dot(Axpy(z, t, u), MatVec(M, z)) == Quad(M, z) + t * Dot(z, MatVec(M, u))
  {
    DotAxpyLeft(z, t, u, MatVec(M, z));
    SymmetricBilinear(M, u, z);
  }

  lemma {:induction false} SquareTerm(M: Matrix, z: Vec, t: real, u: Vec)
    requires |z| == |u| && IsSquare(M, |z|)
    ensures Dot(Axpy(z, t, u), MatVec(M, u)) == Dot(z, MatVec(M, u)) + t * Quad(M, u)
  {
    DotAxpyLeft(z, t, u, MatVec(M, u));
  }

  /** `(c M) z = c (M z)` */
  lemma {:induction false} MatVecScaleMat(c: real, M: Matrix, z: Vec)
    requires IsSquare(M, |z|)
    ensures MatVec(ScaleMat(c, M), z) == Scale(c, MatVec(M, z))
  {
    forall i | 0 <= i < |M|
      ensures MatVec(ScaleMat(c, M), z)[i] == Scale(c, MatVec(M, z))[i]
    {
      DotScaleLeft(c, M[i], z);
    }
  }

  /** Scaling keeps a matrix square and symmetric. */
  lemma {:induction false} ScaleMatKeepsSymmetric(c: real, M: Matrix)
    requires IsSquare(M, |M|) && Symmetric(M)
    ensures IsSquare(ScaleMat(c, M), |M|) && Symmetric(ScaleMat(c, M))
  {
    var C := ScaleMat(c, M);
    forall i, j | 0 <= i < |M| && 0 <= j < |M|
      ensures C[i][j] == C[j][i]
    {
      assert C[i][j] == c * M[i][j];
      assert C[j][i] == c * M[j][i];
    }
  }

  /** `zᵗ (c M) z = c · zᵗ M z` */
  lemma {:induction false} QuadScaleMat(c: real, M: Matrix, z: Vec)
    requires IsSquare(M, |z|)
    ensures IsSquare(ScaleMat(c, M), |z|)
    ensures Quad(ScaleMat(c, M), z) == c * Quad(M, z)
  {
    var Mz := MatVec(M, z);
    MatVecScaleMat(c, M, z);
    DotComm(z, Scale(c, Mz));
    DotScaleLeft(c, Mz, z);
    DotComm(Mz, z);
  }

  /** A positive multiple of a symmetric positive semidefinite matrix is one too. */
  lemma {:induction false} ScaleMatKeepsSymPsd(c: real, M: Matrix)
    requires c > 0.0 && IsSquare(M, |M|) && Symmetric(M) && PosSemiDef(M)
    ensures IsSquare(ScaleMat(c, M), |M|)
    ensures Symmetric(ScaleMat(c, M)) && PosSemiDef(ScaleMat(c, M))
  {
    ScaleMatKeepsSymmetric(c, M);
    forall z | |z| == |M|
      ensures Quad(ScaleMat(c, M), z) >= 0.0
    {
      QuadScaleMat(c, M, z);
      ProductNonneg(c, Quad(M, z));
    }
  }

  /** A row with a single `1` at `i` picks out `z[i]`. */
  lemma {:induction false} DotUnitLeft(u: Vec, z: Vec, i: nat)
    requires |u| == |z| && i < |u|
    requires forall j :: 0 <= j < |u| ==> u[j] == if j == i then 1.0 else 0.0
    ensures Dot(u, z) == z[i]
  {
    if i == 0 {
      assert u[1..] == Zeros(|z| - 1);
      DotZerosLeft(z[1..]);
    } else {
      DotUnitLeft(u[1..], z[1..], i - 1);
    }
  }

  lemma {:induction false} MatVecIdentity(z: Vec)
    ensures MatVec(Identity(|z|), z) == z
  {
    forall i | 0 <= i < |z|
      ensures MatVec(Identity(|z|), z)[i] == z[i]
    {
      DotUnitLeft(Identity(|z|)[i], z, i);
    }
  }

  /** The default `H0` qualifies: `zᵗ I z = zᵗz >= 0`. */
  lemma {:induction false} IdentityPsd(n: nat)
    ensures PosSemiDef(Identity(n))
  {
    forall z | |z| == n
      ensures Quad(Identity(n), z) >= 0.0
    {
      MatVecIdentity(z);
      DotSelfNonneg(z);
    }
  }
}
