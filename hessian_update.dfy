/**
 * The full-memory BFGS update of the inverse Hessian approximation `H`
 * (`nvec == 0`), in the symmetrised form of version 2.02:
 *   H' = H - ρ(Hy sᵗ + s (Hy)ᵗ) + c s sᵗ,  ρ = 1/sᵗy,  c = max(ρ² yᵗHy + ρ, 0),
 * where `c s sᵗ` stands for `sscaled sscaledᵗ` with `sscaled = √c · s`.
 */
module HessianUpdate {
  import opened Numerics

  /** `ρ = 1 / sᵗy` */
  function Rho(s: Vec, y: Vec): (r: real)
    requires |s| == |y| && Dot(s, y) > 0.0
    ensures r > 0.0 && r * Dot(s, y) == 1.0
  {
    1.0 / Dot(s, y)
  }

  /** The coefficient of `s sᵗ`: `max(ρ² yᵗHy + ρ, 0)`. */
  function SsFactor(H: Matrix, s: Vec, y: Vec): (c: real)
    requires |s| == |y| && IsSquare(H, |s|) && Dot(s, y) > 0.0
    ensures c >= 0.0
  {
    var rho := Rho(s, y);
    Max(rho * rho * Dot(y, MatVec(H, y)) + rho, 0.0)
  }

  /** `H - ρ(hy sᵗ + s hyᵗ) + c s sᵗ`, entry by entry. */
  function RankTwo(H: Matrix, s: Vec, hy: Vec, rho: real, c: real): (r: Matrix)
    requires IsSquare(H, |s|) && |hy| == |s|
    ensures IsSquare(r, |s|)
  {
    var n := |s|;
    seq(n, i requires 0 <= i < n =>
      seq(n, j requires 0 <= j < n =>
        H[i][j] - (rho * hy[j] * s[i] + rho * hy[i] * s[j]) + c * s[i] * s[j]))
  }

  /** The symmetrised rank-two update, with `hy = H y`. */
  function BfgsUpdate(H: Matrix, s: Vec, y: Vec): (r: Matrix)
    requires |s| == |y| && IsSquare(H, |s|) && Dot(s, y) > 0.0
    ensures IsSquare(r, |s|)
  {
    RankTwo(H, s, MatVec(H, y), Rho(s, y), SsFactor(H, s, y))
  }

  /** The scale `sᵗy / yᵗy` applied to `H` before the first update only. */
  function FirstScaled(H: Matrix, s: Vec, y: Vec, it: nat, scale: bool): (r: Matrix)
    requires |s| == |y| && IsSquare(H, |s|) && Dot(s, y) > 0.0
    ensures IsSquare(r, |s|)
    ensures it != 0 || !scale ==> r == H
  {
    CurvatureNonzero(s, y);
    if it == 0 && scale then ScaleMat(Dot(s, y) / Dot(y, y), H) else H
  }

  /** One full-memory step (lines 292-315): optional first scaling, then the update. */
  function FullUpdate(H: Matrix, s: Vec, y: Vec, it: nat, scale: bool): (r: Matrix)
    requires |s| == |y| && IsSquare(H, |s|) && Dot(s, y) > 0.0
    ensures IsSquare(r, |s|)
  {
    BfgsUpdate(FirstScaled(H, s, y, it, scale), s, y)
  }

  // ---------------------------------------------------------------------
  // Scalar identities

  lemma {:induction false} RowEntry(h: real, rho: real, si: real, sj: real, hyi: real, hyj: real, c: real,
                                    a: real, b: real)
    requires a == -(rho * si) && b == c * si - rho * hyi
    ensures h - (rho * hyj * si + rho * hyi * sj) + c * si * sj == h + a * hyj + b * sj
  {
  }

  lemma {:induction false} SecantAlgebra(hyi: real, si: real, q: real, sty: real, rho: real, c: real,
                                         a: real, b: real)
    requires rho * sty == 1.0 && c == rho * rho * q + rho
    requires a == -(rho * si) && b == c * si - rho * hyi
    ensures hyi + a * q + b * sty == si
  {
    calc {
      hyi + a * q + b * sty;
    ==
      hyi - rho * si * q + (rho * rho * q + rho) * si * sty - rho * hyi * sty;
    ==
      hyi - rho * si * q + rho * q * si * (rho * sty) + si * (rho * sty) - hyi * (rho * sty);
    ==
      si;
    }
  }

  lemma {:induction false} NonnegPlusPositive(a: real, b: real)
    requires a >= 0.0 && b > 0.0
    ensures a + b >= 0.0
  {
  }

  lemma {:induction false} ClampAlgebra(q: real, sty: real, rho: real)
    requires rho > 0.0 && rho * sty == 1.0
    ensures rho * rho * q + rho == rho * rho * (q + sty)
    ensures rho * rho > 0.0
  {
    ProductPositive(rho, rho);
    calc {
      rho * rho * (q + sty);
    ==
      rho * rho * q + rho * (rho * sty);
    ==
      rho * rho * q + rho;
    }
  }

  /** The clamp is inactive exactly when `yᵗHy >= -sᵗy`. */
  lemma {:induction false} ClampInactive(H: Matrix, s: Vec, y: Vec)
    requires |s| == |y| && IsSquare(H, |s|) && Dot(s, y) > 0.0
    ensures var rho := Rho(s, y);
      (SsFactor(H, s, y) == rho * rho * Dot(y, MatVec(H, y)) + rho)
      <==> Dot(y, MatVec(H, y)) + Dot(s, y) >= 0.0
  {
    var rho, q, sty := Rho(s, y), Dot(y, MatVec(H, y)), Dot(s, y);
    ClampAlgebra(q, sty, rho);
    if q + sty >= 0.0 {
      ProductNonneg(rho * rho, q + sty);
    } else {
      assert rho * rho * (q + sty) < 0.0 by {
        ProductPositive(rho * rho, -(q + sty));
      }
    }
  }

  /** With `yᵗHy >= 0`, as for a positive semidefinite `H`, the clamp is off. */
  lemma {:induction false} ClampOffWhenCurved(H: Matrix, s: Vec, y: Vec, q: real, sty: real, rho: real)
    requires |s| == |y| && IsSquare(H, |s|) && Dot(s, y) > 0.0
    requires q == Dot(y, MatVec(H, y)) && sty == Dot(s, y) && rho == Rho(s, y) && q >= 0.0
    ensures SsFactor(H, s, y) == rho * rho * q + rho
  {
    ClampAlgebra(q, sty, rho);
    NonnegPlusPositive(q, sty);
    ProductNonneg(rho * rho, q + sty);
  }

  // ---------------------------------------------------------------------
  // Symmetry

  /** The rank-two form is symmetric exactly when `H` is. */
  lemma {:induction false} RankTwoSymmetric(H: Matrix, s: Vec, hy: Vec, rho: real, c: real)
    requires IsSquare(H, |s|) && |hy| == |s|
    ensures Symmetric(RankTwo(H, s, hy, rho, c)) <==> Symmetric(H)
  {
    var r := RankTwo(H, s, hy, rho, c);
    var n := |s|;
    forall i, j | 0 <= i < n && 0 <= j < n
      ensures r[i][j] - r[j][i] == H[i][j] - H[j][i]
    {
      assert r[i][j] == H[i][j] - (rho * hy[j] * s[i] + rho * hy[i] * s[j]) + c * s[i] * s[j];
      assert r[j][i] == H[j][i] - (rho * hy[i] * s[j] + rho * hy[j] * s[i]) + c * s[j] * s[i];
    }
  }

  /** The BFGS update is symmetric exactly when `H` is. */
  lemma {:induction false} BfgsSymmetric(H: Matrix, s: Vec, y: Vec)
    requires |s| == |y| && IsSquare(H, |s|) && Dot(s, y) > 0.0
    ensures Symmetric(BfgsUpdate(H, s, y)) <==> Symmetric(H)
  {
    RankTwoSymmetric(H, s, MatVec(H, y), Rho(s, y), SsFactor(H, s, y));
  }

  // ---------------------------------------------------------------------
  // Rows and products

  /** Row `i` of the rank-two form as the combination `H[i] + a hy + b s`. */
  lemma {:induction false} RankTwoRow(H: Matrix, s: Vec, hy: Vec, rho: real, c: real, i: nat, a: real, b: real)
    requires IsSquare(H, |s|) && |hy| == |s| && i < |s|
    requires a == -(rho * s[i]) && b == c * s[i] - rho * hy[i]
    ensures RankTwo(H, s, hy, rho, c)[i] == Axpby(H[i], a, hy, b, s)
  {
    var n := |s|;
    var row := RankTwo(H, s, hy, rho, c)[i];
    var comb := Axpby(H[i], a, hy, b, s);
    forall j | 0 <= j < n
      ensures row[j] == comb[j]
    {
      RowEntry(H[i][j], rho, s[i], s[j], hy[i], hy[j], c, a, b);
    }
  }

  /**
   * `(R z)_i = (Hz)_i + a hyᵗz + b sᵗz` with `a = -ρ s_i`, `b = c s_i - ρ hy_i`,
   * for the rank-two form `R`; the three products are named `hz`, `bz`, `az`.
   */
  lemma {:induction false} RankTwoTimes(H: Matrix, s: Vec, hy: Vec, rho: real, c: real, z: Vec, i: nat,
                                        a: real, b: real, hz: real, bz: real, az: real)
    requires IsSquare(H, |s|) && |hy| == |s| == |z| && i < |s|
    requires a == -(rho * s[i]) && b == c * s[i] - rho * hy[i]
    requires hz == Dot(H[i], z) && bz == Dot(hy, z) && az == Dot(s, z)
    ensures MatVec(RankTwo(H, s, hy, rho, c), z)[i] == hz + a * bz + b * az
  {
    RankTwoRow(H, s, hy, rho, c, i, a, b);
    DotAxpbyLeft(H[i], a, hy, b, s, z);
  }

  /** The secant equation for the rank-two form whose coefficients are those of BFGS. */
  lemma {:induction false} RankTwoSecant(H: Matrix, s: Vec, y: Vec, hy: Vec, rho: real, c: real, q: real, sty: real)
    requires IsSquare(H, |s|) && |hy| == |s| == |y|
    requires hy == MatVec(H, y) && q == Dot(hy, y) && sty == Dot(s, y)
    requires rho * sty == 1.0 && c == rho * rho * q + rho
    ensures MatVec(RankTwo(H, s, hy, rho, c), y) == s
  {
    forall i | 0 <= i < |s|
      ensures MatVec(RankTwo(H, s, hy, rho, c), y)[i] == s[i]
    {
      SecantEntry(H, s, y, hy, rho, c, q, sty, i, hy[i], s[i]);
    }
  }

  lemma {:induction false} SecantEntry(H: Matrix, s: Vec, y: Vec, hy: Vec, rho: real, c: real, q: real, sty: real,
                                       i: nat, hyi: real, si: real)
    requires IsSquare(H, |s|) && |hy| == |s| == |y| && i < |s|
    requires hyi == hy[i] && si == s[i] && hyi == Dot(H[i], y) && q == Dot(hy, y) && sty == Dot(s, y)
    requires rho * sty == 1.0 && c == rho * rho * q + rho
    ensures MatVec(RankTwo(H, s, hy, rho, c), y)[i] == si
  {
    var a, b := -(rho * si), c * si - rho * hyi;
    assert MatVec(RankTwo(H, s, hy, rho, c), y)[i] == hyi + a * q + b * sty by {
      RankTwoTimes(H, s, hy, rho, c, y, i, a, b, hyi, q, sty);
    }
    assert hyi + a * q + b * sty == si by {
      SecantAlgebra(hyi, si, q, sty, rho, c, a, b);
    }
  }

  /**
   * Secant equation: when the clamp is inactive (in particular when
   * `yᵗHy >= 0`), the updated matrix maps `y` to `s`.
   */
  lemma {:induction false} BfgsSecant(H: Matrix, s: Vec, y: Vec)
    requires |s| == |y| && IsSquare(H, |s|) && Dot(s, y) > 0.0
    requires Dot(y, MatVec(H, y)) + Dot(s, y) >= 0.0
    ensures MatVec(BfgsUpdate(H, s, y), y) == s
  {
    var Hy := MatVec(H, y);
    ClampInactive(H, s, y);
    DotComm(Hy, y);
    RankTwoSecant(H, s, y, Hy, Rho(s, y), SsFactor(H, s, y), Dot(Hy, y), Dot(s, y));
  }
  // ---------------------------------------------------------------------
  // Positive semidefiniteness

  lemma {:induction false} ProductEntryAlgebra(hz: real, si: real, hyi: real, rho: real, c: real, az: real, bz: real,
                                               a: real, b: real, alpha: real, beta: real)
    requires a == -(rho * si) && b == c * si - rho * hyi
    requires alpha == c * az - rho * bz && beta == -(rho * az)
    ensures hz + a * bz + b * az == hz + alpha * si + beta * hyi
  {
  }

  lemma {:induction false} ProductEntry(H: Matrix, s: Vec, hy: Vec, rho: real, c: real, z: Vec, az: real, bz: real,
                                        alpha: real, beta: real, i: nat, hz: real, si: real, hyi: real)
    requires IsSquare(H, |s|) && |hy| == |s| == |z| && i < |s|
    requires az == Dot(s, z) && bz == Dot(hy, z) && hz == Dot(H[i], z) && si == s[i] && hyi == hy[i]
    requires alpha == c * az - rho * bz && beta == -(rho * az)
    ensures MatVec(RankTwo(H, s, hy, rho, c), z)[i] == Axpby(MatVec(H, z), alpha, s, beta, hy)[i]
  {
    var a, b := -(rho * si), c * si - rho * hyi;
    assert MatVec(RankTwo(H, s, hy, rho, c), z)[i] == hz + a * bz + b * az by {
      RankTwoTimes(H, s, hy, rho, c, z, i, a, b, hz, bz, az);
    }
    assert hz + a * bz + b * az == hz + alpha * si + beta * hyi by {
      ProductEntryAlgebra(hz, si, hyi, rho, c, az, bz, a, b, alpha, beta);
    }
    assert Axpby(MatVec(H, z), alpha, s, beta, hy)[i] == hz + alpha * si + beta * hyi by {
      AxpbyAt(MatVec(H, z), alpha, s, beta, hy, i, hz, si, hyi);
    }
  }

  /** `R z = Hz + (c sᵗz - ρ hyᵗz) s - ρ (sᵗz) hy` for the rank-two form `R`. */
  lemma {:induction false} RankTwoProduct(H: Matrix, s: Vec, hy: Vec, rho: real, c: real, z: Vec, az: real, bz: real,
                                          alpha: real, beta: real)
    requires IsSquare(H, |s|) && |hy| == |s| == |z|
    requires az == Dot(s, z) && bz == Dot(hy, z)
    requires alpha == c * az - rho * bz && beta == -(rho * az)
    ensures MatVec(RankTwo(H, s, hy, rho, c), z) == Axpby(MatVec(H, z), alpha, s, beta, hy)
  {
    forall i | 0 <= i < |s|
      ensures MatVec(RankTwo(H, s, hy, rho, c), z)[i] == Axpby(MatVec(H, z), alpha, s, beta, hy)[i]
    {
      ProductEntry(H, s, hy, rho, c, z, az, bz, alpha, beta, i, Dot(H[i], z), s[i], hy[i]);
    }
  }

  /** `zᵗRz = zᵗHz + α sᵗz + β hyᵗz` for the rank-two form `R`. */
  lemma {:induction false} RankTwoQuad(H: Matrix, s: Vec, hy: Vec, rho: real, c: real, z: Vec, az: real, bz: real,
                                       alpha: real, beta: real)
    requires IsSquare(H, |s|) && |hy| == |s| == |z|
    requires az == Dot(s, z) && bz == Dot(hy, z)
    requires alpha == c * az - rho * bz && beta == -(rho * az)
    ensures Quad(RankTwo(H, s, hy, rho, c), z) == Quad(H, z) + alpha * az + beta * bz
  {
    var Hz := MatVec(H, z);
    RankTwoProduct(H, s, hy, rho, c, z, az, bz, alpha, beta);
    DotComm(z, Axpby(Hz, alpha, s, beta, hy));
    DotAxpbyLeft(Hz, alpha, s, beta, hy, z);
    DotComm(Hz, z);
    DotComm(s, z);
    DotComm(hy, z);
  }

  /** `QuadShift` with its scalars named. */
  lemma {:induction false} ShiftedQuad(H: Matrix, z: Vec, t: real, y: Vec, q: real, m: real)
    requires |z| == |y| && IsSquare(H, |z|) && Symmetric(H)
    requires q == Quad(H, y) && m == Dot(z, MatVec(H, y))
    ensures Quad(H, Axpy(z, t, y)) == Quad(H, z) + 2.0 * t * m + t * t * q
  {
    QuadShift(H, z, t, y);
  }

  lemma {:induction false} PsdAlgebra(qr: real, qh: real, qw: real, m: real, c: real, az: real, bz: real, rho: real,
                                      q: real, alpha: real, beta: real, t: real)
    requires qr == qh + alpha * az + beta * bz
    requires alpha == c * az - rho * bz && beta == -(rho * az)
    requires qw == qh + 2.0 * t * m + t * t * q && m == bz && t == -(rho * az)
    requires c == rho * rho * q + rho && rho > 0.0 && qw >= 0.0
    ensures qr >= 0.0
  {
    assert qr - qw == rho * (az * az) by {
      calc {
        qr - qw;
      ==
        alpha * az + beta * bz - 2.0 * t * bz - t * t * q;
      ==
        (c * az - rho * bz) * az - rho * az * bz + 2.0 * rho * az * bz - rho * rho * az * az * q;
      ==
        (c - rho * rho * q) * (az * az);
      ==
        rho * (az * az);
      }
    }
    SquarePositive(az);
    ProductNonneg(rho, az * az);
  }

  /**
   * The rank-two form with the unclamped BFGS coefficient keeps a symmetric
   * positive semidefinite `H` positive semidefinite:
   * `zᵗRz = (z - ρ(sᵗz)y)ᵗ H (z - ρ(sᵗz)y) + ρ (sᵗz)²`.
   */
  lemma {:induction false} RankTwoQuadNonneg(H: Matrix, s: Vec, y: Vec, hy: Vec, rho: real, c: real, q: real, z: Vec)
    requires IsSquare(H, |s|) && |hy| == |s| == |y| == |z| && Symmetric(H) && PosSemiDef(H)
    requires hy == MatVec(H, y) && q == Quad(H, y)
    requires rho > 0.0 && c == rho * rho * q + rho
    ensures Quad(RankTwo(H, s, hy, rho, c), z) >= 0.0
  {
    var az, bz := Dot(s, z), Dot(hy, z);
    var alpha, beta, t := c * az - rho * bz, -(rho * az), -(rho * az);
    var w := Axpy(z, t, y);
    RankTwoQuad(H, s, hy, rho, c, z, az, bz, alpha, beta);
    DotComm(z, hy);
    ShiftedQuad(H, z, t, y, q, bz);
    assert Quad(H, w) >= 0.0;
    PsdAlgebra(Quad(RankTwo(H, s, hy, rho, c), z), Quad(H, z), Quad(H, w), bz,
               c, az, bz, rho, q, alpha, beta, t);
  }

  /** The BFGS update keeps `H` symmetric positive semidefinite. */
  lemma {:induction false} BfgsPreservesPsd(H: Matrix, s: Vec, y: Vec)
    requires |s| == |y| && IsSquare(H, |s|) && Dot(s, y) > 0.0
    requires Symmetric(H) && PosSemiDef(H)
    ensures Symmetric(BfgsUpdate(H, s, y)) && PosSemiDef(BfgsUpdate(H, s, y))
    ensures MatVec(BfgsUpdate(H, s, y), y) == s
  {
    var hy, rho, c := MatVec(H, y), Rho(s, y), SsFactor(H, s, y);
    var q := Quad(H, y);
    assert q >= 0.0;
    ClampOffWhenCurved(H, s, y, q, Dot(s, y), rho);
    BfgsSymmetric(H, s, y);
    BfgsSecant(H, s, y);
    forall z | |z| == |s|
      ensures Quad(BfgsUpdate(H, s, y), z) >= 0.0
    {
      RankTwoQuadNonneg(H, s, y, hy, rho, c, q, z);
    }
  }

  /** The first-iteration scale factor `sᵗy / yᵗy` is positive. */
  lemma {:induction false} ScaleFactorPositive(s: Vec, y: Vec)
    requires |s| == |y| && Dot(s, y) > 0.0
    ensures Dot(y, y) > 0.0 && Dot(s, y) / Dot(y, y) > 0.0
  {
    CurvatureNonzero(s, y);
  }

  /**
   * A full-memory step keeps `H` symmetric positive semidefinite, and the
   * new matrix satisfies the secant equation.
   */
  lemma {:induction false} FullUpdatePreservesPsd(H: Matrix, s: Vec, y: Vec, it: nat, scale: bool)
    requires |s| == |y| && IsSquare(H, |s|) && Dot(s, y) > 0.0
    requires Symmetric(H) && PosSemiDef(H)
    ensures Symmetric(FullUpdate(H, s, y, it, scale)) && PosSemiDef(FullUpdate(H, s, y, it, scale))
    ensures MatVec(FullUpdate(H, s, y, it, scale), y) == s
  {
    var H1 := FirstScaled(H, s, y, it, scale);
    if it == 0 && scale {
      ScaleFactorPositive(s, y);
      ScaleMatKeepsSymPsd(Dot(s, y) / Dot(y, y), H);
    }
    BfgsPreservesPsd(H1, s, y);
  }
}
