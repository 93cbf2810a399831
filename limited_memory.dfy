/**
 * The limited-memory mode of `bfgs1run` (`nvec > 0`): the last `nvec`
 * steps `s` and gradient differences `y` are kept for the `hgprod`
 * oracle instead of a rank-two update, and `H` is only rescaled.
 *
 * `WindowPush` is the intended bounded FIFO of column vectors, oldest
 * first. `FlatPush` is what the source's `np.hstack` does to the 1-D
 * vectors it is given: it concatenates their entries into one flat
 * array, so that slicing off "the oldest column" drops a single number.
 */
module LimitedMemory {
  import opened Numerics

  /** Python's `s[lo:hi]` for `0 <= lo <= hi`: bounds past the end are clamped. */
  function Slice<T>(s: seq<T>, lo: nat, hi: nat): (r: seq<T>)
    requires lo <= hi
    ensures |r| == MinInt(hi, |s|) - MinInt(lo, |s|)
    ensures forall k :: 0 <= k < |r| ==> r[k] == s[lo + k]
  {
    s[MinInt(lo, |s|)..MinInt(hi, |s|)]
  }

  /** Reference definition: the last `k` entries of `s` (all of them if there are fewer), oldest first. */
  function Latest<T>(s: seq<T>, k: nat): seq<T> {
    s[|s| - MinInt(k, |s|)..]
  }

  /**
   * The window after the push at iteration `it`: while `it + 1 <= nvec`
   * the new vector is appended; afterwards the first (oldest) column is
   * dropped, keeping columns `1 .. nvec - 1`, and the new one appended.
   */
  function WindowPush(W: seq<Vec>, v: Vec, it: nat, nvec: nat): (r: seq<Vec>)
    requires nvec >= 1
    ensures |r| >= 1 && r[|r| - 1] == v
    ensures |W| == MinInt(it, nvec) ==> |r| == MinInt(it + 1, nvec)
  {
    if it + 1 <= nvec then W + [v] else Slice(W, 1, nvec) + [v]
  }

  /**
   * One push onto a window holding the latest `nvec` of the earlier
   * vectors gives the latest `nvec` of them with `v` added: the newest is
   * last and the oldest one leaves once `nvec` are held.
   */
  lemma {:induction false} WindowPushLatest(W: seq<Vec>, vs: seq<Vec>, v: Vec, nvec: nat)
    requires nvec >= 1 && W == Latest(vs, nvec)
    ensures WindowPush(W, v, |vs|, nvec) == Latest(vs + [v], nvec)
    ensures |WindowPush(W, v, |vs|, nvec)| == MinInt(|vs| + 1, nvec)
  {
    var ws := vs + [v];
    if |vs| + 1 <= nvec {
      assert Latest(ws, nvec) == ws;
      assert W == vs;
    } else {
      assert |W| == nvec;
      assert Slice(W, 1, nvec) == W[1..];
      assert W[1..] == vs[|vs| - nvec + 1..];
      assert Latest(ws, nvec) == vs[|vs| - nvec + 1..] + [v];
    }
  }

  /** The window after pushing `vs[0]`, `vs[1]`, ... at iterations `0, 1, ...`. */
  function WindowOf(vs: seq<Vec>, nvec: nat): seq<Vec>
    requires nvec >= 1
  {
    if |vs| == 0 then [] else WindowPush(WindowOf(vs[..|vs| - 1], nvec), vs[|vs| - 1], |vs| - 1, nvec)
  }

  /** FIFO property: the window always holds the newest `nvec` vectors, oldest first. */
  lemma {:induction false} WindowIsLatest(vs: seq<Vec>, nvec: nat)
    requires nvec >= 1
    ensures WindowOf(vs, nvec) == Latest(vs, nvec)
    ensures |WindowOf(vs, nvec)| == MinInt(|vs|, nvec)
  {
    if |vs| > 0 {
      var init, last := vs[..|vs| - 1], vs[|vs| - 1];
      assert WindowOf(vs, nvec) == WindowPush(WindowOf(init, nvec), last, |init|, nvec);
      WindowIsLatest(init, nvec);
      WindowPushLatest(WindowOf(init, nvec), init, last, nvec);
      assert init + [last] == vs;
    }
  }

  // ---------------------------------------------------------------------
  // The window as the source writes it

  /** The entries of the columns of `W`, one after another. */
  function Flatten(W: seq<Vec>): seq<real> {
    if |W| == 0 then [] else Flatten(W[..|W| - 1]) + W[|W| - 1]
  }

  /**
   * `np.hstack` applied to the flat array `F` and the 1-D vector `v`:
   * `v`'s entries are appended, and the "drop the oldest column" slice
   * `F[1:nvec]` keeps entries, not columns.
   */
  function FlatPush(F: seq<real>, v: Vec, it: nat, nvec: nat): (r: seq<real>)
    requires nvec >= 1
    ensures |r| >= |v| && r[|r| - |v|..] == v
  {
    if it + 1 <= nvec then F + v else Slice(F, 1, nvec) + v
  }

  /** While the window is filling, the flat array holds exactly the window's entries. */
  lemma {:induction false} FlatPushWhileFilling(W: seq<Vec>, F: seq<real>, v: Vec, it: nat, nvec: nat)
    requires nvec >= 1 && it + 1 <= nvec && F == Flatten(W)
    ensures FlatPush(F, v, it, nvec) == Flatten(WindowPush(W, v, it, nvec))
  {
    assert (W + [v])[..|W + [v]| - 1] == W;
  }

  /**
   * With two-entry vectors and `nvec = 2`, the third push keeps `[2, 5, 6]`,
   * while the window of the two newest columns `[3, 4]` and `[5, 6]` has
   * entries `[3, 4, 5, 6]`.
   */
  lemma {:induction false} FlatPushDropsEntries()
    ensures FlatPush(FlatPush(FlatPush([], [1.0, 2.0], 0, 2), [3.0, 4.0], 1, 2), [5.0, 6.0], 2, 2)
         == [2.0, 5.0, 6.0]
    ensures Flatten(WindowOf([[1.0, 2.0], [3.0, 4.0], [5.0, 6.0]], 2)) == [3.0, 4.0, 5.0, 6.0]
  {
    var F2 := FlatPush(FlatPush([], [1.0, 2.0], 0, 2), [3.0, 4.0], 1, 2);
    assert F2 == [1.0, 2.0, 3.0, 4.0];
    assert Slice(F2, 1, 2) == [2.0];
    var vs := [[1.0, 2.0], [3.0, 4.0], [5.0, 6.0]];
    WindowIsLatest(vs, 2);
    assert Latest(vs, 2) == [[3.0, 4.0], [5.0, 6.0]];
    assert Flatten([[3.0, 4.0]]) == [3.0, 4.0] by {
      assert [[3.0, 4.0]][..0] == [];
    }
    assert [[3.0, 4.0], [5.0, 6.0]][..1] == [[3.0, 4.0]];
  }

  // ---------------------------------------------------------------------
  // Rescaling

  /** `H = (sᵗy) (yᵗy) H0`: the product of the two inner products scales `H0`. */
  function LmScale(s: Vec, y: Vec, H0: Matrix): (r: Matrix)
    requires |s| == |y|
    ensures IsSquare(H0, |H0|) ==> IsSquare(r, |H0|)
    ensures |r| == |H0| && forall i, j :: 0 <= i < |H0| && 0 <= j < |H0[i]| ==>
      |r[i]| == |H0[i]| && r[i][j] == (Dot(s, y) * Dot(y, y)) * H0[i][j]
  {
    ScaleMat(Dot(s, y) * Dot(y, y), H0)
  }

  /** With `sᵗy > 0` the factor is positive, so a symmetric positive semidefinite `H0` stays so. */
  lemma {:induction false} LmScaleKeepsSymPsd(s: Vec, y: Vec, H0: Matrix)
    requires |s| == |y| && Dot(s, y) > 0.0
    requires IsSquare(H0, |H0|) && Symmetric(H0) && PosSemiDef(H0)
    ensures Dot(s, y) * Dot(y, y) > 0.0
    ensures IsSquare(LmScale(s, y, H0), |H0|) && Symmetric(LmScale(s, y, H0)) && PosSemiDef(LmScale(s, y, H0))
  {
    CurvatureNonzero(s, y);
    ProductPositive(Dot(s, y), Dot(y, y));
    ScaleMatKeepsSymPsd(Dot(s, y) * Dot(y, y), H0);
  }
}
