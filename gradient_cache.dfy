/**
 * The saved (point, gradient) pairs that feed the optimality check of
 * `bfgs1run`. The source keeps them as the columns of two arrays `X` and
 * `G`, newest first, with their number in `nG`.
 */
module GradientCache {
  import opened Numerics

  /** Columns of `X` and `G`, newest first, and their count `nG`. */
  datatype Cache = Cache(X: seq<Vec>, G: seq<Vec>, nG: int)

  /** The most pairs the cache holds: `ngrad`, and never fewer than one. */
  function Capacity(ngrad: int): nat {
    if ngrad < 1 then 1 else ngrad
  }

  /** `X` and `G` have `nG` columns each, and `1 <= nG <= max(1, ngrad)`. */
  predicate Valid(c: Cache, ngrad: int) {
    |c.X| == |c.G| == c.nG && 1 <= c.nG <= Capacity(ngrad)
  }

  /** Every saved point and gradient is an `n`-vector. */
  predicate Dimension(c: Cache, n: nat) {
    (forall k :: 0 <= k < |c.X| ==> |c.X[k]| == n) &&
    (forall k :: 0 <= k < |c.G| ==> |c.G[k]| == n)
  }

  /** The cache holding the single pair `(x, g)`. */
  function Start(x: Vec, g: Vec): (c: Cache)
    ensures forall ngrad :: Valid(c, ngrad)
    ensures c.nG == 1 && c.X[0] == x && c.G[0] == g
  {
    Cache([x], [g], 1)
  }

  /** Python's `s[:k]`: a negative `k` counts from the end. */
  function PyPrefix<T>(s: seq<T>, k: int): (r: seq<T>)
    ensures |r| <= |s| && r == s[..|r|]
  {
    if k >= 0 then s[..MinInt(k, |s|)] else s[..MaxInt(0, |s| + k)]
  }

  /**
   * The update after a line search that reached `x` with gradient `g`:
   * a long step (`far`) discards every saved pair; otherwise the new pair
   * is pushed in front, and once `nG` has reached `ngrad` the columns kept
   * behind it are the first `ngrad - 1` of the old ones.
   */
  function Update(c: Cache, x: Vec, g: Vec, far: bool, ngrad: int): (r: Cache)
    ensures Valid(c, ngrad) ==> Valid(r, ngrad)
    ensures |r.X| >= 1 && |r.G| >= 1 && r.X[0] == x && r.G[0] == g
    ensures far ==> r.nG == 1
  {
    if far then
      Start(x, g)
    else if c.nG < ngrad then
      Cache([x] + c.X, [g] + c.G, c.nG + 1)
    else
      Cache([x] + PyPrefix(c.X, ngrad - 1), [g] + PyPrefix(c.G, ngrad - 1), c.nG)
  }

  /** Reference definition: the first `k` entries of `s` (all of them if there are fewer). */
  function Newest<T>(s: seq<T>, k: nat): seq<T> {
    s[..MinInt(k, |s|)]
  }

  /**
   * A short step keeps exactly the `max(1, ngrad)` newest pairs, newest first:
   * the new pair at position 0, the earlier ones in their old order, and the
   * oldest one dropped once the cache is full.
   */
  lemma {:induction false} UpdateNear(c: Cache, x: Vec, g: Vec, ngrad: int)
    requires Valid(c, ngrad)
    ensures Update(c, x, g, false, ngrad).X == Newest([x] + c.X, Capacity(ngrad))
    ensures Update(c, x, g, false, ngrad).G == Newest([g] + c.G, Capacity(ngrad))
    ensures Update(c, x, g, false, ngrad).nG == MinInt(c.nG + 1, Capacity(ngrad))
  {
    if c.nG < ngrad {
      assert Newest([x] + c.X, Capacity(ngrad)) == [x] + c.X;
      assert Newest([g] + c.G, Capacity(ngrad)) == [g] + c.G;
    } else {
      var k := Capacity(ngrad);
      assert c.nG == k;
      assert PyPrefix(c.X, ngrad - 1) == c.X[..k - 1];
      assert PyPrefix(c.G, ngrad - 1) == c.G[..k - 1];
      assert ([x] + c.X)[..k] == [x] + c.X[..k - 1];
      assert ([g] + c.G)[..k] == [g] + c.G[..k - 1];
    }
  }

  /** A long step leaves only the new pair. */
  lemma {:induction false} UpdateFar(c: Cache, x: Vec, g: Vec, ngrad: int)
    ensures Update(c, x, g, true, ngrad) == Cache([x], [g], 1)
  {
  }

  /** The update keeps every saved vector an `n`-vector. */
  lemma {:induction false} UpdateDimension(c: Cache, x: Vec, g: Vec, far: bool, ngrad: int, n: nat)
    requires Dimension(c, n) && |x| == n && |g| == n
    ensures Dimension(Update(c, x, g, far, ngrad), n)
  {
    var r := Update(c, x, g, far, ngrad);
    if !far && c.nG >= ngrad {
      assert r.X[1..] == PyPrefix(c.X, ngrad - 1);
      assert r.G[1..] == PyPrefix(c.G, ngrad - 1);
    }
  }

  function Reversed<T>(s: seq<T>): (r: seq<T>)
    ensures |r| == |s|
  {
    if |s| == 0 then [] else Reversed(s[1..]) + [s[0]]
  }

  /** Short steps to `xs[0], xs[1], ...` with gradients `gs[0], gs[1], ...`, in order. */
  function PushAll(c: Cache, xs: seq<Vec>, gs: seq<Vec>, ngrad: int): Cache
    requires |xs| == |gs|
    decreases |xs|
  {
    if |xs| == 0 then c else PushAll(Update(c, xs[0], gs[0], false, ngrad), xs[1..], gs[1..], ngrad)
  }

  /** Keeping the newest `k` of a list whose tail was already cut to `k` changes nothing. */
  lemma {:induction false} NewestOfNewest<T>(a: seq<T>, b: seq<T>, k: nat)
    ensures Newest(a + Newest(b, k), k) == Newest(a + b, k)
  {
    if |a| >= k {
      assert (a + Newest(b, k))[..k] == a[..k];
      assert (a + b)[..k] == a[..k];
    } else {
      var m := MinInt(k - |a|, |b|);
      assert Newest(b, k)[..MinInt(k - |a|, |Newest(b, k)|)] == b[..m];
      assert Newest(a + Newest(b, k), k) == a + b[..m];
      assert Newest(a + b, k) == a + b[..m];
    }
  }

  /**
   * FIFO property: after any run of short steps the cache holds the newest
   * `max(1, ngrad)` gradients (and points), newest first.
   */
  lemma {:induction false} PushAllKeepsNewest(c: Cache, xs: seq<Vec>, gs: seq<Vec>, ngrad: int)
    requires |xs| == |gs| && Valid(c, ngrad)
    ensures Valid(PushAll(c, xs, gs, ngrad), ngrad)
    ensures PushAll(c, xs, gs, ngrad).G == Newest(Reversed(gs) + c.G, Capacity(ngrad))
    ensures PushAll(c, xs, gs, ngrad).X == Newest(Reversed(xs) + c.X, Capacity(ngrad))
    decreases |xs|
  {
    var k := Capacity(ngrad);
    if |xs| == 0 {
      assert Newest(c.G, k) == c.G;
      assert Newest(c.X, k) == c.X;
    } else {
      var c1 := Update(c, xs[0], gs[0], false, ngrad);
      UpdateNear(c, xs[0], gs[0], ngrad);
      PushAllKeepsNewest(c1, xs[1..], gs[1..], ngrad);
      NewestOfNewest(Reversed(gs[1..]), [gs[0]] + c.G, k);
      NewestOfNewest(Reversed(xs[1..]), [xs[0]] + c.X, k);
      assert Reversed(gs[1..]) + ([gs[0]] + c.G) == Reversed(gs) + c.G;
      assert Reversed(xs[1..]) + ([xs[0]] + c.X) == Reversed(xs) + c.X;
    }
  }
}
