/**
 * One run of BFGS with an inexact line search from one starting point
 * (`bfgs1run`). The objective, its gradient, the line search, the QP
 * solver `qpspecial`, the limited-memory product `hgprod` and the clock
 * are oracles; everything else the run does is modelled.
 *
 * `Run` and `RunFrom` specify the run one iteration (`Step`) at a time;
 * the method `Bfgs1Run` is the loop itself, proved to return `Run`'s result.
 */
module Bfgs1Run {
  import opened Optional
  import opened Numerics
  import opened GradientCache
  import opened Optimality
  import opened Termination
  import opened HessianUpdate
  import opened LimitedMemory

  /** The keyword arguments that change what the run computes. */
  datatype Config = Config(
    maxit: int,
    nvec: nat,
    normtol: Float,
    fvalquit: Float,
    xnormquit: Float,
    quitLSfail: bool,
    ngrad: Option<int>,
    evaldist: Float,
    H0: Option<Matrix>,
    scale: bool)

  /**
   * `ngrad`, by default `min(100, 2n, n + 10)`: the smallest of the three
   * bounds, at least 1 for a non-empty `x0`.
   */
  function NgradOf(cfg: Config, n: nat): (r: int)
    ensures cfg.ngrad.Some? ==> r == cfg.ngrad.value
    ensures cfg.ngrad.None? ==> r <= 100 && r <= 2 * n && r <= n + 10
    ensures cfg.ngrad.None? ==> r == 100 || r == 2 * n || r == n + 10
    ensures cfg.ngrad.None? && n > 0 ==> r >= 1
  {
    match cfg.ngrad
    case None => MinInt(100, MinInt(2 * n, n + 10))
    case Some(k) => k
  }

  /** A supplied `H0` is an `n` by `n` matrix. */
  predicate WellFormed(cfg: Config, n: nat) {
    cfg.H0.Some? ==> IsSquare(cfg.H0.value, n)
  }

  /** `H0`, by default the identity. */
  function H0Of(cfg: Config, n: nat): (r: Matrix)
    requires WellFormed(cfg, n)
    ensures IsSquare(r, n)
  {
    match cfg.H0
    case None => Identity(n)
    case Some(M) => M
  }

  /** What the line search returns: step, new point, value, gradient, failure flag, values tried. */
  datatype LineSearchResult = LineSearchResult(alpha: real, x: Vec, f: real, g: Vec, fail: LsFail, trace: seq<real>)

  /** The code the run calls but that is not part of this model. */
  datatype Oracles = Oracles(
    func: Vec -> Float,
    grad: Vec -> seq<Float>,
    lineSearch: (Vec, Vec) -> LineSearchResult,
    qp: seq<Vec> -> (Vec, Vec),
    hgprod: (Matrix, Vec, seq<Vec>, seq<Vec>) -> Vec,
    timeUp: nat -> bool)

  predicate LineSearchSound(ls: LineSearchResult, n: nat) {
    ls.alpha >= 0.0 && |ls.x| == n && |ls.g| == n
  }

  /**
   * What the run relies on: the line search returns a step `alpha >= 0`
   * and `n`-vectors, `qpspecial` returns convex weights and their
   * combination, and `hgprod` returns an `n`-vector.
   */
  ghost predicate OraclesSound(o: Oracles, n: nat) {
    QpSound(o.qp, n) &&
    (forall x: Vec, p: Vec :: |x| == n && |p| == n ==> LineSearchSound(o.lineSearch(x, p), n)) &&
    (forall H: Matrix, g: Vec, S: seq<Vec>, Y: seq<Vec> :: |g| == n ==> |o.hgprod(H, g, S, Y)| == n)
  }

  /** The variables the loop reassigns, with the cache standing for `X`, `G` and `nG`. */
  datatype State = State(
    x: Vec,
    f: real,
    g: Vec,
    H: Matrix,
    cache: Cache,
    w: Vec,
    d: Vec,
    S: seq<Vec>,
    Y: seq<Vec>,
    xrec: seq<Vec>,
    fevalrec: seq<seq<real>>,
    Hrec: seq<Matrix>)

  /**
   * An exception the run raises: the `assert sty > 0` failing at iteration
   * `at`; the time-limit message at iteration `at`, whose `%` formatting
   * (two `%d` conversions, one argument) raises `TypeError` before
   * `info = 4` is set; or a read of the loop index that was never bound.
   */
  datatype Fault = CurvatureAssertion(at: nat) | TimeLimitMessage(at: nat) | IterationUnbound

  /**
   * How a run ends: the early return with code 5 (with `iter = 0`, `d = g`,
   * `X = [x0]`, `G = [g]`, `w = 1` and empty records), a return with a code
   * and the final iteration index, or an exception.
   */
  datatype RunResult =
    | BadStart(x: Vec, f: Float, g: seq<Float>, H: Matrix)
    | Returned(info: nat, iter: int, st: State)
    | Failed(fault: Fault, st: State)

  datatype StepResult = Stop(info: nat, st: State) | Fail(fault: Fault, st: State) | Next(st: State)

  /** The shapes and cache facts that hold at every return. */
  predicate Shape(cfg: Config, n: nat, st: State) {
    |st.x| == n && |st.g| == n && IsSquare(st.H, n) &&
    Valid(st.cache, NgradOf(cfg, n)) && Dimension(st.cache, n) &&
    st.cache.X[0] == st.x && st.cache.G[0] == st.g &&
    InHull(st.cache.G, n, st.w, st.d) &&
    |st.xrec| == |st.fevalrec| == |st.Hrec| &&
    (cfg.nvec == 0 ==> st.S == [] && st.Y == []) &&
    (cfg.nvec > 0 ==> |st.S| == |st.Y| <= cfg.nvec)
  }

  /** `Shape`, at the start of iteration `it`: one record per finished iteration. */
  predicate Inv(cfg: Config, n: nat, st: State, it: nat) {
    Shape(cfg, n, st) && |st.xrec| == it &&
    (cfg.nvec > 0 ==> |st.S| == MinInt(it, cfg.nvec))
  }

  /** The search direction `-H g`, or `-hgprod(H, g, S, Y)` in limited-memory mode. */
  function Direction(cfg: Config, o: Oracles, n: nat, st: State): (p: Vec)
    requires OraclesSound(o, n) && |st.g| == n && IsSquare(st.H, n)
    ensures |p| == n
  {
    if cfg.nvec == 0 then Neg(MatVec(st.H, st.g)) else Neg(o.hgprod(st.H, st.g, st.S, st.Y))
  }

  /**
   * After the line search from `st` along `p` returned `ls`: the new
   * iterate, the cache update (reset when `alpha ‖p‖ > evaldist`), the
   * witness and the records; `H` and the windows are not touched.
   */
  function Moved(cfg: Config, o: Oracles, n: nat, st: State, p: Vec, ls: LineSearchResult): (r: State)
    requires WellFormed(cfg, n) && OraclesSound(o, n) && Shape(cfg, n, st) && LineSearchSound(ls, n)
    ensures Shape(cfg, n, r) && |r.xrec| == |st.xrec| + 1
    ensures r.H == st.H && r.S == st.S && r.Y == st.Y && r.x == ls.x && r.g == ls.g
  {
    var far := StepExceeds(ls.alpha, p, cfg.evaldist);
    var cache := Update(st.cache, ls.x, ls.g, far, NgradOf(cfg, n));
    UpdateDimension(st.cache, ls.x, ls.g, far, NgradOf(cfg, n), n);
    WitnessInHull(cache, ls.g, NgradOf(cfg, n), n, o.qp);
    var wd := Witness(cache, ls.g, o.qp);
    st.(x := ls.x, f := ls.f, g := ls.g, cache := cache, w := wd.0, d := wd.1,
        xrec := st.xrec + [ls.x], fevalrec := st.fevalrec + [ls.trace], Hrec := st.Hrec + [st.H])
  }

  /**
   * The end of an iteration that passed the stopping tests, with step `s`
   * and gradient change `y`: the curvature assertion, then the rank-two
   * update of `H`, or the window pushes and the optional rescaling.
   */
  function Updated(cfg: Config, n: nat, st: State, st1: State, it: nat, s: Vec, y: Vec): (r: StepResult)
    requires WellFormed(cfg, n) && Inv(cfg, n, st, it) && Shape(cfg, n, st1) && |st1.xrec| == it + 1
    requires st1.H == st.H && st1.S == st.S && st1.Y == st.Y && |s| == n && |y| == n
    ensures r.Fail? <==> Dot(s, y) <= 0.0
    ensures r.Fail? ==> r == Fail(CurvatureAssertion(it), st1)
    ensures r.Next? ==> Inv(cfg, n, r.st, it + 1)
    ensures r.Next? && cfg.nvec == 0 ==> r.st == st1.(H := FullUpdate(st.H, s, y, it, cfg.scale))
    ensures r.Next? && cfg.nvec > 0 ==>
      r.st == st1.(S := WindowPush(st.S, s, it, cfg.nvec), Y := WindowPush(st.Y, y, it, cfg.nvec),
                   H := if cfg.scale then LmScale(s, y, H0Of(cfg, n)) else st.H)
    ensures !r.Stop?
  {
    if Dot(s, y) <= 0.0 then Fail(CurvatureAssertion(it), st1)
    else if cfg.nvec == 0 then Next(st1.(H := FullUpdate(st.H, s, y, it, cfg.scale)))
    else Next(st1.(S := WindowPush(st.S, s, it, cfg.nvec), Y := WindowPush(st.Y, y, it, cfg.nvec),
                   H := if cfg.scale then LmScale(s, y, H0Of(cfg, n)) else st.H))
  }

  /**
   * Iteration `it` of the main loop: the descent test, the line search,
   * `Moved`, the stopping tests and `Updated`.
   */
  function Step(cfg: Config, o: Oracles, n: nat, st: State, it: nat): (r: StepResult)
    requires WellFormed(cfg, n) && OraclesSound(o, n) && Inv(cfg, n, st, it)
    ensures r.Stop? && r.info == 6 ==> r.st == st
    ensures r.Stop? ==> r.info in {0, 2, 3, 6, 7, 8}
    ensures (r.Stop? && r.info != 6) || r.Fail? ==> r.st.H == st.H && r.st.S == st.S && r.st.Y == st.Y
    ensures (r.Stop? && r.info != 6) || r.Fail? ==> Shape(cfg, n, r.st) && |r.st.xrec| == it + 1
    ensures r.Fail? ==> !r.fault.IterationUnbound? && r.fault.at == it
    ensures r.Next? ==> Inv(cfg, n, r.st, it + 1)
  {
    var p := Direction(cfg, o, n, st);
    if Dot(st.g, p) >= 0.0 then Stop(6, st)
    else
      var ls := o.lineSearch(st.x, p);
      var st1 := Moved(cfg, o, n, st, p, ls);
      var code := Check(Below(st1.f, cfg.fvalquit), NormExceeds(st1.x, cfg.xnormquit), ls.fail, cfg.quitLSfail,
                        NormWithin(st1.d, cfg.normtol), o.timeUp(it));
      if code == Some(4) then Fail(TimeLimitMessage(it), st1)
      else if code.Some? then Stop(code.value, st1)
      else Updated(cfg, n, st, st1, it, Scale(ls.alpha, p), Sub(ls.g, st.g))
  }

  /**
   * The loop from iteration `it` on. After iteration `maxit - 1` the run
   * returns code 1 with `iter = maxit - 1`, the last value of the loop index.
   */
  function RunFrom(cfg: Config, o: Oracles, n: nat, st: State, it: nat): (r: RunResult)
    requires WellFormed(cfg, n) && OraclesSound(o, n) && Inv(cfg, n, st, it) && it <= cfg.maxit
    decreases cfg.maxit - it
    ensures !r.BadStart?
    ensures r.Returned? ==> r.info in {0, 1, 2, 3, 6, 7, 8} && Shape(cfg, n, r.st)
    ensures r.Returned? && r.info == 1 ==> r.iter == cfg.maxit - 1 && |r.st.xrec| == cfg.maxit
    ensures r.Returned? && r.info != 1 ==> it <= r.iter < cfg.maxit
    ensures r.Returned? && r.info == 6 ==> |r.st.xrec| == r.iter
    ensures r.Returned? && r.info != 1 && r.info != 6 ==> |r.st.xrec| == r.iter + 1
    ensures r.Failed? ==> !r.fault.IterationUnbound? && it <= r.fault.at < cfg.maxit
    ensures r.Failed? ==> Shape(cfg, n, r.st) && |r.st.xrec| == r.fault.at + 1
  {
    if it == cfg.maxit then Returned(1, it - 1, st)
    else
      match Step(cfg, o, n, st, it)
      case Stop(info, st1) => Returned(info, it, st1)
      case Fail(fault, st1) => Failed(fault, st1)
      case Next(st1) => RunFrom(cfg, o, n, st1, it + 1)
  }

  /**
   * The state after the start-up code, before the first iteration: `H0`,
   * the cache of the one pair `(x0, g0)`, `w = 1` and `d = g0`, which is
   * the combination of that cache, and empty records. It meets the loop
   * invariant at `it = 0`.
   */
  function Initial(cfg: Config, n: nat, x0: Vec, f0: real, g0: Vec): (r: State)
    requires WellFormed(cfg, n) && |x0| == n && |g0| == n
    ensures Inv(cfg, n, r, 0)
    ensures r.x == x0 && r.f == f0 && r.g == g0 && r.H == H0Of(cfg, n) && r.d == g0
    ensures r.xrec == [] && r.fevalrec == [] && r.Hrec == []
  {
    CombineSingle(g0);
    State(x0, f0, g0, H0Of(cfg, n), Start(x0, g0), [1.0], g0, [], [], [], [], [])
  }

  /**
   * The whole run. A non-finite value or gradient at `x0` returns code 5
   * at once; a finite start with `maxit <= 0` never binds the loop index
   * that the final return reads.
   */
  function Run(cfg: Config, o: Oracles, x0: Vec): (r: RunResult)
    requires WellFormed(cfg, |x0|) && OraclesSound(o, |x0|) && |o.grad(x0)| == |x0|
    ensures r.BadStart? <==> !(o.func(x0).Num? && AllFinite(o.grad(x0)))
    ensures r.BadStart? ==> r.x == x0 && r.f == o.func(x0) && r.g == o.grad(x0) && r.H == H0Of(cfg, |x0|)
    ensures (r.Failed? && r.fault == IterationUnbound) <==> !r.BadStart? && cfg.maxit <= 0
    ensures r.Returned? ==> r.info in {0, 1, 2, 3, 6, 7, 8} && 0 <= r.iter < cfg.maxit
    ensures r.Returned? || r.Failed? ==> Shape(cfg, |x0|, r.st)
  {
    var n := |x0|;
    var f0, g0 := o.func(x0), o.grad(x0);
    if !(f0.Num? && AllFinite(g0)) then BadStart(x0, f0, g0, H0Of(cfg, n))
    else
      var st := Initial(cfg, n, x0, f0.v, Values(g0));
      WitnessInHull(st.cache, st.g, NgradOf(cfg, n), n, o.qp);
      if cfg.maxit <= 0 then Failed(IterationUnbound, st)
      else RunFrom(cfg, o, n, st, 0)
  }

  /** With a finite start and `maxit > 0`, the run is the loop from the initial state. */
  lemma {:induction false} RunEntersLoop(cfg: Config, o: Oracles, x0: Vec)
    requires WellFormed(cfg, |x0|) && OraclesSound(o, |x0|) && |o.grad(x0)| == |x0|
    requires o.func(x0).Num? && AllFinite(o.grad(x0)) && cfg.maxit > 0
    ensures Inv(cfg, |x0|, Initial(cfg, |x0|, x0, o.func(x0).v, Values(o.grad(x0))), 0)
    ensures Run(cfg, o, x0) == RunFrom(cfg, o, |x0|, Initial(cfg, |x0|, x0, o.func(x0).v, Values(o.grad(x0))), 0)
  {
    var st := Initial(cfg, |x0|, x0, o.func(x0).v, Values(o.grad(x0)));
    WitnessInHull(st.cache, st.g, NgradOf(cfg, |x0|), |x0|, o.qp);
  }

  /** One iteration of the loop: a return with the step's code, an exception, or the loop from `it + 1`. */
  lemma {:induction false} RunFromUnfolds(cfg: Config, o: Oracles, n: nat, st: State, it: nat)
    requires WellFormed(cfg, n) && OraclesSound(o, n) && Inv(cfg, n, st, it) && it < cfg.maxit
    ensures var r := Step(cfg, o, n, st, it);
      RunFrom(cfg, o, n, st, it) ==
        match r
        case Stop(info, st1) => Returned(info, it, st1)
        case Fail(fault, st1) => Failed(fault, st1)
        case Next(st1) => RunFrom(cfg, o, n, st1, it + 1)
  {
  }

  /**
   * The time test as written: an iteration raises the time-limit message
   * exactly when its direction is one of descent, the clock has run out
   * and every earlier test fails, which is where `Check` gives code 4.
   */
  lemma {:induction false} TimeLimitRaises(cfg: Config, o: Oracles, n: nat, st: State, it: nat)
    requires WellFormed(cfg, n) && OraclesSound(o, n) && Inv(cfg, n, st, it)
    ensures var p := Direction(cfg, o, n, st);
      var r := Step(cfg, o, n, st, it);
      (r.Fail? && r.fault == TimeLimitMessage(it)) <==>
        (Dot(st.g, p) < 0.0 &&
         var ls := o.lineSearch(st.x, p);
         var st1 := Moved(cfg, o, n, st, p, ls);
         Check(Below(st1.f, cfg.fvalquit), NormExceeds(st1.x, cfg.xnormquit), ls.fail, cfg.quitLSfail,
               NormWithin(st1.d, cfg.normtol), o.timeUp(it)) == Some(4))
  {
  }

  /** The descent test: an iteration returns code 6 with the state from before it exactly when `gᵗp >= 0`. */
  lemma {:induction false} StepDescentTest(cfg: Config, o: Oracles, n: nat, st: State, it: nat)
    requires WellFormed(cfg, n) && OraclesSound(o, n) && Inv(cfg, n, st, it)
    ensures Step(cfg, o, n, st, it) == Stop(6, st) <==> Dot(st.g, Direction(cfg, o, n, st)) >= 0.0
  {
  }

  /**
   * The outcomes of an iteration that took a descent step, each exactly
   * when its test says so: a return with code `c` other than 4 when the
   * stopping chain gives `c`, and the curvature assertion when the chain
   * lets the run go on and `sᵗy <= 0`.
   */
  lemma {:induction false} StepOutcomes(cfg: Config, o: Oracles, n: nat, st: State, it: nat, c: nat)
    requires WellFormed(cfg, n) && OraclesSound(o, n) && Inv(cfg, n, st, it) && c != 4 && c != 6
    ensures var p := Direction(cfg, o, n, st);
      var r := Step(cfg, o, n, st, it);
      var ls := o.lineSearch(st.x, p);
      var st1 := Moved(cfg, o, n, st, p, ls);
      var code := Check(Below(st1.f, cfg.fvalquit), NormExceeds(st1.x, cfg.xnormquit), ls.fail, cfg.quitLSfail,
                        NormWithin(st1.d, cfg.normtol), o.timeUp(it));
      && (r == Stop(c, st1) <==> Dot(st.g, p) < 0.0 && code == Some(c))
      && (r == Fail(CurvatureAssertion(it), st1) <==>
            Dot(st.g, p) < 0.0 && code.None? && Dot(Scale(ls.alpha, p), Sub(ls.g, st.g)) <= 0.0)
  {
  }

  /**
   * The cache update as the loop body performs it: three branches that
   * reassign the columns `X`, `G` and their count `nG` one by one. It is
   * the statement form of `GradientCache.Update`, which `Step` and the
   * cache lemmas use, and it is proved to compute it.
   */
  method SaveGradient(X: seq<Vec>, G: seq<Vec>, nG: int, x: Vec, g: Vec, far: bool, ngrad: int)
      returns (X': seq<Vec>, G': seq<Vec>, nG': int)
    ensures Cache(X', G', nG') == Update(Cache(X, G, nG), x, g, far, ngrad)
  {
    X', G', nG' := X, G, nG;
    if far {
      nG' := 1;
      G' := [g];
      X' := [x];
    } else if nG' < ngrad {
      nG' := nG' + 1;
      G' := [g] + G';
      X' := [x] + X';
    } else {
      G' := [g] + PyPrefix(G', ngrad - 1);
      X' := [x] + PyPrefix(X', ngrad - 1);
    }
  }

  /**
   * The witness as the loop body assigns it: from the QP when more than
   * one gradient is saved, else `w = 1`, `d = g`. The statement form of
   * `Optimality.Witness`, proved to compute it.
   */
  method ChooseWitness(c: Cache, g: Vec, qp: seq<Vec> -> (Vec, Vec)) returns (w: Vec, d: Vec)
    ensures (w, d) == Witness(c, g, qp)
  {
    if c.nG > 1 {
      var wd := qp(c.G);
      w, d := wd.0, wd.1;
    } else {
      w := [1.0];
      d := g;
    }
  }

  /**
   * The stopping tests after the line search, in the source's if/elif
   * layout, with code 4 where the docstring documents it; `Iteration`
   * turns that code into the time-limit exception.
   */
  method StoppingCode(belowTarget: bool, normTooLarge: bool, fail: LsFail, quitLSfail: bool,
                      optimal: bool, timeUp: bool) returns (code: Option<nat>)
    ensures code == Check(belowTarget, normTooLarge, fail, quitLSfail, optimal, timeUp)
  {
    code := None;
    if belowTarget {
      return Some(2);
    } else if normTooLarge {
      return Some(3);
    }
    if fail == Bracketed {
      if quitLSfail {
        return Some(7);
      }
    } else if fail == Unbounded {
      return Some(8);
    }
    if optimal {
      return Some(0);
    }
    if timeUp {
      return Some(4);
    }
  }

  /**
   * One push onto a limited-memory window of columns, as the loop body
   * reassigns `S` and `Y`. The statement form of
   * `LimitedMemory.WindowPush`, whose FIFO property is proved there.
   */
  method SaveColumn(W: seq<Vec>, v: Vec, it: nat, nvec: nat) returns (W': seq<Vec>)
    requires nvec >= 1
    ensures W' == WindowPush(W, v, it, nvec)
  {
    if it + 1 <= nvec {
      W' := W + [v];
    } else {
      W' := Slice(W, 1, nvec) + [v];
    }
  }

  /**
   * The body of the main loop at iteration `it`, statement by statement:
   * it reassigns the iterate, the cache columns and their count, the
   * witness, `H` and the windows, appends to the records, and says whether
   * the run returns, raises or goes on.
   */
  method Iteration(cfg: Config, o: Oracles, n: nat, st: State, it: nat) returns (r: StepResult)
    requires WellFormed(cfg, n) && OraclesSound(o, n) && Inv(cfg, n, st, it)
    ensures r == Step(cfg, o, n, st, it)
  {
    var x, f, g, H, X, G, nG := st.x, st.f, st.g, st.H, st.cache.X, st.cache.G, st.cache.nG;
    var w, d, S, Y, xrec, fevalrec, Hrec := st.w, st.d, st.S, st.Y, st.xrec, st.fevalrec, st.Hrec;
    var p := if cfg.nvec == 0 then Neg(MatVec(H, g)) else Neg(o.hgprod(H, g, S, Y));
    var gtp := Dot(g, p);
    if gtp >= 0.0 {
      return Stop(6, st);
    }
    var gprev := g;
    var ls := o.lineSearch(x, p);
    var alpha, fail, fevalrecline := ls.alpha, ls.fail, ls.trace;
    x, f, g := ls.x, ls.f, ls.g;
    X, G, nG := SaveGradient(X, G, nG, x, g, StepExceeds(alpha, p, cfg.evaldist), NgradOf(cfg, n));
    w, d := ChooseWitness(Cache(X, G, nG), g, o.qp);
    xrec := xrec + [x];
    fevalrec := fevalrec + [fevalrecline];
    Hrec := Hrec + [H];
    var st1 := State(x, f, g, H, Cache(X, G, nG), w, d, S, Y, xrec, fevalrec, Hrec);
    assert st1 == Moved(cfg, o, n, st, p, ls);
    var code := StoppingCode(Below(f, cfg.fvalquit), NormExceeds(x, cfg.xnormquit), fail, cfg.quitLSfail,
                             NormWithin(d, cfg.normtol), o.timeUp(it));
    if code == Some(4) {
      return Fail(TimeLimitMessage(it), st1);
    } else if code.Some? {
      return Stop(code.value, st1);
    }
    var s := Scale(alpha, p);
    var y := Sub(g, gprev);
    if Dot(s, y) <= 0.0 {
      return Fail(CurvatureAssertion(it), st1);
    }
    if cfg.nvec == 0 {
      H := FullUpdate(H, s, y, it, cfg.scale);
    } else {
      S := SaveColumn(S, s, it, cfg.nvec);
      Y := SaveColumn(Y, y, it, cfg.nvec);
      if cfg.scale {
        H := LmScale(s, y, H0Of(cfg, n));
      }
    }
    return Next(st1.(H := H, S := S, Y := Y));
  }

  /**
   * The run as the source performs it: the start-up code, then the loop
   * over `it` with its early returns, and code 1 after the last iteration.
   */
  method Bfgs1Run(cfg: Config, o: Oracles, x0: Vec) returns (r: RunResult)
    requires WellFormed(cfg, |x0|) && OraclesSound(o, |x0|) && |o.grad(x0)| == |x0|
    ensures r == Run(cfg, o, x0)
  {
    var n := |x0|;
    var H0 := H0Of(cfg, n);
    var f0, g0 := o.func(x0), o.grad(x0);
    if !(f0.Num? && AllFinite(g0)) {
      return BadStart(x0, f0, g0, H0);
    }
    var st := Initial(cfg, n, x0, f0.v, Values(g0));
    if cfg.maxit <= 0 {
      return Failed(IterationUnbound, st);
    }
    RunEntersLoop(cfg, o, x0);
    var it := 0;
    while it < cfg.maxit
      invariant 0 <= it <= cfg.maxit
      invariant Inv(cfg, n, st, it)
      invariant RunFrom(cfg, o, n, st, it) == Run(cfg, o, x0)
      decreases cfg.maxit - it
    {
      var step := Iteration(cfg, o, n, st, it);
      RunFromUnfolds(cfg, o, n, st, it);
      match step
      case Stop(info, st1) =>
        return Returned(info, it, st1);
      case Fail(fault, st1) =>
        return Failed(fault, st1);
      case Next(st1) =>
        st, it := st1, it + 1;
    }
    return Returned(1, it - 1, st);
  }
}
