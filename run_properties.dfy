/**
 * What a whole run of `bfgs1run` guarantees, proved one iteration at a
 * time over `RunFrom`: the inverse Hessian approximation `H` stays
 * symmetric positive semidefinite (so every full-memory direction
 * `-H g` the run takes is one of non-ascent), limited-memory mode
 * without rescaling never changes `H`, and each return code means what
 * its test says about the state the run returns; so does the time-limit
 * exception.
 */
module RunProperties {
  import opened Optional
  import opened Numerics
  import opened Termination
  import opened HessianUpdate
  import opened LimitedMemory
  import opened Bfgs1Run

  /** A supplied `H0` is symmetric positive semidefinite. */
  ghost predicate H0Sound(cfg: Config, n: nat)
    requires WellFormed(cfg, n)
  {
    cfg.H0.Some? ==> Symmetric(cfg.H0.value) && PosSemiDef(cfg.H0.value)
  }

  /**
   * What the run keeps of an `H`: an `n` by `n` symmetric positive
   * semidefinite matrix, and `H0` itself in limited-memory mode without
   * rescaling.
   */
  ghost predicate HessianSound(cfg: Config, n: nat, H: Matrix)
    requires WellFormed(cfg, n)
  {
    IsSquare(H, n) && Symmetric(H) && PosSemiDef(H) &&
    (cfg.nvec > 0 && !cfg.scale ==> H == H0Of(cfg, n))
  }

  /** `HessianSound` for the current `H` and for every recorded one. */
  ghost predicate HistorySound(cfg: Config, n: nat, st: State)
    requires WellFormed(cfg, n)
  {
    HessianSound(cfg, n, st.H) && forall k :: 0 <= k < |st.Hrec| ==> HessianSound(cfg, n, st.Hrec[k])
  }

  /** The default identity and any admissible supplied `H0` start the run soundly. */
  lemma {:induction false} H0OfSound(cfg: Config, n: nat)
    requires WellFormed(cfg, n) && H0Sound(cfg, n)
    ensures HessianSound(cfg, n, H0Of(cfg, n))
  {
    if cfg.H0.None? {
      IdentityPsd(n);
    }
  }

  /**
   * With a sound `H`, the full-memory direction `-H g` is never one of
   * ascent: `gᵗ(-H g) = -gᵗH g <= 0`. So the descent test can stop the
   * run with code 6 only when `gᵗH g = 0`.
   */
  lemma {:induction false} DirectionNonAscent(cfg: Config, o: Oracles, n: nat, st: State)
    requires WellFormed(cfg, n) && OraclesSound(o, n) && |st.g| == n && HessianSound(cfg, n, st.H)
    ensures cfg.nvec == 0 ==> Dot(st.g, Direction(cfg, o, n, st)) <= 0.0
  {
    if cfg.nvec == 0 {
      DotNeg(st.g, MatVec(st.H, st.g));
      assert Quad(st.H, st.g) >= 0.0;
    }
  }

  /** The move to the new iterate records the current `H` and keeps it. */
  lemma {:induction false} MovedKeepsHessian(cfg: Config, o: Oracles, n: nat, st: State, p: Vec, ls: LineSearchResult)
    requires WellFormed(cfg, n) && OraclesSound(o, n) && Shape(cfg, n, st) && LineSearchSound(ls, n)
    requires HistorySound(cfg, n, st)
    ensures HistorySound(cfg, n, Moved(cfg, o, n, st, p, ls))
  {
    var st1 := Moved(cfg, o, n, st, p, ls);
    assert st1.Hrec == st.Hrec + [st.H];
    forall k | 0 <= k < |st1.Hrec|
      ensures HessianSound(cfg, n, st1.Hrec[k])
    {
      if k < |st.Hrec| {
        assert st1.Hrec[k] == st.Hrec[k];
      }
    }
  }

  /**
   * The update keeps `H` sound: the curvature assertion guarantees
   * `sᵗy > 0` before either update, so the rank-two update and the
   * rescaling by `(sᵗy)(yᵗy)` both keep positive semidefiniteness.
   */
  lemma {:induction false} UpdatedKeepsHessian(cfg: Config, n: nat, st: State, st1: State, it: nat, s: Vec, y: Vec)
    requires WellFormed(cfg, n) && Inv(cfg, n, st, it) && Shape(cfg, n, st1) && |st1.xrec| == it + 1
    requires st1.H == st.H && st1.S == st.S && st1.Y == st.Y && |s| == n && |y| == n
    requires H0Sound(cfg, n) && HistorySound(cfg, n, st1)
    ensures HistorySound(cfg, n, Updated(cfg, n, st, st1, it, s, y).st)
  {
    var r := Updated(cfg, n, st, st1, it, s, y);
    if Dot(s, y) > 0.0 {
      assert r.st.Hrec == st1.Hrec;
      if cfg.nvec == 0 {
        var H1 := FullUpdate(st.H, s, y, it, cfg.scale);
        assert r.st.H == H1;
        assert HessianSound(cfg, n, H1) by {
          FullUpdatePreservesPsd(st.H, s, y, it, cfg.scale);
        }
      } else if cfg.scale {
        var H1 := LmScale(s, y, H0Of(cfg, n));
        assert r.st.H == H1;
        assert HessianSound(cfg, n, H1) by {
          H0OfSound(cfg, n);
          LmScaleKeepsSymPsd(s, y, H0Of(cfg, n));
        }
      } else {
        assert r.st.H == st.H;
      }
    }
  }

  /** One iteration keeps `H` and its record sound. */
  lemma {:induction false} StepKeepsHessian(cfg: Config, o: Oracles, n: nat, st: State, it: nat)
    requires WellFormed(cfg, n) && OraclesSound(o, n) && Inv(cfg, n, st, it)
    requires H0Sound(cfg, n) && HistorySound(cfg, n, st)
    ensures HistorySound(cfg, n, Step(cfg, o, n, st, it).st)
  {
    var r := Step(cfg, o, n, st, it);
    var p := Direction(cfg, o, n, st);
    if Dot(st.g, p) < 0.0 {
      var ls := o.lineSearch(st.x, p);
      var st1 := Moved(cfg, o, n, st, p, ls);
      MovedKeepsHessian(cfg, o, n, st, p, ls);
      var code := Check(Below(st1.f, cfg.fvalquit), NormExceeds(st1.x, cfg.xnormquit), ls.fail, cfg.quitLSfail,
                        NormWithin(st1.d, cfg.normtol), o.timeUp(it));
      if code == Some(4) {
        assert r == Fail(TimeLimitMessage(it), st1);
      } else if code.Some? {
        assert r == Stop(code.value, st1);
      } else {
        var s, y := Scale(ls.alpha, p), Sub(ls.g, st.g);
        assert r == Updated(cfg, n, st, st1, it, s, y);
        UpdatedKeepsHessian(cfg, n, st, st1, it, s, y);
      }
    } else {
      assert r == Stop(6, st);
    }
  }

  lemma {:induction false} RunFromKeepsHessian(cfg: Config, o: Oracles, n: nat, st: State, it: nat)
    requires WellFormed(cfg, n) && OraclesSound(o, n) && Inv(cfg, n, st, it) && it <= cfg.maxit
    requires H0Sound(cfg, n) && HistorySound(cfg, n, st)
    decreases cfg.maxit - it
    ensures var r := RunFrom(cfg, o, n, st, it); HistorySound(cfg, n, r.st)
  {
    if it < cfg.maxit {
      var r := Step(cfg, o, n, st, it);
      assert HistorySound(cfg, n, r.st) by {
        StepKeepsHessian(cfg, o, n, st, it);
      }
      if r.Next? {
        assert RunFrom(cfg, o, n, st, it) == RunFrom(cfg, o, n, r.st, it + 1) by {
          RunFromUnfolds(cfg, o, n, st, it);
        }
        RunFromKeepsHessian(cfg, o, n, r.st, it + 1);
      } else {
        assert RunFrom(cfg, o, n, st, it).st == r.st by {
          RunFromUnfolds(cfg, o, n, st, it);
        }
      }
    }
  }

  /**
   * Every `H` a run returns or records is symmetric positive
   * semidefinite, in both modes; with `nvec > 0` and `scale` off each of
   * them is `H0`.
   */
  lemma {:induction false} RunKeepsHessian(cfg: Config, o: Oracles, x0: Vec)
    requires WellFormed(cfg, |x0|) && OraclesSound(o, |x0|) && |o.grad(x0)| == |x0| && H0Sound(cfg, |x0|)
    ensures var r := Run(cfg, o, x0);
      (r.BadStart? ==> HessianSound(cfg, |x0|, r.H)) &&
      (!r.BadStart? ==> HistorySound(cfg, |x0|, r.st))
  {
    var n := |x0|;
    H0OfSound(cfg, n);
    if o.func(x0).Num? && AllFinite(o.grad(x0)) {
      var st := Initial(cfg, n, x0, o.func(x0).v, Values(o.grad(x0)));
      if cfg.maxit > 0 {
        RunEntersLoop(cfg, o, x0);
        RunFromKeepsHessian(cfg, o, n, st, 0);
      }
    }
  }

  /**
   * What a return code says about the state returned with it, following
   * the order of the tests: 2 the value reached `fvalquit`; 3 the norm of
   * `x` exceeded `xnormquit`; 0 the witness `d` is within `normtol`; 6 the
   * direction was not one of descent; 1 the last iteration finished.
   */
  predicate CodeMeans(cfg: Config, o: Oracles, n: nat, info: nat, iter: int, st: State)
    requires OraclesSound(o, n) && |st.g| == n && IsSquare(st.H, n)
  {
    (info == 2 ==> Below(st.f, cfg.fvalquit)) &&
    (info == 3 ==> !Below(st.f, cfg.fvalquit) && NormExceeds(st.x, cfg.xnormquit)) &&
    (info == 0 ==> !Below(st.f, cfg.fvalquit) && !NormExceeds(st.x, cfg.xnormquit) &&
                   NormWithin(st.d, cfg.normtol)) &&
    (info == 6 ==> Dot(st.g, Direction(cfg, o, n, st)) >= 0.0) &&
    (info == 1 ==> iter == cfg.maxit - 1)
  }

  /**
   * What the time-limit exception at iteration `at` says about the state
   * raised with it: the tests for codes 2, 3 and 0 failed and the clock
   * had run out.
   */
  predicate TimeLimitMeans(cfg: Config, o: Oracles, at: nat, st: State) {
    !Below(st.f, cfg.fvalquit) && !NormExceeds(st.x, cfg.xnormquit) &&
    !NormWithin(st.d, cfg.normtol) && o.timeUp(at)
  }

  lemma {:induction false} StepCodes(cfg: Config, o: Oracles, n: nat, st: State, it: nat)
    requires WellFormed(cfg, n) && OraclesSound(o, n) && Inv(cfg, n, st, it)
    ensures var r := Step(cfg, o, n, st, it);
      && (r.Stop? ==> CodeMeans(cfg, o, n, r.info, it, r.st))
      && (r.Fail? && r.fault.TimeLimitMessage? ==> TimeLimitMeans(cfg, o, it, r.st))
  {
    var p := Direction(cfg, o, n, st);
    if Dot(st.g, p) < 0.0 {
      var ls := o.lineSearch(st.x, p);
      var st1 := Moved(cfg, o, n, st, p, ls);
      CheckCodes(Below(st1.f, cfg.fvalquit), NormExceeds(st1.x, cfg.xnormquit), ls.fail, cfg.quitLSfail,
                 NormWithin(st1.d, cfg.normtol), o.timeUp(it));
    }
  }

  lemma {:induction false} RunFromCodes(cfg: Config, o: Oracles, n: nat, st: State, it: nat)
    requires WellFormed(cfg, n) && OraclesSound(o, n) && Inv(cfg, n, st, it) && it <= cfg.maxit
    decreases cfg.maxit - it
    ensures var r := RunFrom(cfg, o, n, st, it);
      && (r.Returned? ==> CodeMeans(cfg, o, n, r.info, r.iter, r.st))
      && (r.Failed? && r.fault.TimeLimitMessage? ==> TimeLimitMeans(cfg, o, r.fault.at, r.st))
  {
    if it < cfg.maxit {
      var r := Step(cfg, o, n, st, it);
      if r.Next? {
        assert RunFrom(cfg, o, n, st, it) == RunFrom(cfg, o, n, r.st, it + 1) by {
          RunFromUnfolds(cfg, o, n, st, it);
        }
        RunFromCodes(cfg, o, n, r.st, it + 1);
      } else {
        assert RunFrom(cfg, o, n, st, it) == if r.Stop? then Returned(r.info, it, r.st) else Failed(r.fault, r.st) by {
          RunFromUnfolds(cfg, o, n, st, it);
        }
        StepCodes(cfg, o, n, st, it);
      }
    }
  }

  /** Each return code of a run, and the time-limit exception, is justified by the state returned with it. */
  lemma {:induction false} RunCodes(cfg: Config, o: Oracles, x0: Vec)
    requires WellFormed(cfg, |x0|) && OraclesSound(o, |x0|) && |o.grad(x0)| == |x0|
    ensures var r := Run(cfg, o, x0);
      && (r.Returned? ==> CodeMeans(cfg, o, |x0|, r.info, r.iter, r.st))
      && (r.Failed? && r.fault.TimeLimitMessage? ==> TimeLimitMeans(cfg, o, r.fault.at, r.st))
  {
    if o.func(x0).Num? && AllFinite(o.grad(x0)) && cfg.maxit > 0 {
      RunEntersLoop(cfg, o, x0);
      RunFromCodes(cfg, o, |x0|, Initial(cfg, |x0|, x0, o.func(x0).v, Values(o.grad(x0))), 0);
    }
  }
}
