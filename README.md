# bfgs1run in Dafny

This project models `bfgs1run`, the single-start driver of HANSO (Hybrid
Algorithm for Non-Smooth Optimization) in its Python port. The driver runs
BFGS with an inexact line search from one starting point `x0`. Each
iteration:

1. tests that `p = -H g` is a descent direction;
2. runs the line search along `p`;
3. saves the new gradient in a bounded cache of recent gradients;
4. takes the shortest vector `d` in the convex hull of the cached
   gradients as the optimality witness;
5. runs a prioritised chain of stopping tests;
6. updates the inverse Hessian approximation `H`. With `nvec == 0` this is
   the symmetrised rank-two BFGS update. With `nvec > 0` it keeps windows
   of the last `nvec` steps `s` and gradient changes `y` instead.

Arithmetic is exact (`real`). Vectors are `seq<real>` and matrices are
sequences of rows. `func`, `grad`, the line search, `qpspecial`, `hgprod`
and the clock are oracles: function-valued fields of `Bfgs1Run.Oracles`.
The run relies on what `OraclesSound` states about them:

- the line search returns a step `alpha >= 0` and `n`-vectors;
- `qpspecial` returns convex weights `w` and `d = G w`;
- `hgprod` returns an `n`-vector.

Values that may be NaN or infinite are of type `Numerics.Float`: the
objective and gradient at `x0`, the thresholds `fvalquit`, `xnormquit` and
`normtol` (the first two default to infinities), and `evaldist`, which
never resets the gradient cache when it is `+inf` or NaN.

Modules, one file each:

- `Numerics` (`numerics.dfy`): the `Float` values; vector and matrix
  algebra; norm comparisons, made on squares; positive semidefiniteness.
- `GradientCache` (`gradient_cache.dfy`): the saved points `X`, gradients
  `G` and their count `nG`, newest first.
- `Optimality` (`optimality.dfy`): the witness `(w, d)` and the contract of
  `qpspecial`.
- `Termination` (`termination.dfy`): the chain of stopping tests, and a
  reference definition "the first rule that holds".
- `HessianUpdate` (`hessian_update.dfy`): the full-memory update. It has
  three properties: symmetry, the secant equation `H' y = s`, and
  preservation of positive semidefiniteness.
- `LimitedMemory` (`limited_memory.dfy`): the `S`/`Y` windows and the
  rescaling `H = (sᵗy)(yᵗy) H0`.
- `Bfgs1Run` (`bfgs1run.dfy`):
  - `Step`, `RunFrom` and `Run` specify the run one iteration at a time;
  - the method `Bfgs1Run` is the loop itself. It reassigns the source's
    variables and appends to its records, and it is proved to return
    exactly `Run`'s result;
  - the method `Iteration` is one pass of the loop body.
- `RunProperties` (`run_properties.dfy`): what a whole run guarantees. `H`
  stays symmetric positive semidefinite, so the eigenvalue assertion of
  line 146 holds in exact arithmetic. Limited-memory mode without `scale`
  never changes `H`. Each return code is justified by the state returned
  with it.

How a run ends (`Bfgs1Run.RunResult`):

- `BadStart`: code 5 with `iter = 0`. It carries `x0`, `f`, `g` and `H0`;
  the rest of the tuple is then fixed: `d = g`, `X = [x0]`, `G = [g]`,
  `w = 1`, empty records.
- `Returned(info, iter, state)`: any other code.
- `Failed`: the source raises an exception.
  - `CurvatureAssertion(it)`: `assert sty > 0` fails at iteration `it`
    (line 291). That assertion runs before the update, so the "skip the
    update" branch at lines 322-324 cannot be reached while assertions are
    enabled (the default), and the model has no such branch.
  - `TimeLimitMessage(it)`: the clock has run out at iteration `it` and
    every earlier test failed. The message at lines 284-285 joins two
    literals into one format with two `%d` conversions but passes the
    single value `it + 1`. The `%` runs before `_log` is called, so the
    run raises `TypeError` before `info = 4` at line 286. The model follows
    the code; see "## Findings".
  - `IterationUnbound`: a finite start with `maxit <= 0`. The loop never
    binds `it`, and the final `return` at line 344 fails.

The limited-memory rescaling at line 337 multiplies `sᵗy` and `yᵗy`. It
does not divide as the full-memory scale at line 297 does. The model keeps
the multiplication.

## Model

| member | source | states |
|---|---|---|
| Numerics.NormComparisonExact | bfgs1run.py:247-271 | comparing `vᵗv` with `b²` decides `‖v‖ > b` and `‖v‖ <= b` exactly, for a negative `b` too |
| Numerics.StepComparisonExact | bfgs1run.py:199 | for `alpha >= 0`, the squared test decides `alpha ‖p‖ > evaldist` exactly |
| Numerics.Below | bfgs1run.py:241 | `f < fvalquit` against a double: never true for NaN or `-inf`, always for `+inf`, and `f < b` for a number `b` |
| Numerics.NormExceeds | bfgs1run.py:247 | `‖x‖ > xnormquit` is never true for `+inf` or NaN, and otherwise is exactly the negation of `‖x‖ <= xnormquit` |
| Numerics.NormWithin | bfgs1run.py:271 | `‖d‖ <= normtol` is never true for NaN, `-inf` or a negative number, and always true for `+inf` or a zero `d` |
| Numerics.StepExceeds | bfgs1run.py:199 | `alpha ‖p‖ > evaldist` is never true for `+inf` or NaN, so the cache is never reset, and always true for `-inf` or a negative number |
| Numerics.IdentityPsd | bfgs1run.py:117 | the default `H0 = I` is positive semidefinite |
| GradientCache.Start | bfgs1run.py:126-133 | the initial cache holds the one pair `(x0, g0)` with `nG = 1`, and is valid for every `ngrad` |
| GradientCache.PyPrefix | bfgs1run.py:211-212 | Python's `s[:k]`, with a negative `k` counting from the end, is a prefix of `s` |
| GradientCache.Update | bfgs1run.py:199-212 | keeps `X` and `G` at `nG` columns with `1 <= nG <= max(1, ngrad)`; the new pair is at position 0; a long step leaves `nG = 1` |
| GradientCache.UpdateFar | bfgs1run.py:199-202 | a long step replaces the cache by the single new pair |
| GradientCache.UpdateNear | bfgs1run.py:206-212 | a short step keeps the newest `max(1, ngrad)` pairs, newest first, earlier ones in their old order; `nG` grows by one until the cache is full |
| GradientCache.UpdateDimension | bfgs1run.py:199-212 | every saved point and gradient stays an `n`-vector |
| GradientCache.PushAllKeepsNewest | bfgs1run.py:203-212 | after any sequence of short steps the cache holds exactly the newest `max(1, ngrad)` gradients and points, newest first |
| Optimality.Witness | bfgs1run.py:218-226 | with `nG <= 1` the witness is `w = [1]`, `d = g` |
| Optimality.WitnessInHull | bfgs1run.py:213-228 | in both branches `w` is a vector of convex weights over the cached gradients and `d = G w` |
| Termination.Check | bfgs1run.py:241-287 | a stopping test returns one of the codes 0, 2, 3, 4, 7 and 8, with code 4 for the time limit as the docstring documents it (see "## Findings") |
| Termination.CheckIsFirstHolding | bfgs1run.py:241-287 | the code is that of the first test that holds, in the order 2, 3, 7, 8, 0, 4 |
| Termination.CheckCodes | bfgs1run.py:241-287 | each code, and carrying on, holds exactly when its test holds and every earlier one fails |
| Termination.BracketedIgnored | bfgs1run.py:254-257 | with `quitLSfail` off, a bracketed failure gives the same outcome as a successful line search |
| HessianUpdate.Rho | bfgs1run.py:303 | `rho = 1/sᵗy` is positive and `rho sᵗy = 1` |
| HessianUpdate.SsFactor | bfgs1run.py:311-313 | the `s sᵗ` coefficient `max(rho² yᵗHy + rho, 0)` is never negative |
| HessianUpdate.ClampInactive | bfgs1run.py:311-313 | the clamp leaves `rho² yᵗHy + rho` unchanged exactly when `yᵗHy + sᵗy >= 0` |
| HessianUpdate.ClampOffWhenCurved | bfgs1run.py:311-313 | with `yᵗHy >= 0` the clamp is inactive |
| HessianUpdate.BfgsUpdate | bfgs1run.py:303-315 | the update keeps `H` `n` by `n`; `BfgsSymmetric`, `BfgsSecant` and `BfgsPreservesPsd` state what it computes |
| HessianUpdate.RankTwo | bfgs1run.py:315 | the update of an `n` by `n` matrix is `n` by `n` |
| HessianUpdate.RankTwoSymmetric | bfgs1run.py:306-315 | the explicitly symmetrised form is symmetric exactly when `H` is |
| HessianUpdate.BfgsSymmetric | bfgs1run.py:303-315 | the BFGS update is symmetric exactly when `H` is |
| HessianUpdate.RankTwoSecant | bfgs1run.py:298-302 | with `c = rho² yᵗHy + rho`, the rank-two form maps `y` to `s` |
| HessianUpdate.BfgsSecant | bfgs1run.py:298-315 | when the clamp is inactive, the updated matrix satisfies the secant equation `H' y = s` |
| HessianUpdate.BfgsPreservesPsd | bfgs1run.py:303-315 | a symmetric positive semidefinite `H` stays so, and then `H' y = s` |
| HessianUpdate.FirstScaled | bfgs1run.py:294-297 | the scale changes `H` only at iteration 0 with `scale` set |
| HessianUpdate.ScaleFactorPositive | bfgs1run.py:294-297 | `sᵗy > 0` forces `yᵗy > 0`, so the factor `sᵗy / yᵗy` is positive |
| HessianUpdate.FullUpdate | bfgs1run.py:292-315 | a full-memory step keeps `H` `n` by `n` |
| HessianUpdate.FullUpdatePreservesPsd | bfgs1run.py:292-315 | a full-memory step, first scaling included, keeps `H` symmetric positive semidefinite and satisfies `H' y = s` |
| LimitedMemory.Slice | bfgs1run.py:333-334 | Python's `s[lo:hi]`: clamped length, entries `s[lo + k]` |
| LimitedMemory.WindowPush | bfgs1run.py:328-334 | the pushed vector is last; a window of `min(it, nvec)` columns becomes one of `min(it + 1, nvec)` |
| LimitedMemory.WindowPushLatest | bfgs1run.py:328-334 | pushing onto the latest `nvec` vectors gives the latest `nvec` with the new one added |
| LimitedMemory.WindowIsLatest | bfgs1run.py:325-334 | after any number of pushes the window holds exactly the newest `nvec` vectors, oldest first |
| LimitedMemory.FlatPush | bfgs1run.py:329-334 | `np.hstack` with a 1-D vector appends that vector's entries at the end |
| LimitedMemory.FlatPushWhileFilling | bfgs1run.py:328-330 | while `it + 1 <= nvec`, the flat array holds exactly the window's entries |
| LimitedMemory.FlatPushDropsEntries | bfgs1run.py:333-334 | once full, the flat array loses single entries, not columns (Findings) |
| LimitedMemory.LmScale | bfgs1run.py:337 | the rescaled `H` has the shape of `H0`, and each entry is `H0`'s times the product `(sᵗy)(yᵗy)` |
| LimitedMemory.LmScaleKeepsSymPsd | bfgs1run.py:335-337 | the factor `(sᵗy)(yᵗy)` is positive, so `(sᵗy)(yᵗy) H0` is symmetric positive semidefinite whenever `H0` is |
| Bfgs1Run.NgradOf | bfgs1run.py:118 | a supplied `ngrad` is kept; the default is the smallest of `100`, `2n` and `n + 10`, at least 1 for `n > 0` |
| Bfgs1Run.H0Of | bfgs1run.py:117 | `H0` defaults to the `n` by `n` identity; a supplied one is `n` by `n` |
| Bfgs1Run.Direction | bfgs1run.py:147 | the direction `-H g` or `-hgprod(H, g, S, Y)` is an `n`-vector |
| Bfgs1Run.Moved | bfgs1run.py:191-233 | after the line search, the cache update and the witness, the state is well formed. It has one more record and unchanged `H`, `S` and `Y`. It holds the line search's `x` and `g` |
| Bfgs1Run.Updated | bfgs1run.py:288-337 | the run raises at this iteration exactly when `sᵗy <= 0`. Otherwise full-memory mode replaces `H` by the full update, and limited-memory mode pushes `s` and `y` onto the windows and rescales `H` only when `scale` is set; nothing else changes, and the next iteration's invariant holds. It never returns a code |
| Bfgs1Run.Step | bfgs1run.py:146-337 | code 6 returns the state from before the iteration. Every other return and the assertion keep `H`, `S` and `Y` and add one record. Codes are in {0, 2, 3, 6, 7, 8}; the exceptions are the curvature assertion and the time-limit message at this iteration. Carrying on re-establishes the loop invariant |
| Bfgs1Run.RunFrom | bfgs1run.py:145-344 | code 1 has `iter = maxit - 1` and `maxit` records. Other codes have `it <= iter < maxit`, and `iter` records for code 6, `iter + 1` for the rest. An exception (curvature assertion or time-limit message) happens at an iteration in range; code 4 is never returned |
| Bfgs1Run.Run | bfgs1run.py:115-344 | code 5 exactly when `f` or `g` at `x0` is not finite, returning `x0`, `f`, `g` and `H0`. `IterationUnbound` exactly when the start is finite and `maxit <= 0`. Otherwise the codes are in {0, 1, 2, 3, 6, 7, 8} with `0 <= iter < maxit`, and the returned state is well formed |
| Bfgs1Run.Initial | bfgs1run.py:117-133 | the start-up state holds `x0`, `f0`, `g0`, `H0`, `d = g0` and empty records, and meets the loop invariant at `it = 0` |
| Bfgs1Run.RunEntersLoop | bfgs1run.py:115-145 | after the start-up code the loop invariant holds at `it = 0`, and the run is the loop from there |
| Bfgs1Run.TimeLimitRaises | bfgs1run.py:283-287 | an iteration raises the time-limit message exactly when it reaches the time test and the clock has run out, which is where the stopping chain gives code 4 (Findings) |
| Bfgs1Run.StepDescentTest | bfgs1run.py:147-155 | the iteration returns code 6 with the state from before it exactly when `gᵗp >= 0` |
| Bfgs1Run.StepOutcomes | bfgs1run.py:147-291 | after a descent step, the iteration returns code `c` (not 4 or 6) exactly when the stopping chain gives `c`. It raises the curvature assertion exactly when the chain lets the run go on and `sᵗy <= 0` |
| Bfgs1Run.SaveGradient | bfgs1run.py:199-212 | the three-branch reassignment of `X`, `G` and `nG` computes `GradientCache.Update` |
| Bfgs1Run.ChooseWitness | bfgs1run.py:218-226 | the two-branch assignment of `w` and `d` computes `Optimality.Witness` |
| Bfgs1Run.StoppingCode | bfgs1run.py:241-283 | the nested `if`/`elif` tests compute `Termination.Check`, whose code 4 `Iteration` turns into the time-limit exception |
| Bfgs1Run.SaveColumn | bfgs1run.py:328-334 | the window reassignment computes `LimitedMemory.WindowPush` |
| Bfgs1Run.Iteration | bfgs1run.py:146-337 | one pass of the loop body, statement by statement, returns `Step`'s outcome, the time-limit exception included |
| Bfgs1Run.Bfgs1Run | bfgs1run.py:115-344 | the loop, with its early returns and the final code 1, returns exactly `Run`'s result |
| RunProperties.H0OfSound | bfgs1run.py:117 | the default identity, or a supplied symmetric positive semidefinite `H0`, starts the run soundly |
| RunProperties.DirectionNonAscent | bfgs1run.py:146-149 | with a symmetric positive semidefinite `H`, the full-memory direction `-H g` has `gᵗp <= 0`. So code 6 is returned only when `gᵗH g = 0` |
| RunProperties.MovedKeepsHessian | bfgs1run.py:233 | recording `H` keeps every recorded matrix sound |
| RunProperties.UpdatedKeepsHessian | bfgs1run.py:288-337 | both updates keep `H` symmetric positive semidefinite; without `scale`, limited-memory mode leaves `H = H0` |
| RunProperties.StepKeepsHessian | bfgs1run.py:146-337 | one iteration keeps `H` and every recorded `H` symmetric positive semidefinite |
| RunProperties.RunFromKeepsHessian | bfgs1run.py:145-337 | the same for the rest of the loop |
| RunProperties.RunKeepsHessian | bfgs1run.py:146 | with a symmetric positive semidefinite `H0`, every `H` a run holds or records is symmetric positive semidefinite (so the eigenvalue assertion holds), and equal to `H0` in limited-memory mode without `scale` |
| RunProperties.StepCodes | bfgs1run.py:147-287 | a code returned by an iteration is justified by the returned state (see `CodeMeans`); the time-limit exception comes with failed tests 2, 3 and 0 and an expired clock |
| RunProperties.RunFromCodes | bfgs1run.py:145-344 | the same for the rest of the loop, code 1 and the iteration of the time-limit exception included |
| RunProperties.RunCodes | bfgs1run.py:79-89 | each code a run returns means what the docstring says: 2 the value is below `fvalquit`; 3 `‖x‖` exceeds `xnormquit`; 0 `‖d‖ <= normtol`; 6 `gᵗp >= 0`; 1 the last iteration finished. The time-limit exception is raised with the clock run out at its iteration |

## Left out

- Line searches: `linesch_ww`/`linesch_sw` are one oracle `lineSearch(x, p)`. Its parameters `wolfe1`, `wolfe2` and `strongwolfe` are folded into it. So are the forward nudge for `wolfe2 == 0` (lines 182-188) and the `ImportError` path (lines 164-169). Their code is not part of this model.
- `qpspecial` and `hgprod` are oracles, as are `func` and `grad` with their keyword arguments. Their code is not part of this model.
- Running with assertions disabled (`python -O`) is not modelled. The asserts at lines 146 and 291 are then skipped. With `sty <= 0`, full-memory mode then skips the update (lines 322-324), and limited-memory mode still pushes `s` and `y` and, when `scale` is set, rescales `H` by a factor `(sᵗy)(yᵗy)` that is not positive. The model raises `CurvatureAssertion` in both modes.
- The eigenvalue assertion at line 146 is not evaluated. `RunProperties.RunKeepsHessian` proves instead that it cannot fail when `H0` is symmetric positive semidefinite. With any other `H0` the source may raise at iteration 0, and the model does not.
- Floating point: rounding, overflow and `sqrt` are left out. Norms are compared through their squares, which `Numerics.NormComparisonExact` shows is exact. Line-search outputs are finite reals, so `gᵗp` is never NaN and the NaN half of the test at line 149 does not arise.
- The wall clock (`cpumax`, lines 129 and 283) is an oracle `timeUp(it)` that says whether time has run out at iteration `it`.
- Logging (`verbose`, `_log`, `print`), the demonstration under `__main__` and `hanso.py` are left out. Printing has no effect on the result. Formatting a message can raise, and does so only at lines 284-285, which `TimeLimitMessage` models; every other message's format matches its arguments.
- `nvec` is a natural number; the source does not guard against a negative value.
- RunProperties.RunCodes: codes 7 and 8 read the line search's failure flag, which the returned state does not keep, so `CodeMeans` says nothing about them. `Termination.CheckCodes` states them per iteration.
- Limited-memory mode keeps `S` and `Y` as windows of columns, as the Findings section explains. What `hgprod` computes from them is not modelled.

## Findings

| source | as written | input that shows it | evidently intended | confidence | as-written member | corrected member |
|---|---|---|---|---|---|---|
| bfgs1run.py:329-334 | `np.hstack` of the 1-D arrays `S` and `s` concatenates entries, so `S[..., 1:nvec]` drops single numbers rather than the oldest column | two-entry steps `[1, 2]`, `[3, 4]`, `[5, 6]` with `nvec = 2`: `S` becomes `[2, 5, 6]` | a window of the newest `nvec` steps as columns, oldest first: `[3, 4]`, `[5, 6]` | not executed | LimitedMemory.FlatPushDropsEntries | LimitedMemory.WindowIsLatest |
| bfgs1run.py:284-285 | the time-limit message has two `%d` conversions and one argument `it + 1`, so formatting it raises `TypeError` before `info = 4` | a finite `cpumax` that has passed at iteration `it`, with tests 2, 3, 7, 8 and 0 all failing | return code 4, as the docstring's list of codes says (line 85) | not executed | Bfgs1Run.TimeLimitRaises | Termination.CheckCodes |
