/**
 * The prioritised chain of stopping tests that `bfgs1run` runs after each
 * line search, and the meaning of its return codes:
 *   0 optimality tolerance met, 1 iteration limit, 2 target value reached,
 *   3 norm of x too large, 4 time limit, 5 non-finite start,
 *   6 not a descent direction, 7 line search bracketed but failed,
 *   8 line search found no bracket (f may be unbounded below).
 */
module Termination {
  import opened Optional

  /** The line search's `fail` flag: 0, 1 or -1. */
  datatype LsFail = Satisfied | Bracketed | Unbounded

  /**
   * The tests of one iteration in source order; `None` means the run goes
   * on to the Hessian update. With `quitLSfail` off, a bracketed failure is
   * ignored and the `fail == -1` test is skipped. Code 4 is the outcome the
   * docstring documents for the time limit; the run as written raises there
   * instead (see `Bfgs1Run.Fault`).
   */
  function Check(belowTarget: bool, normTooLarge: bool, fail: LsFail, quitLSfail: bool,
                 optimal: bool, timeUp: bool): (r: Option<nat>)
    ensures r.Some? ==> r.value in {0, 2, 3, 4, 7, 8}
  {
    if belowTarget then Some(2)
    else if normTooLarge then Some(3)
    else if fail == Bracketed && quitLSfail then Some(7)
    else if fail == Unbounded then Some(8)
    else if optimal then Some(0)
    else if timeUp then Some(4)
    else None
  }

  /** A test together with the code it returns when it holds. */
  datatype Rule = Rule(holds: bool, code: nat)

  /** Reference definition: the code of the first rule that holds, if any. */
  function FirstHolding(rules: seq<Rule>): Option<nat> {
    if |rules| == 0 then None
    else if rules[0].holds then Some(rules[0].code)
    else FirstHolding(rules[1..])
  }

  /** The six tests, highest priority first. */
  function Priority(belowTarget: bool, normTooLarge: bool, fail: LsFail, quitLSfail: bool,
                    optimal: bool, timeUp: bool): seq<Rule> {
    [Rule(belowTarget, 2), Rule(normTooLarge, 3), Rule(fail == Bracketed && quitLSfail, 7),
     Rule(fail == Unbounded, 8), Rule(optimal, 0), Rule(timeUp, 4)]
  }

  /** The first test that holds decides the code. */
  lemma {:induction false} CheckIsFirstHolding(belowTarget: bool, normTooLarge: bool, fail: LsFail,
                                               quitLSfail: bool, optimal: bool, timeUp: bool)
    ensures Check(belowTarget, normTooLarge, fail, quitLSfail, optimal, timeUp)
         == FirstHolding(Priority(belowTarget, normTooLarge, fail, quitLSfail, optimal, timeUp))
  {
    var rules := Priority(belowTarget, normTooLarge, fail, quitLSfail, optimal, timeUp);
    assert rules[5..][1..] == [];
    assert FirstHolding(rules[5..]) == if timeUp then Some(4) else None;
    assert rules[4..][1..] == rules[5..];
    assert FirstHolding(rules[4..]) == if optimal then Some(0) else FirstHolding(rules[5..]);
    assert rules[3..][1..] == rules[4..];
    assert FirstHolding(rules[3..]) == if fail == Unbounded then Some(8) else FirstHolding(rules[4..]);
    assert rules[2..][1..] == rules[3..];
    assert FirstHolding(rules[2..])
        == if fail == Bracketed && quitLSfail then Some(7) else FirstHolding(rules[3..]);
    assert rules[1..][1..] == rules[2..];
    assert FirstHolding(rules[1..]) == if normTooLarge then Some(3) else FirstHolding(rules[2..]);
  }

  /** Each code, and carrying on, in terms of the tests (both directions). */
  lemma {:induction false} CheckCodes(belowTarget: bool, normTooLarge: bool, fail: LsFail,
                                      quitLSfail: bool, optimal: bool, timeUp: bool)
    ensures var r := Check(belowTarget, normTooLarge, fail, quitLSfail, optimal, timeUp);
      && (r == Some(2) <==> belowTarget)
      && (r == Some(3) <==> !belowTarget && normTooLarge)
      && (r == Some(7) <==> !belowTarget && !normTooLarge && fail == Bracketed && quitLSfail)
      && (r == Some(8) <==> !belowTarget && !normTooLarge && fail == Unbounded)
      && (r == Some(0) <==> !belowTarget && !normTooLarge && !(fail == Bracketed && quitLSfail)
                            && fail != Unbounded && optimal)
      && (r == Some(4) <==> !belowTarget && !normTooLarge && !(fail == Bracketed && quitLSfail)
                            && fail != Unbounded && !optimal && timeUp)
      && (r == None <==> !belowTarget && !normTooLarge && !(fail == Bracketed && quitLSfail)
                         && fail != Unbounded && !optimal && !timeUp)
  {
  }

  /** With `quitLSfail` off, a bracketed failure is treated as a successful line search. */
  lemma {:induction false} BracketedIgnored(belowTarget: bool, normTooLarge: bool,
                                            optimal: bool, timeUp: bool)
    ensures Check(belowTarget, normTooLarge, Bracketed, false, optimal, timeUp)
         == Check(belowTarget, normTooLarge, Satisfied, false, optimal, timeUp)
  {
  }
}
