/** The package's live-branch biomass equations BLB_1 .. BLB_29 and BLB_None:
    each is one allometric shape, and `calc` clips the shape's value at 0. */
module Branch {
  import opened Wrappers
  import opened Numeric
  import opened Allometry

  /** The number n of a branch equation BLB_n. */
  type BranchNumber = n: int | 1 <= n <= 29 witness 1

  /** The shape and coefficients of BLB_n. */
  function Equation(n: BranchNumber): Form {
    match n
    case 1 => Linear(13.0, 12.4)
    case 2 => Linear(3.6, 44.2)
    case 3 => LogLinear(-4.1817, 2.3324, 1.0)
    case 4 => Linear(16.8, 14.4)
    case 5 => Linear(9.7, 22.0)
    case 6 => LogLinear(-3.6941, 2.1382, 1.0)
    case 7 => LogLinearHt(-4.1068, 1.5177, 1.0424)
    case 8 => LogLinear(-7.637, 3.3648, 1.0)
    case 9 => Linear(9.5, 16.8)
    case 10 => LinearRaw(0.199, 0.00381)
    case 11 => Linear(7.8, 12.3)
    case 12 => LogLinear(-4.570, 2.271, 1.0)
    case 13 => LogCircumference(-7.2775, 2.3337)
    case 14 => Linear(1.7, 26.2)
    case 15 => Linear(2.5, 36.8)
    case 16 => BranchRatio(-4.5648, 2.6232, 2.7638, 0.062, 1.3364)
    case 17 => LogLinear(-5.2581, 2.6045, 1.0)
    case 18 => Linear(4.5, 22.7)
    case 19 => Linear(5.3, 9.7)
    case 20 => Linear(20.4, 7.7)
    case 21 => LinearRaw(0.626, 0.00079)
    case 22 => Linear(12.6, 23.5)
    case 23 => LinearRaw(0.047, 0.00413)
    case 24 => Linear(4.2, 17.4)
    case 25 => Linear(-0.6, 45.1)
    case 26 => Linear(8.1, 21.5)
    case 27 => Snell(4.0543553, 2.1505, 4.6762, 0.0163, 2.039)
    case 28 => Snell(3.0136553, 2.4839, 1.6013, 0.1060, 1.309)
    case 29 => Snell(3.1980553, 2.2699, 1.6048, 0.2979, 0.6828)
  }

  /** The shape of an assignment: `None` is BLB_None, which has no branches. */
  function Assigned(id: Option<BranchNumber>): Form {
    match id
    case None => Zero
    case Some(n) => Equation(n)
  }

  /** The `calc` of BLB_n (or of BLB_None): the equation's value clipped at 0.
      The branch equations take no wood density. */
  function Calc(m: Math, id: Option<BranchNumber>, dbh: real, ht: real): (r: real)
    ensures r >= 0.0
    ensures Raw(m, Assigned(id), dbh, ht, 0.0) >= 0.0 ==> r == Raw(m, Assigned(id), dbh, ht, 0.0)
    ensures Raw(m, Assigned(id), dbh, ht, 0.0) < 0.0 ==> r == 0.0
  {
    ClipLow(Raw(m, Assigned(id), dbh, ht, 0.0), 0.0)
  }

  /** BLB_None assigns no branches to any tree. */
  lemma NoBranches(m: Math, dbh: real, ht: real)
    ensures Calc(m, None, dbh, ht) == 0.0
  {
  }

  /** The equations of the form a + b (dbh/100)^2 ht or a + b dbh^2 ht with a
      positive intercept. */
  const InterceptEquations: set<int> := {1, 2, 4, 5, 9, 10, 11, 14, 15, 18, 19, 20, 21, 22, 23, 24, 26}

  /** Exactly the listed equations have a positive intercept and slope. */
  lemma InterceptEquationsAre(n: BranchNumber)
    ensures n in InterceptEquations <==> PositiveIntercept(Equation(n))
  {
  }

  /** For a positive-intercept equation and a tree of non-negative height the
      clip never fires: `calc` is the raw equation, and at least its intercept. */
  lemma {:induction false} InterceptUnclipped(m: Math, n: BranchNumber, dbh: real, ht: real)
    requires n in InterceptEquations && ht >= 0.0
    ensures Calc(m, Some(n), dbh, ht) == Raw(m, Equation(n), dbh, ht, 0.0)
    ensures Calc(m, Some(n), dbh, ht) >= Equation(n).a
  {
    InterceptEquationsAre(n);
    InterceptBound(m, Equation(n), dbh, ht, 0.0);
  }

  /** BLB_25, the only negative intercept, gives 0 exactly when
      45.1 (dbh/100)^2 ht does not exceed 0.6, and its raw value otherwise. */
  lemma {:induction false} NegativeInterceptZero(m: Math, dbh: real, ht: real)
    ensures Calc(m, Some(25), dbh, ht) == 0.0 <==> 45.1 * Sq(dbh / 100.0) * ht <= 0.6
    ensures Calc(m, Some(25), dbh, ht) == Max(0.0, -0.6 + 45.1 * Sq(dbh / 100.0) * ht)
  {
    LinearNonPositiveIff(m, Equation(25), dbh, ht, 0.0);
  }

  /** BLB_16 subtracts E / (2.7638 + 0.062 dbh^1.3364) from E = exp(-4.5648 +
      2.6232 ln dbh); the divisor exceeds 1, so the result lies strictly
      between 0 and E and the clip never fires. */
  lemma {:induction false} RatioWithinAllometric(m: Math, dbh: real, ht: real)
    requires Lawful(m) && dbh > 0.0
    ensures 0.0 < Calc(m, Some(16), dbh, ht) < Allometric(m, -4.5648, 2.6232, dbh)
    ensures Calc(m, Some(16), dbh, ht) == Raw(m, Equation(16), dbh, ht, 0.0)
  {
    RatioBounds(m, Equation(16), dbh, ht, 0.0);
  }

  /** The Snell equations BLB_27, BLB_28 and BLB_29 scale E = exp(c0 + c1 ln
      dbh) by a factor in (0, 1) and divide by 1000, so the result lies strictly
      between 0 and E / 1000 and the clip never fires. */
  lemma {:induction false} SnellWithinAllometric(m: Math, n: BranchNumber, dbh: real, ht: real)
    requires Lawful(m) && 27 <= n <= 29 && dbh > 0.0
    ensures Equation(n).Snell?
    ensures 0.0 < Calc(m, Some(n), dbh, ht) < Allometric(m, Equation(n).c0, Equation(n).c1, dbh) / 1000.0
    ensures Calc(m, Some(n), dbh, ht) == Raw(m, Equation(n), dbh, ht, 0.0)
  {
    assert Equation(n).Snell? && Equation(n).c > 1.0 && Equation(n).k >= 0.0;
    SnellBounds(m, Equation(n), dbh, ht, 0.0);
  }
}
