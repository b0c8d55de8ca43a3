/** The package's bark biomass equations BB_1 .. BB_39: each is one allometric
    shape, and `calc` clips the shape's value at 0 so no tree gets negative bark. */
module Bark {
  import opened Numeric
  import opened Allometry

  /** The number n of a bark equation BB_n. */
  type BarkNumber = n: int | 1 <= n <= 39 witness 1

  /** The shape and coefficients of BB_n. */
  function Equation(n: BarkNumber): Form {
    match n
    case 1 => LogLinear(2.1069, 2.7271, 0.001)
    case 2 => Linear(0.6, 16.4)
    case 3 => Linear(1.0, 17.2)
    case 4 => LogLinear(1.47146, 2.8421, 0.001)
    case 5 => LogLinear(2.79189, 2.4313, 0.001)
    case 6 => Linear(1.3, 12.6)
    case 7 => Linear(4.5, 9.3)
    case 8 => LogLinear(-4.3103, 2.4300, 1.0)
    case 9 => LogLinearHt(-3.6263, 1.34077, 0.8567)
    case 10 => LogLinear(2.183174, 2.6610, 0.001)
    case 11 => Linear(1.2, 11.2)
    case 12 => LogLinear(-13.3146, 2.8594, 1.0)
    case 13 => LinearRaw(0.336, 0.00058)
    case 14 => Linear(3.2, 9.1)
    case 15 => LogLinear(-4.371, 2.259, 1.0)
    case 16 => LogCircumference(-10.175, 2.6333)
    case 17 => LogLinear(7.189689, 1.5837, 0.001)
    case 18 => Linear(1.3, 27.6)
    case 19 => Zero
    case 20 => LogLinear(-4.6424, 2.4617, 1.0)
    case 21 => Linear(0.9, 27.4)
    case 22 => Linear(1.0, 15.6)
    case 23 => Linear(1.8, 9.6)
    case 24 => Linear(2.4, 15.0)
    case 25 => Linear(3.6, 18.2)
    case 26 => LinearRaw(-0.025, 0.00134)
    case 27 => Linear(-1.2, 29.1)
    case 28 => Linear(1.2, 15.5)
    case 29 => Shell(-0.21235, 0.94782, 0.0000246916, 2.354347, 0.69586)
    case 30 => Shell(0.68133, 0.95767, 0.0000386403, 2.12635, 0.83339)
    case 31 => Shell(0.48584, 0.96147, 0.0000248325, 2.32519, 0.74348)
    case 32 => Shell(-0.39534, 0.90182, 0.000056884, 2.07202, 0.77467)
    case 33 => Shell(0.32491, 0.96579, 0.0000237733, 2.05910, 1.05293)
    case 34 => Shell(0.03425, 0.98155, 0.0000378129, 1.99295, 1.01532)
    case 35 => Shell(0.78034, 0.95956, 0.0000236325, 2.25575, 0.87108)
    case 36 => Shell(4.1177, 0.95354, 0.0000081905, 2.19576, 1.14078)
    case 37 => Shell(0.44003, 0.95354, 0.0000204864, 2.53987, 0.50591)
    case 38 => Linear(3.3, 9.0)
    case 39 => Linear(-1.2, 24.0)
  }

  /** BB_n's `calc`: the equation's value clipped at 0. */
  function Calc(m: Math, n: BarkNumber, dbh: real, ht: real, density: real): (r: real)
    ensures r >= 0.0
    ensures Raw(m, Equation(n), dbh, ht, density) >= 0.0 ==> r == Raw(m, Equation(n), dbh, ht, density)
    ensures Raw(m, Equation(n), dbh, ht, density) < 0.0 ==> r == 0.0
  {
    ClipLow(Raw(m, Equation(n), dbh, ht, density), 0.0)
  }

  /** The equations of the form a + b (dbh/100)^2 ht or a + b dbh^2 ht with a
      positive intercept. */
  const InterceptEquations: set<int> := {2, 3, 6, 7, 11, 13, 14, 18, 21, 22, 23, 24, 25, 28, 38}

  /** Exactly the listed equations have a positive intercept and slope. */
  lemma InterceptEquationsAre(n: BarkNumber)
    ensures n in InterceptEquations <==> PositiveIntercept(Equation(n))
  {
  }

  /** For a positive-intercept equation and a tree of non-negative height the
      clip never fires: `calc` is the raw equation, and at least its intercept. */
  lemma {:induction false} InterceptUnclipped(m: Math, n: BarkNumber, dbh: real, ht: real, density: real)
    requires n in InterceptEquations && ht >= 0.0
    ensures Calc(m, n, dbh, ht, density) == Raw(m, Equation(n), dbh, ht, density)
    ensures Calc(m, n, dbh, ht, density) >= Equation(n).a
  {
    InterceptEquationsAre(n);
    InterceptBound(m, Equation(n), dbh, ht, density);
  }

  /** The three negative-intercept equations give 0 exactly when the size term
      does not exceed the intercept's magnitude, and their raw value otherwise. */
  lemma {:induction false} NegativeInterceptZero(m: Math, dbh: real, ht: real, density: real)
    ensures Calc(m, 26, dbh, ht, density) == 0.0 <==> 0.00134 * Sq(dbh) * ht <= 0.025
    ensures Calc(m, 27, dbh, ht, density) == 0.0 <==> 29.1 * Sq(dbh / 100.0) * ht <= 1.2
    ensures Calc(m, 39, dbh, ht, density) == 0.0 <==> 24.0 * Sq(dbh / 100.0) * ht <= 1.2
    ensures Calc(m, 26, dbh, ht, density) == Max(0.0, -0.025 + 0.00134 * Sq(dbh) * ht)
    ensures Calc(m, 27, dbh, ht, density) == Max(0.0, -1.2 + 29.1 * Sq(dbh / 100.0) * ht)
    ensures Calc(m, 39, dbh, ht, density) == Max(0.0, -1.2 + 24.0 * Sq(dbh / 100.0) * ht)
  {
    LinearNonPositiveIff(m, Equation(26), dbh, ht, density);
    LinearNonPositiveIff(m, Equation(27), dbh, ht, density);
    LinearNonPositiveIff(m, Equation(39), dbh, ht, density);
  }

  /** BB_19 assigns no bark to any tree. */
  lemma NoBark(m: Math, dbh: real, ht: real, density: real)
    ensures Calc(m, 19, dbh, ht, density) == 0.0
  {
  }

  /** The shell equations: bark is the stem volume outside bark, at the
      species' adjusted diameter, minus the volume inside bark, at dbh, turned
      into kilograms by 35.30 density / 2.2046 and clipped at 0. With a positive
      density the result is 0 exactly when the outer volume does not exceed the
      inner one. */
  lemma {:induction false} ShellBark(m: Math, n: BarkNumber, dbh: real, ht: real, density: real)
    requires 29 <= n <= 37
    ensures Equation(n).Shell?
    ensures var f := Equation(n);
            var outer := StemVolume(m, f.k, f.p, f.q, (dbh + f.shift) / f.divisor, ht);
            var inner := StemVolume(m, f.k, f.p, f.q, dbh, ht);
            && Calc(m, n, dbh, ht, density) == Max(0.0, (outer - inner) * 35.30 * density / 2.2046)
            && (density > 0.0 ==> (Calc(m, n, dbh, ht, density) == 0.0 <==> outer <= inner))
  {
    var f := Equation(n);
    assert f.Shell? && f.divisor > 0.0;
    assert OutsideDiameter(f, dbh) == (dbh + f.shift) / f.divisor;
    if density > 0.0 {
      ShellNonPositiveIff(m, f, dbh, ht, density);
    }
  }
}
