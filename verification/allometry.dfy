/** The algebraic shapes the bark and live-branch biomass equations are built
    from. Every equation is one shape with its own coefficients; the shapes are
    defined once here, with the bounds each shape guarantees. */
module Allometry {
  import opened Numeric

  /** numpy's and Python's float value of pi. */
  const Pi: real := 3.141592653589793

  /** One biomass equation, in kilograms, as a function of diameter at breast
      height, total height and wood density. */
  datatype Form =
    | Zero
      // a + b (dbh/100)^2 ht
    | Linear(a: real, b: real)
      // a + b dbh^2 ht
    | LinearRaw(a: real, b: real)
      // exp(c0 + c1 ln dbh) * scale; scale is 0.001 for the equations that divide by 1000
    | LogLinear(c0: real, c1: real, scale: real)
      // exp(c0 + c1 ln dbh + c2 ln ht)
    | LogLinearHt(c0: real, c1: real, c2: real)
      // exp(c0 + c1 ln(pi dbh))
    | LogCircumference(c0: real, c1: real)
      // bark as the stem volume outside the bark minus the volume inside it, where
      // the outside diameter is (dbh + shift) / divisor, converted to kilograms
    | Shell(shift: real, divisor: real, k: real, p: real, q: real)
      // E - E / (c + k dbh^p), with E = exp(c0 + c1 ln dbh)
    | BranchRatio(c0: real, c1: real, c: real, k: real, p: real)
      // E (1 - 1 / (c + k dbh^p)) / 1000, with E = exp(c0 + c1 ln dbh)
    | Snell(c0: real, c1: real, c: real, k: real, p: real)

  /** exp(c0 + c1 ln dbh), the allometric core of the log-linear shapes. */
  function Allometric(m: Math, c0: real, c1: real, dbh: real): real {
    m.exp(c0 + c1 * m.ln(dbh))
  }

  /** k d^p ht^q, the stem volume the shell shape evaluates twice. */
  function StemVolume(m: Math, k: real, p: real, q: real, d: real, ht: real): real {
    k * (m.pow(d, p) * m.pow(ht, q))
  }

  /** The diameter outside bark the shell shape uses. */
  function OutsideDiameter(f: Form, dbh: real): real
    requires f.Shell?
  {
    Div(dbh + f.shift, f.divisor)
  }

  /** The size term b (dbh/100)^2 ht, or b dbh^2 ht, of a linear shape. */
  function SizeTerm(f: Form, dbh: real, ht: real): real
    requires f.Linear? || f.LinearRaw?
  {
    if f.Linear? then f.b * Sq(dbh / 100.0) * ht else f.b * Sq(dbh) * ht
  }

  /** The equation's value before any clipping. */
  function Raw(m: Math, f: Form, dbh: real, ht: real, density: real): real {
    match f
    case Zero => 0.0
    case Linear(a, _) => a + SizeTerm(f, dbh, ht)
    case LinearRaw(a, _) => a + SizeTerm(f, dbh, ht)
    case LogLinear(c0, c1, scale) => Allometric(m, c0, c1, dbh) * scale
    case LogLinearHt(c0, c1, c2) => m.exp(c0 + c1 * m.ln(dbh) + c2 * m.ln(ht))
    case LogCircumference(c0, c1) => m.exp(c0 + c1 * m.ln(dbh * Pi))
    case Shell(_, _, k, p, q) =>
      (StemVolume(m, k, p, q, OutsideDiameter(f, dbh), ht) - StemVolume(m, k, p, q, dbh, ht))
        * 35.30 * density / 2.2046
    case BranchRatio(c0, c1, c, k, p) =>
      Allometric(m, c0, c1, dbh) - Div(Allometric(m, c0, c1, dbh), c + k * m.pow(dbh, p))
    case Snell(c0, c1, c, k, p) =>
      Allometric(m, c0, c1, dbh) * (1.0 - Div(1.0, c + k * m.pow(dbh, p))) / 1000.0
  }

  /** A linear shape with a positive intercept and a non-negative slope. */
  predicate PositiveIntercept(f: Form) {
    (f.Linear? || f.LinearRaw?) && f.a > 0.0 && f.b >= 0.0
  }

  /** A positive-intercept shape never drops below its intercept on a tree of
      non-negative height, so clipping at 0 leaves it unchanged. */
  lemma {:induction false} InterceptBound(m: Math, f: Form, dbh: real, ht: real, density: real)
    requires PositiveIntercept(f) && ht >= 0.0
    ensures Raw(m, f, dbh, ht, density) >= f.a > 0.0
  {
    var s := if f.Linear? then dbh / 100.0 else dbh;
    SqNonNegative(s);
    MulNonNegative(f.b, Sq(s));
    MulNonNegative(f.b * Sq(s), ht);
    assert SizeTerm(f, dbh, ht) == f.b * Sq(s) * ht;
  }

  /** A linear shape is non-positive exactly when its size term does not
      exceed the negated intercept. */
  lemma LinearNonPositiveIff(m: Math, f: Form, dbh: real, ht: real, density: real)
    requires f.Linear? || f.LinearRaw?
    ensures Raw(m, f, dbh, ht, density) <= 0.0 <==> SizeTerm(f, dbh, ht) <= -f.a
  {
  }

  /** The branch-ratio shape lies strictly between 0 and E, for a positive
      diameter, when the divisor's constant exceeds 1 and its slope is
      non-negative. */
  lemma {:induction false} RatioBounds(m: Math, f: Form, dbh: real, ht: real, density: real)
    requires Lawful(m) && f.BranchRatio? && f.c > 1.0 && f.k >= 0.0 && dbh > 0.0
    ensures 0.0 < Raw(m, f, dbh, ht, density) < Allometric(m, f.c0, f.c1, dbh)
  {
    var e := Allometric(m, f.c0, f.c1, dbh);
    var d := f.c + f.k * m.pow(dbh, f.p);
    MulNonNegative(f.k, m.pow(dbh, f.p));
    assert d > 1.0;
    var q := Div(e, d);
    assert q * d == e;
    assert e > 0.0;
    assert q > 0.0 by {
      if q <= 0.0 {
        MulNonNegative(-q, d);
      }
    }
    assert q < e by {
      MulStrictlyMonotone(1.0, d, q);
    }
    assert Raw(m, f, dbh, ht, density) == e - q;
  }

  /** The Snell shape lies strictly between 0 and E / 1000 under the same
      conditions: its factor 1 - 1 / (c + k dbh^p) lies in (0, 1). */
  lemma {:induction false} SnellBounds(m: Math, f: Form, dbh: real, ht: real, density: real)
    requires Lawful(m) && f.Snell? && f.c > 1.0 && f.k >= 0.0 && dbh > 0.0
    ensures 0.0 < Raw(m, f, dbh, ht, density) < Allometric(m, f.c0, f.c1, dbh) / 1000.0
  {
    var e := Allometric(m, f.c0, f.c1, dbh);
    var d := f.c + f.k * m.pow(dbh, f.p);
    MulNonNegative(f.k, m.pow(dbh, f.p));
    assert d > 1.0;
    var inv := Div(1.0, d);
    assert inv * d == 1.0;
    assert 0.0 < inv < 1.0 by {
      if inv <= 0.0 {
        MulNonNegative(-inv, d);
      }
      if inv >= 1.0 {
        MulMonotone(1.0, inv, d);
      }
    }
    var factor := 1.0 - inv;
    assert e > 0.0;
    MulPositive(e, factor);
    MulStrictlyMonotone(factor, 1.0, e);
    assert Raw(m, f, dbh, ht, density) == e * factor / 1000.0;
  }

  /** With a positive density, the shell shape is non-positive exactly when
      the stem volume outside bark does not exceed the volume inside it. */
  lemma {:induction false} ShellNonPositiveIff(m: Math, f: Form, dbh: real, ht: real, density: real)
    requires f.Shell? && density > 0.0
    ensures var outer := StemVolume(m, f.k, f.p, f.q, OutsideDiameter(f, dbh), ht);
            var inner := StemVolume(m, f.k, f.p, f.q, dbh, ht);
            Raw(m, f, dbh, ht, density) <= 0.0 <==> outer <= inner
  {
    var outer := StemVolume(m, f.k, f.p, f.q, OutsideDiameter(f, dbh), ht);
    var inner := StemVolume(m, f.k, f.p, f.q, dbh, ht);
    var x := outer - inner;
    assert Raw(m, f, dbh, ht, density) == x * (35.30 * density / 2.2046);
    var w := 35.30 * density / 2.2046;
    assert w > 0.0;
    if x > 0.0 {
      MulPositive(x, w);
    } else {
      MulNonNegative(-x, w);
    }
  }
}
