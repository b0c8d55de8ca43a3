/** Real-number helpers: the transcendental functions the equations call, and the
    numpy-style clamps and masks the code applies to their results. */
module Numeric {

  /** The transcendental functions the equations use. Dafny's `real` has no
      logarithm, exponential or fractional power, so every formula takes them as
      a parameter; `Lawful` lists the only facts about them any proof relies on. */
  datatype Math = Math(
    log10: real -> real,
    ln: real -> real,
    exp: real -> real,
    pow: (real, real) -> real,
    cbrt: real -> real)

  /** The facts about the transcendentals the proofs use: `exp` is positive, a
      power of a positive base is positive and of a non-negative base is
      non-negative, and `cbrt` is the non-negative real cube root. */
  ghost predicate Lawful(m: Math) {
    && (forall x: real :: m.exp(x) > 0.0)
    && (forall x: real, p: real :: x > 0.0 ==> m.pow(x, p) > 0.0)
    && (forall x: real, p: real :: x >= 0.0 ==> m.pow(x, p) >= 0.0)
    && (forall x: real :: x >= 0.0 ==> m.cbrt(x) >= 0.0 && Cube(m.cbrt(x)) == x)
  }

  function Sq(x: real): real {
    x * x
  }

  function Cube(x: real): real {
    x * x * x
  }

  function Max(a: real, b: real): (r: real)
    ensures r >= a && r >= b
    ensures r == a || r == b
  {
    if a >= b then a else b
  }

  function Min(a: real, b: real): (r: real)
    ensures r <= a && r <= b
    ensures r == a || r == b
  {
    if a <= b then a else b
  }

  /** numpy `clip(x, lo, None)`: raises `x` to at least `lo`. */
  function ClipLow(x: real, lo: real): (r: real)
    ensures r >= lo
    ensures x >= lo ==> r == x
    ensures x < lo ==> r == lo
  {
    if x < lo then lo else x
  }

  /** numpy `clip(x, lo, hi)` with `lo <= hi`: the nearest point of [lo, hi]. */
  function Clip(x: real, lo: real, hi: real): (r: real)
    requires lo <= hi
    ensures lo <= r <= hi
    ensures lo <= x <= hi ==> r == x
    ensures x < lo ==> r == lo
    ensures x > hi ==> r == hi
  {
    if x < lo then lo else if x > hi then hi else x
  }

  /** Division whose zero-divisor case yields 0: the only places a divisor can
      vanish are ones the code masks away afterwards or lets raise. */
  function Div(a: real, b: real): (r: real)
    ensures b != 0.0 ==> r * b == a
    ensures b == 0.0 ==> r == 0.0
  {
    if b == 0.0 then 0.0 else a / b
  }

  /** Sign and order facts about products, for proofs the solver's
      arithmetic does not find unaided. */
  /** A factor can move across a division: (x t / b) c = (x c / b) t. */
  lemma {:induction false} DivSwapFactor(x: real, t: real, b: real, c: real)
    ensures Div(x * t, b) * c == Div(x * c, b) * t
  {
    if b != 0.0 {
      assert (x * t) / b * c == x * t * c / b;
      assert (x * c) / b * t == x * c * t / b;
      assert x * t * c == x * c * t;
    }
  }

  lemma MulPositive(a: real, b: real)
    requires a > 0.0 && b > 0.0
    ensures a * b > 0.0
  {
  }

  lemma MulNonNegative(a: real, b: real)
    requires a >= 0.0 && b >= 0.0
    ensures a * b >= 0.0
  {
  }

  lemma MulMonotone(a: real, b: real, c: real)
    requires c >= 0.0 && a <= b
    ensures a * c <= b * c
  {
  }

  lemma MulStrictlyMonotone(a: real, b: real, c: real)
    requires c > 0.0 && a < b
    ensures a * c < b * c
  {
  }

  /** A product of non-negative factors grows with both factors. */
  lemma {:induction false} ProductMonotone(a: real, b: real, c: real, d: real)
    requires 0.0 <= a <= b && 0.0 <= c <= d
    ensures 0.0 <= a * c <= b * d
  {
    MulNonNegative(a, c);
    MulMonotone(a, b, c);
    MulMonotone(c, d, b);
    assert d * b == b * d && c * b == b * c;
  }

  /** A square is never negative. */
  lemma SqNonNegative(x: real)
    ensures Sq(x) >= 0.0
  {
  }

  /** The square of a positive number is positive. */
  lemma SqPositive(x: real)
    requires x > 0.0
    ensures Sq(x) > 0.0
  {
    assert Sq(x) / x == x;
  }

  /** For a non-negative base the cube is strictly monotone. */
  lemma {:induction false} CubeStrictlyMonotone(a: real, b: real)
    requires 0.0 <= a < b
    ensures Cube(a) < Cube(b)
  {
    var aa, ab, bb := a * a, a * b, b * b;
    assert aa <= ab;
    assert ab < bb;
    assert aa < bb;
    var aaa, aab, bbb := aa * a, aa * b, bb * b;
    assert aaa <= aab;
    assert aab < bbb;
  }

  /** The cube is monotone on all reals. */
  lemma {:induction false} CubeMonotone(a: real, b: real)
    requires a <= b
    ensures Cube(a) <= Cube(b)
  {
    if a == b {
    } else if 0.0 <= a {
      CubeStrictlyMonotone(a, b);
    } else if b <= 0.0 {
      CubeStrictlyMonotone(-b, -a);
      assert Cube(-b) == -Cube(b) && Cube(-a) == -Cube(a);
    } else {
      CubeStrictlyMonotone(0.0, -a);
      assert Cube(-a) == -Cube(a);
      CubeStrictlyMonotone(0.0, b);
    }
  }

  /** The cube root is monotone on non-negative reals. */
  lemma {:induction false} CbrtMonotone(m: Math, x: real, y: real)
    requires Lawful(m)
    requires 0.0 <= x <= y
    ensures m.cbrt(x) <= m.cbrt(y)
  {
    if m.cbrt(x) > m.cbrt(y) {
      CubeStrictlyMonotone(m.cbrt(y), m.cbrt(x));
      assert false;
    }
  }

  /** The cube root of zero is zero. */
  lemma {:induction false} CbrtZero(m: Math)
    requires Lawful(m)
    ensures m.cbrt(0.0) == 0.0
  {
    var c := m.cbrt(0.0);
    assert c >= 0.0 && Cube(c) == 0.0;
    if c > 0.0 {
      CubeStrictlyMonotone(0.0, c);
      assert false;
    }
  }
}
