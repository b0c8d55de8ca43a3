/** The empirical formulas the three volume implementations share: basal area,
    the tarif conversion term, the ratio curves of the boardfoot conversions,
    and each species' own volume equation before any masking or flooring. */
module Formulas {
  import opened Numeric
  import opened Species

  /** Basal area (square feet) of a stem `d` inches across. */
  function BasalArea(d: real): (ba: real)
    ensures ba >= 0.0
    ensures d >= 6.0 ==> ba - 0.087266 > 0.0
  {
    0.005454154 * (d * d)
  }

  /** The tarif conversion term (1.033 (1 + 1.382937 e^x)) (BA + 0.087266) - 0.174533,
      for the exponent `x` the caller chooses. */
  function Term(m: Math, d: real, x: real): real {
    (1.033 * (1.0 + 1.382937 * m.exp(x))) * (BasalArea(d) + 0.087266) - 0.174533
  }

  /** The term with exponent -4.015292 d/10, used to turn a tarif number into
      CVT and CVTS. */
  function TermTenth(m: Math, d: real): real {
    Term(m, d, -4.015292 * (d / 10.0))
  }

  /** The term a CVTS equation is divided by to give the tarif number:
      equations 1 and 2 use exponent -4.105292 d/10, every other one -4.015292 d. */
  function TarifTerm(m: Math, e: EqId, d: real): real {
    if e == E1 || e == E2 then Term(m, d, -4.105292 * (d / 10.0)) else Term(m, d, -4.015292 * d)
  }

  /** Proportion of the stem above the stump. */
  function Rts(m: Math, d: real): real {
    0.9679 - 0.1051 * m.pow(0.5523, d - 1.5)
  }

  /** CV4 from a tarif number. */
  function Cv4FromTarif(d: real, tarif: real): real {
    tarif * (BasalArea(d) - 0.087266) / 0.912733
  }

  /** CVT from a tarif number. */
  function CvtFromTarif(m: Math, d: real, tarif: real): real {
    tarif * Rts(m, d) * TermTenth(m, d) / 0.912733
  }

  /** Ratio of 6-inch-top to 4-inch-top cubic volume. */
  function Rc6(m: Math, d: real): real {
    0.993 - 0.993 * m.pow(0.62, d - 6.0)
  }

  /** Ratio of 8-inch-top to 4-inch-top cubic volume. */
  function Rc8(m: Math, d: real): real {
    0.983 - 0.983 * m.pow(0.65, d - 8.6)
  }

  /** Ratio of Scribner 8-inch-top to 6-inch-top boardfoot volume. */
  function Rs816(m: Math, d: real): real {
    0.990 - 0.58 * m.pow(0.484, d - 9.5)
  }

  /** Ratio of International 8-inch-top to 6-inch-top boardfoot volume. */
  function Ri8(m: Math, d: real): real {
    0.990 - 0.55 * m.pow(0.485, d - 9.5)
  }

  /** Basal-area-one volume of a tarif number. */
  function B4(tarif: real): real {
    tarif / 0.912733
  }

  /** Softwood log10 of the Scribner-to-cubic ratio; it has the
      log10(d) log10(b4) cross term. */
  function SoftRs616l(m: Math, d: real, b4: real): real {
    0.174439 + 0.117594 * m.log10(d) * m.log10(b4) - Div(8.210585, d * d)
    + 0.236693 * m.log10(b4) - 0.00001345 * (b4 * b4) - 0.00001937 * (d * d)
  }

  /** Hardwood log10 of the Scribner-to-cubic ratio; its first log term is
      0.117594 log10(b4) with no diameter factor. */
  function HardRs616l(m: Math, d: real, b4: real): real {
    0.174439 + 0.117594 * m.log10(b4) - Div(8.210585, d * d)
    + 0.236693 * m.log10(b4) - 0.00001345 * (b4 * b4) - 0.00001937 * (d * d)
  }

  /** Scribner 32-foot-log to 16-foot-log ratio. */
  function Rs632(d: real, tarif: real): real {
    1.001491 - Div(6.924097, tarif) + 0.00001351 * (d * d)
  }

  /** International-to-cubic ratio at a 6-inch top. */
  function Ri6(m: Math, d: real, tarif: real): real {
    -2.904154 + 3.466328 * m.log10(d * tarif) - 0.02765985 * d - 0.00008205 * (tarif * tarif)
    + Div(11.29598, d * d)
  }

  /** The cubic correction that turns CVT into CV4X for hardwoods. */
  function Cv4xPolynomial(d: real, ht: real): real {
    var d3 := d * d * d;
    0.99875 - Div(43.336, d3) - Div(124.717, d3 * d) + Div(0.193437 * ht, d3) + Div(479.83, d3 * ht)
  }

  /** The hardwood TARIFX derived from CV8; the basal area multiplies only the
      power term of the divisor. */
  function TarifxFromCv8(m: Math, d: real, cv8: real): real {
    Div(cv8 * 0.912733, 0.983 - 0.983 * m.pow(0.65, d - 8.6) * BasalArea(d) - 0.087266)
  }

  /** TARIF of the Pillsbury hardwoods, from CV8. */
  function PillsburyTarifRaw(m: Math, d: real, cv8: real): real {
    Div(cv8 * 0.912733, Rc8(m, d) * (BasalArea(d) - 0.087266))
  }

  /** Equations whose CVTS is 10^(a + b log10 d + c log10 h). */
  predicate IsLogLinear(e: EqId) {
    e in {E7, E8, E9, E10, E11, E12, E13, E15, E22, E26, E27, E28, E29, E30}
  }

  datatype LogLinear = LogLinear(a: real, b: real, c: real)

  function LogLinearCoefficients(e: EqId): LogLinear
    requires IsLogLinear(e)
  {
    match e
    case E7 => LogLinear(-2.663834, 1.79023, 1.124873)
    case E8 => LogLinear(-2.464614, 1.701993, 1.067038)
    case E9 => LogLinear(-2.379642, 1.682300, 1.039712)
    case E10 => LogLinear(-2.502332, 1.864963, 1.004903)
    case E11 => LogLinear(-2.575642, 1.806775, 1.094665)
    case E12 => LogLinear(-2.539944, 1.841226, 1.034051)
    case E13 => LogLinear(-2.700574, 1.754171, 1.164531)
    case E15 => LogLinear(-2.615591, 1.847504, 1.085772)
    case E22 => LogLinear(-2.624325, 1.847123, 1.044007)
    case E26 => LogLinear(-2.672775, 1.920617, 1.074024)
    case E27 => LogLinear(-2.945047, 1.803973, 1.238853)
    case E28 => LogLinear(-2.635360, 1.946034, 1.024793)
    case E29 => LogLinear(-2.757813, 1.911681, 1.105403)
    case E30 => LogLinear(-2.770324, 1.885813, 1.119043)
  }

  /** Equations whose tarif number is derived from their own CVTS equation. */
  predicate HasCvtsEquation(e: EqId) {
    IsSoftTarif(e) || (IsHardTarif(e) && e != E25)
  }

  /** The logarithm of CVTS that equations 1 (base 10) and 2 (base e) fit. */
  function LogCvts(m: Math, e: EqId, d: real, h: real): real
    requires e == E1 || e == E2
  {
    var ld, lh := m.log10(d), m.log10(h);
    if e == E1 then
      -3.21809 + 0.04948 * lh * ld - 0.15664 * (ld * ld) + 2.02132 * ld
      + 1.63408 * lh - 0.16185 * (lh * lh)
    else -6.110493 + 1.81306 * m.ln(d) + 1.083884 * m.ln(h)
  }

  /** The species CVTS equation, before masking or flooring. */
  function CvtsEquation(m: Math, e: EqId, d: real, h: real): real
    requires HasCvtsEquation(e)
  {
    var ld, lh := m.log10(d), m.log10(h);
    match e
    case E1 => m.pow(10.0, LogCvts(m, e, d, h))
    case E2 => m.exp(LogCvts(m, e, d, h))
    case E4 =>
      m.exp(-8.521558 + 1.977243 * m.ln(d) - 0.105288 * (m.ln(h) * m.ln(h))
            + Div(136.0489, h * h) + 1.99546 * m.ln(h))
    case E6 => m.pow(10.0, -2.72170 + 2.00857 * ld + 1.08620 * lh - 0.00568 * d)
    case E17 => 0.001106485 * m.pow(d, 1.8140497) * m.pow(h, 1.2744923)
    case E21 =>
      0.005454154 * (0.30708901 + 0.00086157622 * h - Div(0.0037255243 * d * h, h - 4.5))
      * (d * d) * h * Sq(Div(h, h - 4.5))
    case E24 => m.exp(-6.2597 + 1.9967 * m.ln(d) + 0.9642 * m.ln(h))
    case E31 => 0.0016144 * (d * d) * h
    case E7 | E8 | E9 | E10 | E11 | E12 | E13 | E15 | E22 | E26 | E27 | E28 | E29 | E30 =>
      var c := LogLinearCoefficients(e);
      m.pow(10.0, c.a + c.b * ld + c.c * lh)
  }

  /** Western juniper's CV4, computed from CVTS rather than from the tarif number. */
  function JuniperCv4(m: Math, d: real, cvts: real): real {
    Div(cvts + 3.48, 1.18052 + 0.32736 * m.exp(-0.1 * d)) - 2.948
  }

  /** k d^p h^q. */
  datatype Power = Power(k: real, p: real, q: real)

  function PowerLaw(m: Math, c: Power, d: real, h: real): real {
    c.k * m.pow(d, c.p) * m.pow(h, c.q)
  }

  function PillsburyCvts(e: EqId): Power
    requires IsPowerLaw(e)
  {
    match e
    case E32 => Power(0.0120372263, 2.02232, 0.68638)
    case E33 => Power(0.0057821322, 1.94553, 0.88389)
    case E34 => Power(0.0058870024, 1.94165, 0.86562)
    case E35 => Power(0.0042870077, 2.33631, 0.74872)
    case E36 => Power(0.0191453191, 2.40248, 0.28060)
    case E37 => Power(0.0101786350, 2.22462, 0.57561)
    case E38 => Power(0.0070538108, 1.97437, 0.85034)
    case E39 => Power(0.0125103008, 2.33089, 0.46100)
    case E40 => Power(0.0067322665, 1.96628, 0.83458)
    case E41 => Power(0.0072695058, 2.14321, 0.74220)
    case E42 => Power(0.0097438611, 2.20527, 0.61190)
    case E43 => Power(0.0065261029, 2.31958, 0.62528)
    case E44 => Power(0.0136818837, 2.02989, 0.63257)
  }

  function PillsburyCv4(e: EqId): Power
    requires IsPowerLaw(e)
  {
    match e
    case E32 => Power(0.0055212937, 2.07202, 0.77467)
    case E33 => Power(0.0016380753, 2.05910, 1.05293)
    case E34 => Power(0.0005774970, 2.19576, 1.14078)
    case E35 => Power(0.0009684363, 2.39565, 0.98878)
    case E36 => Power(0.0053866353, 2.61268, 0.31103)
    case E37 => Power(0.0034214162, 2.35347, 0.69586)
    case E38 => Power(0.0036795695, 2.12635, 0.83339)
    case E39 => Power(0.0042324071, 2.53987, 0.50591)
    case E40 => Power(0.0025616425, 1.99295, 1.01532)
    case E41 => Power(0.0024277027, 2.25575, 0.87108)
    case E42 => Power(0.0031670596, 2.32519, 0.74348)
    case E43 => Power(0.0024574847, 2.53284, 0.60764)
    case E44 => Power(0.0041192264, 2.14915, 0.77843)
  }

  /** CV8 coefficients of the power-law hardwoods that have their own CV8
      equation (all but equation 36). `packageVersion` selects the package's
      table, whose equation 33 repeats equation 32's coefficients. */
  function PillsburyCv8(e: EqId, packageVersion: bool): Power
    requires IsPowerLaw(e) && e != E36
  {
    match e
    case E32 => Power(0.0018985111, 2.38285, 0.77105)
    case E33 =>
      if packageVersion then Power(0.0018985111, 2.38285, 0.77105)
      else Power(0.0007741517, 2.23009, 1.03700)
    case E34 => Power(0.0002526443, 2.30949, 1.21069)
    case E35 => Power(0.0001880044, 1.87346, 1.62443)
    case E37 => Power(0.0004236332, 2.10316, 1.08584)
    case E38 => Power(0.0012478663, 2.68099, 0.42441)
    case E39 => Power(0.0036912408, 1.79732, 0.83884)
    case E40 => Power(0.0006181530, 1.72635, 1.26462)
    case E41 => Power(0.0008281647, 2.10651, 0.91215)
    case E42 => Power(0.0006540144, 2.24437, 0.81358)
    case E43 => Power(0.0006540144, 2.24437, 0.81358)
    case E44 => Power(0.0006540144, 2.24437, 0.81358)
  }

  /** The exponent of the form class in the CV8 equation. */
  function FormClassExponent(e: EqId): real
    requires HasFormClass(e)
  {
    match e
    case E37 => 0.40017
    case E38 => 0.28385
    case E39 => 0.15958
    case E40 => 0.37868
    case E41 => 0.32652
    case E42 => 0.43381
    case E43 => 0.43381
    case E44 => 0.43381
  }

  /** Form factors at 16 feet for the diameter classes below 11, 11-21, 21-31,
      31-41 and from 41 inches. */
  datatype FormFactors = FormFactors(f0: real, f11: real, f21: real, f31: real, f41: real)

  function FormFactorTable(e: EqId): FormFactors
    requires HasFormClass(e)
  {
    match e
    case E37 => FormFactors(84.0, 84.0, 82.0, 81.0, 80.0)
    case E38 => FormFactors(95.0, 95.0, 84.0, 82.0, 82.0)
    case E39 => FormFactors(95.0, 95.0, 86.0, 82.0, 82.0)
    case E40 => FormFactors(95.0, 86.0, 82.0, 79.0, 79.0)
    case E41 => FormFactors(95.0, 95.0, 89.0, 89.0, 89.0)
    case E42 => FormFactors(94.0, 94.0, 85.0, 80.0, 80.0)
    case E43 => FormFactors(95.0, 95.0, 86.0, 82.0, 82.0)
    case E44 => FormFactors(95.0, 95.0, 95.0, 95.0, 95.0)
  }

  /** The form factor of the tree's diameter class. */
  function FormFactor(e: EqId, d: real): (ff: real)
    requires HasFormClass(e)
    ensures 79.0 <= ff <= 95.0
  {
    var t := FormFactorTable(e);
    if d < 11.0 then t.f0
    else if d < 21.0 then t.f11
    else if d < 31.0 then t.f21
    else if d < 41.0 then t.f31
    else t.f41
  }

  /** Diameter at 9 feet, interpolating the form factor linearly between
      breast height (4.5 ft) and 16 feet. */
  function Diameter9ft(e: EqId, d: real): real
    requires HasFormClass(e)
  {
    var ff9 := 100.0 + (FormFactor(e, d) - 100.0) * (9.0 - 4.5) / (16.0 - 4.5);
    ff9 / 100.0 * d
  }

  /** Pillsbury's form class: 10 for a tree at least 9 feet tall and 9 inches
      across at 9 feet, 1 otherwise. */
  function FormClass(e: EqId, d: real, h: real): real
    requires HasFormClass(e)
  {
    if Diameter9ft(e, d) >= 9.0 && h >= 9.0 then 10.0 else 1.0
  }

  /** The form class is 1 or 10, and it is 1 for a tree under 9 feet tall or
      under 9 inches at breast height (the stem tapers, so the 9-foot diameter
      never exceeds the breast-height one). */
  lemma {:induction false} FormClassValues(e: EqId, d: real, h: real)
    requires HasFormClass(e)
    ensures FormClass(e, d, h) == 1.0 || FormClass(e, d, h) == 10.0
    ensures h < 9.0 || d < 9.0 ==> FormClass(e, d, h) == 1.0
    ensures FormClass(e, d, h) == 10.0 <==> Diameter9ft(e, d) >= 9.0 && h >= 9.0
  {
    var ff := FormFactor(e, d);
    var ff9 := 100.0 + (ff - 100.0) * (9.0 - 4.5) / (16.0 - 4.5);
    assert 0.0 < ff9 <= 100.0;
    if d < 9.0 {
      var r := ff9 / 100.0;
      assert 0.0 < r <= 1.0;
      if d >= 0.0 {
        assert r * d <= d;
      } else {
        assert r * d < 0.0;
      }
      assert Diameter9ft(e, d) == r * d;
    }
  }

  /** Red alder's taper function F at height h (clipped to at least 18 by the
      caller) and relative height z. */
  function RedAlderTaper(m: Math, d: real, h: real): real
    requires h >= 18.0
  {
    var z := (h - 0.5 - d / 24.0) / (h - 4.5);
    var z25, z4, z33, z41 := m.pow(z, 2.5), m.pow(z, 4.0), m.pow(z, 33.0), m.pow(z, 41.0);
    var rh := m.pow(h, 0.5);
    0.3651 * z25 - 7.9032 * z25 * d / 1000.0 + 3.295 * z25 * h / 1000.0
    - 1.9856 * z25 * h * d / 100000.0 + -2.9668 * z25 * (h * h) / 1000000.0
    + 1.5092 * z25 * rh / 1000.0 + 4.9395 * z4 * d / 1000.0 + -2.05937 * z4 * h / 1000.0
    + 1.5042 * z33 * h * d / 1000000.0 - 1.1433 * z33 * rh / 10000.0
    + 1.809 * z41 * (h * h) / 10000000.0
  }

  /** Red alder's CVT for a height already clipped to at least 18 feet. */
  function RedAlderCvt(m: Math, d: real, h: real): real
    requires h >= 18.0
  {
    0.00545415 * (d * d) * (h - 4.5) * RedAlderTaper(m, d, h)
  }

  /** Chojnacky's cubed volume for the pinyon-juniper equations, from the cube
      root of the size factor and the single-stem indicator `s`. */
  function JuniperCube(e: EqId, root: real, s: real): real
    requires e in {E14, E14_1, E14_2}
  {
    match e
    case E14 => Cube(-0.13386 + 0.133726 * root + 0.036329 * s)
    case E14_1 => Cube(-0.14240 + 0.148190 * root - 0.16712 * s)
    case E14_2 => Cube(0.02434 + 0.119106 * root)
  }

  /** Mountain mahogany's cubed volume: the 0.080208 term applies to a
      single-stemmed tree only. */
  function MahoganyCube(root: real, singleStem: bool): real {
    if singleStem then Cube(-0.13363 + 0.128222 * root + 0.080208)
    else Cube(-0.13363 + 0.128222 * root)
  }

  /** The size variable of the mesquite equation, DRC^2 HT / 1000. */
  function MesquiteSize(drc: real, h: real): real {
    drc * drc * h / 1000.0
  }

  /** The single-stem mesquite curve: quadratic up to x = 2, then a
      reciprocal form. */
  function MesquiteSingle(x: real): real {
    if x <= 2.0 then -0.043 + 2.3378 * x + 0.8024 * (x * x)
    else 9.586 + 2.3378 * x - 12.839 / x
  }

  /** The multi-stem quadratic, used up to x = 2. */
  function MesquiteMultiSmall(x: real): real {
    0.020 + 1.8972 * x + 0.5756 * (x * x)
  }

  /** The multi-stem reciprocal form the class versions use above x = 2. */
  function MesquiteMultiLarge(x: real): real
    requires x > 2.0
  {
    6.927 + 1.8972 * x - 9.210 / x
  }
}
