/** The cubic-form-factor softwoods (equations 3, 5, 16, 18, 19, 20 and 23):
    CV4 = CF4 BA HT, and a tarif number computed in two regimes, directly for
    trees of at least 6 inches and from a 6-inch stand-in tree, scaled up by a
    correction factor, for smaller ones. */
module Taper {
  import opened Numeric
  import opened Species
  import opened Formulas
  import opened Metrics

  /** The species' form factor equation, before clamping. */
  function Cf4Raw(e: EqId, d: real, h: real): real
    requires IsFormFactor(e)
  {
    match e
    case E3 => 0.248569 + 0.0253524 * Div(h, d) - 0.0000560175 * Div(h * h, d)
    case E5 => 0.402060 - 0.899914 * Div(1.0, d)
    case E16 => 0.422709 - 0.0000612236 * Div(h * h, d)
    case E18 => 0.231237 + 0.028176 * Div(h, d)
    case E19 => 0.225786 + 4.44236 * Div(1.0, h)
    case E20 => 0.358550 - 0.488134 * Div(1.0, d)
    case E23 => 0.299039 + 1.91272 * Div(1.0, h) + 0.0000367217 * Div(h * h, d)
  }

  /** CF4 as the package and the class versions clamp it: into [0.3, 0.4],
      except equation 19, which is only floored at 0.27. */
  function Cf4(e: EqId, d: real, h: real): (cf4: real)
    requires IsFormFactor(e)
    ensures e != E19 ==> 0.3 <= cf4 <= 0.4
    ensures e == E19 ==> cf4 >= 0.27
    ensures cf4 > 0.0
  {
    if e == E19 then ClipLow(Cf4Raw(e, d, h), 0.27) else Clip(Cf4Raw(e, d, h), 0.3, 0.4)
  }

  /** CF4 as the function version clamps it: into [0.3, 0.4] for every
      equation, 19 included. */
  function FunctionCf4(e: EqId, d: real, h: real): (cf4: real)
    requires IsFormFactor(e)
    ensures 0.3 <= cf4 <= 0.4
    ensures e != E19 ==> cf4 == Cf4(e, d, h)
  {
    Clip(Cf4Raw(e, d, h), 0.3, 0.4)
  }

  /** The small-tree correction 0.5 (6 - d)^2 + (1 + 0.063 (6 - d)^2). */
  function SmallTreeCorrection(d: real): real {
    0.5 * Sq(6.0 - d) + (1.0 + 0.063 * Sq(6.0 - d))
  }

  /** The correction never shrinks the stand-in tree's tarif number, and it
      strictly enlarges it below 6 inches. */
  lemma {:induction false} CorrectionAtLeastOne(d: real)
    ensures SmallTreeCorrection(d) >= 1.0
    ensures d < 6.0 ==> SmallTreeCorrection(d) > 1.0
  {
    SqNonNegative(6.0 - d);
    if d < 6.0 {
      SqPositive(6.0 - d);
    }
  }

  /** CV4 of a form-factor tree: CF4 BA HT. */
  function FormCv4(cf4: real, d: real, h: real): real {
    cf4 * BasalArea(d) * h
  }

  /** The tarif number of a CV4 volume, CV4 0.912733 / (BA - 0.087266). The
      divisor is positive from 6 inches, the only diameters it is used at. */
  function Cv4Tarif(cv4: real, d: real): real {
    Div(cv4 * 0.912733, BasalArea(d) - 0.087266)
  }

  lemma {:induction false} FormCv4Positive(cf4: real, d: real, h: real)
    requires cf4 > 0.0 && d > 0.0 && h > 0.0
    ensures FormCv4(cf4, d, h) > 0.0
  {
    var ba := BasalArea(d);
    assert (d * d) / d == d;
    assert ba > 0.0;
    MulPositive(cf4, ba);
    MulPositive(cf4 * ba, h);
  }

  lemma {:induction false} Cv4TarifPositive(cv4: real, d: real)
    requires cv4 > 0.0 && d >= 6.0
    ensures Cv4Tarif(cv4, d) > 0.0
  {
    var v, q := cv4 * 0.912733, BasalArea(d) - 0.087266;
    assert v > 0.0 && q > 0.0;
    assert Div(v, q) == v / q;
  }

  /** Converting a tarif number to CV4 and back returns it, for any tree of
      at least 6 inches. */
  lemma {:induction false} TarifCv4RoundTrip(d: real, t: real)
    requires d >= 6.0
    ensures Cv4Tarif(Cv4FromTarif(d, t), d) == t
  {
    var q := BasalArea(d) - 0.087266;
    assert q > 0.0;
    var cv4 := Cv4FromTarif(d, t);
    assert cv4 == t * q / 0.912733;
    assert cv4 * 0.912733 == t * q;
    var r := Cv4Tarif(cv4, d);
    assert r * q == t * q;
    assert r == t by {
      assert (r - t) * q == 0.0;
    }
  }

  // ---------------------------------------------------------------------
  // The package version (arb_carbon/equations/volume.py)
  // ---------------------------------------------------------------------

  /** `calc_cv4`: CF4 BA HT, zeroed below 5 inches or for a height of at most 0. */
  function PackageCv4(e: EqId, d: real, h: real): real
    requires IsFormFactor(e)
  {
    Mask(CV4, d, h, FormCv4(Cf4(e, d, h), d, h))
  }

  /** The stand-in 6-inch tree's tarif number, floored at 0.01. */
  function PackageStandInTarif(e: EqId, h: real): real
    requires IsFormFactor(e)
  {
    ClipLow(Cv4Tarif(PackageCv4(e, 6.0, h), 6.0), 0.01)
  }

  /** The tarif number before its final floor: the corrected stand-in value
      below 6 inches, CV4's own tarif from 6 inches. */
  function PackagePreFloorTarif(e: EqId, d: real, h: real): real
    requires IsFormFactor(e)
  {
    if d < 6.0 then PackageStandInTarif(e, h) * SmallTreeCorrection(d)
    else Cv4Tarif(PackageCv4(e, d, h), d)
  }

  /** `calc_tarif` of the form-factor equations. */
  function PackageTarif(e: EqId, d: real, h: real): (r: real)
    requires IsFormFactor(e)
    ensures Masked(TARIF, d, h) ==> r == 0.0
    ensures !Masked(TARIF, d, h) ==> r >= 0.01
  {
    Mask(TARIF, d, h, ClipLow(PackagePreFloorTarif(e, d, h), 0.01))
  }

  /** Equation 5's `calc_tarif` as written: its CV4 and stand-in CV4 are the
      bare products CF4 BA HT, without the diameter and height mask. */
  function PackageEq5Tarif(d: real, h: real): real {
    var cv4 := FormCv4(Cf4(E5, d, h), d, h);
    var cv4Six := FormCv4(Cf4(E5, 6.0, h), 6.0, h);
    var standIn := ClipLow(Cv4Tarif(cv4Six, 6.0), 0.01);
    var pre := if d < 6.0 then standIn * SmallTreeCorrection(d) else Cv4Tarif(cv4, d);
    Mask(TARIF, d, h, ClipLow(pre, 0.01))
  }

  /** `calc_cvts`: below 6 inches from the tarif number, otherwise from CV4. */
  function PackageCvts(m: Math, e: EqId, d: real, h: real): real
    requires IsFormFactor(e)
  {
    Mask(CVTS, d, h, CvtsByRegime(d, PackageTarif(e, d, h), PackageCv4(e, d, h), TermTenth(m, d)))
  }

  /** The unmasked `calc_cvts` from the tree's tarif number, CV4 and term. */
  function CvtsByRegime(d: real, tarif: real, cv4: real, term: real): real {
    if d < 6.0 then tarif * term else Div(cv4 * term, BasalArea(d) - 0.087266)
  }

  /** `calc_cvt`: the tarif number turned into volume above the stump. */
  function PackageCvt(m: Math, e: EqId, d: real, h: real): real
    requires IsFormFactor(e)
  {
    Mask(CVT, d, h, CvtFromTarif(m, d, PackageTarif(e, d, h)))
  }

  /** The two regimes of `calc_cvts`: below 6 inches CVTS is the tarif
      number times the term, from 6 inches it is CV4's tarif number times the
      term divided by 0.912733, so the regimes differ by that factor. */
  lemma {:induction false} PackageCvtsRegimes(m: Math, e: EqId, d: real, h: real)
    requires IsFormFactor(e) && d >= 1.0 && h > 0.0
    ensures d < 6.0 ==> SmallRegime(PackageCvts(m, e, d, h), PackageTarif(e, d, h), TermTenth(m, d))
    ensures d >= 6.0 ==> LargeRegime(PackageCvts(m, e, d, h), PackageCv4(e, d, h), d, TermTenth(m, d))
  {
    var tarif, cv4, term := PackageTarif(e, d, h), PackageCv4(e, d, h), TermTenth(m, d);
    MaskedCvtsByRegime(d, h, tarif, cv4, term, PackageCvts(m, e, d, h));
  }

  /** CVTS below 6 inches: the tarif number times the term. */
  predicate SmallRegime(cvts: real, tarif: real, term: real) {
    cvts == tarif * term
  }

  /** CVTS from 6 inches: 0.912733 CVTS is CV4's tarif number times the term. */
  predicate LargeRegime(cvts: real, cv4: real, d: real, term: real) {
    cvts * 0.912733 == Cv4Tarif(cv4, d) * term
  }

  /** The regimes for any masked CVTS value of a kept tree. */
  lemma {:induction false} MaskedCvtsByRegime(d: real, h: real, tarif: real, cv4: real, term: real, cvts: real)
    requires d >= 1.0 && h > 0.0
    requires cvts == Mask(CVTS, d, h, CvtsByRegime(d, tarif, cv4, term))
    ensures d < 6.0 ==> SmallRegime(cvts, tarif, term)
    ensures d >= 6.0 ==> LargeRegime(cvts, cv4, d, term)
  {
    CvtsMaskInactive(d, h, CvtsByRegime(d, tarif, cv4, term));
    if d >= 6.0 {
      LargeCvtsByRegime(d, tarif, cv4, term);
    }
  }

  /** CVTS is kept, whatever its value, on a tree of at least 1 inch and
      positive height. */
  lemma {:induction false} CvtsMaskInactive(d: real, h: real, x: real)
    requires d >= 1.0 && h > 0.0
    ensures Mask(CVTS, d, h, x) == x
  {
    MaskThresholds(CVTS, d, h, x);
  }

  lemma {:induction false} LargeCvtsByRegime(d: real, tarif: real, cv4: real, term: real)
    requires d >= 6.0
    ensures CvtsByRegime(d, tarif, cv4, term) * 0.912733 == Cv4Tarif(cv4, d) * term
  {
    var b := BasalArea(d) - 0.087266;
    assert CvtsByRegime(d, tarif, cv4, term) == Div(cv4 * term, b);
    DivSwapFactor(cv4, term, b, 0.912733);
  }

  /** Dropping the mask from equation 5's CV4 values changes nothing: the
      diameter mask cannot fire on the branch that reads them, and the height
      mask fires on the final result anyway. */
  lemma {:induction false} Eq5TarifAgrees(d: real, h: real)
    ensures PackageEq5Tarif(d, h) == PackageTarif(E5, d, h)
  {
    if !Masked(TARIF, d, h) {
      assert PackageCv4(E5, 6.0, h) == FormCv4(Cf4(E5, 6.0, h), 6.0, h);
      if d >= 6.0 {
        assert PackageCv4(E5, d, h) == FormCv4(Cf4(E5, d, h), d, h);
      }
    }
  }

  /** CV4 is never negative, and it is 0 exactly below 5 inches or for a
      height of at most 0. */
  lemma {:induction false} PackageCv4Bounds(e: EqId, d: real, h: real)
    requires IsFormFactor(e)
    ensures PackageCv4(e, d, h) >= 0.0
    ensures d < 5.0 || h <= 0.0 ==> PackageCv4(e, d, h) == 0.0
    ensures d >= 5.0 && h > 0.0 ==> PackageCv4(e, d, h) > 0.0
  {
    if d >= 5.0 && h > 0.0 {
      FormCv4Positive(Cf4(e, d, h), d, h);
    }
  }

  /** Before the final floor the tarif number already clears it for trees
      under 6 inches (the stand-in value is at least 0.01 and the correction at
      least 1), and it is positive from 6 inches, because CV4 > 0 and
      BA - 0.087266 > 0 there. */
  lemma {:induction false} PackagePreFloorTarifBounds(e: EqId, d: real, h: real)
    requires IsFormFactor(e)
    requires d > 0.0 && h > 0.0
    ensures d < 6.0 ==> PackagePreFloorTarif(e, d, h) >= 0.01
    ensures d >= 6.0 ==> PackagePreFloorTarif(e, d, h) > 0.0
  {
    if d < 6.0 {
      CorrectionAtLeastOne(d);
      var t, c := PackageStandInTarif(e, h), SmallTreeCorrection(d);
      assert t >= 0.01 && c >= 1.0;
      MulMonotone(1.0, c, t);
    } else {
      PackageCv4Bounds(e, d, h);
      Cv4TarifPositive(PackageCv4(e, d, h), d);
    }
  }

  /** The package's form-factor tarif number is at least 0.01 for a real tree
      and 0 otherwise; below 6 inches it is exactly the corrected stand-in
      value, so the final floor never changes it there. */
  lemma {:induction false} PackageTarifBounds(e: EqId, d: real, h: real)
    requires IsFormFactor(e)
    ensures d > 0.0 && h > 0.0 ==> PackageTarif(e, d, h) >= 0.01
    ensures d <= 0.0 || h <= 0.0 ==> PackageTarif(e, d, h) == 0.0
    ensures 0.0 < d < 6.0 && h > 0.0 ==>
              PackageTarif(e, d, h) == PackageStandInTarif(e, h) * SmallTreeCorrection(d)
  {
    if d > 0.0 && h > 0.0 {
      PackagePreFloorTarifBounds(e, d, h);
    }
  }

  // ---------------------------------------------------------------------
  // The class and function versions (scripts/ and the top-level module)
  // ---------------------------------------------------------------------

  /** The cubic volumes and tarif number one equation computes. */
  datatype Cubic = Cubic(cvts: real, tarif: real, cvt: real, cv4: real)

  /** The `if x <= 0: x = floor` statements of the class and function versions. */
  function FloorNonPositive(x: real, floor: real): (r: real)
    ensures x > 0.0 ==> r == x
    ensures x <= 0.0 ==> r == floor
  {
    if x <= 0.0 then floor else x
  }

  /** The stand-in 6-inch tree's tarif number, floored only when it is not
      positive. */
  function ClassStandInTarif(cf4Six: real, h: real): real {
    FloorNonPositive(Cv4Tarif(FormCv4(cf4Six, 6.0, h), 6.0), 0.01)
  }

  /** The class and function versions' tarif number, for the tree's clamped
      CF4 and the stand-in tree's. */
  function ClassTarif(d: real, h: real, cf4: real, cf4Six: real): real {
    if d >= 6.0 then FloorNonPositive(Cv4Tarif(FormCv4(cf4, d, h), d), 0.01)
    else FloorNonPositive(ClassStandInTarif(cf4Six, h) * SmallTreeCorrection(d), 0.01)
  }

  /** The two-regime computation shared by the class and the function
      versions. Neither version masks here; CV4 alone is zeroed below 5 inches. */
  function ClassTaper(m: Math, d: real, h: real, cf4: real, cf4Six: real): Cubic {
    var ba := BasalArea(d);
    var term := TermTenth(m, d);
    var tarif := ClassTarif(d, h, cf4, cf4Six);
    var cvts := if d >= 6.0 then Div(FormCv4(cf4, d, h) * term, ba - 0.087266) else tarif * term;
    Cubic(cvts, tarif, CvtFromTarif(m, d, tarif), if d < 5.0 then 0.0 else FormCv4(cf4, d, h))
  }

  /** For a real tree and a positive CF4 (which the clamps guarantee) none of
      the class version's `<= 0` floors can fire: the tarif number is the
      plain formula of its regime, and it is positive. */
  lemma {:induction false} ClassTarifFloorsUnreached(d: real, h: real, cf4: real, cf4Six: real)
    requires d > 0.0 && h > 0.0 && cf4 > 0.0 && cf4Six > 0.0
    ensures ClassTarif(d, h, cf4, cf4Six) > 0.0
    ensures d >= 6.0 ==> ClassTarif(d, h, cf4, cf4Six) == Cv4Tarif(FormCv4(cf4, d, h), d)
    ensures d < 6.0 ==> ClassTarif(d, h, cf4, cf4Six)
                        == Cv4Tarif(FormCv4(cf4Six, 6.0, h), 6.0) * SmallTreeCorrection(d)
  {
    if d >= 6.0 {
      FormCv4Positive(cf4, d, h);
      Cv4TarifPositive(FormCv4(cf4, d, h), d);
    } else {
      FormCv4Positive(cf4Six, 6.0, h);
      Cv4TarifPositive(FormCv4(cf4Six, 6.0, h), 6.0);
      var s := ClassStandInTarif(cf4Six, h);
      CorrectionAtLeastOne(d);
      MulPositive(s, SmallTreeCorrection(d));
    }
  }

  /** From 6 inches the package's tarif number is the class version's,
      floored at 0.01. */
  lemma {:induction false} TaperTarifVersionsLarge(e: EqId, d: real, h: real)
    requires IsFormFactor(e)
    requires d >= 6.0 && h > 0.0
    ensures PackageTarif(e, d, h) == ClipLow(ClassTarif(d, h, Cf4(e, d, h), Cf4(e, 6.0, h)), 0.01)
  {
    ClassTarifFloorsUnreached(d, h, Cf4(e, d, h), Cf4(e, 6.0, h));
    assert PackageCv4(e, d, h) == FormCv4(Cf4(e, d, h), d, h);
  }

  /** Below 6 inches the package's tarif number is the stand-in tree's raw
      tarif, floored at 0.01, times the small-tree correction. */
  lemma {:induction false} PackageSmallTarif(e: EqId, d: real, h: real)
    requires IsFormFactor(e)
    requires 0.0 < d < 6.0 && h > 0.0
    ensures PackageTarif(e, d, h)
            == ClipLow(Cv4Tarif(FormCv4(Cf4(e, 6.0, h), 6.0, h), 6.0), 0.01) * SmallTreeCorrection(d)
  {
    PackageTarifBounds(e, d, h);
    assert PackageCv4(e, 6.0, h) == FormCv4(Cf4(e, 6.0, h), 6.0, h);
  }

  /** Below 6 inches the package's and the class version's tarif numbers are
      equal exactly when the stand-in tree's value reaches 0.01, the package's
      floor for it. */
  lemma {:induction false} TaperTarifVersionsSmall(e: EqId, d: real, h: real)
    requires IsFormFactor(e)
    requires 0.0 < d < 6.0 && h > 0.0
    ensures PackageTarif(e, d, h) == ClassTarif(d, h, Cf4(e, d, h), Cf4(e, 6.0, h))
            <==> Cv4Tarif(FormCv4(Cf4(e, 6.0, h), 6.0, h), 6.0) >= 0.01
  {
    PackageSmallTarif(e, d, h);
    SmallTarifsAgree(d, h, Cf4(e, d, h), Cf4(e, 6.0, h));
  }

  /** The stand-in tree's tarif number, floored at 0.01 and corrected, is the
      class version's tarif number exactly when the floor does not fire. */
  lemma {:induction false} SmallTarifsAgree(d: real, h: real, cf4: real, cf4Six: real)
    requires 0.0 < d < 6.0 && h > 0.0 && cf4 > 0.0 && cf4Six > 0.0
    ensures var raw := Cv4Tarif(FormCv4(cf4Six, 6.0, h), 6.0);
            ClipLow(raw, 0.01) * SmallTreeCorrection(d) == ClassTarif(d, h, cf4, cf4Six) <==> raw >= 0.01
  {
    var raw := Cv4Tarif(FormCv4(cf4Six, 6.0, h), 6.0);
    var k := SmallTreeCorrection(d);
    ClassTarifFloorsUnreached(d, h, cf4, cf4Six);
    FormCv4Positive(cf4Six, 6.0, h);
    Cv4TarifPositive(FormCv4(cf4Six, 6.0, h), 6.0);
    CorrectionAtLeastOne(d);
    if raw < 0.01 {
      MulStrictlyMonotone(raw, 0.01, k);
    }
  }
}
