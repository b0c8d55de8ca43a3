/** The package version of the volume engine (arb_carbon/equations/volume.py):
    one class per equation, each metric computed by its own `calc_*` method,
    clipped where the code clips and zeroed by the metric's diameter and height
    mask. One tree at a time; numpy's element-wise evaluation is left out. */
module PackageVolume {
  import opened Wrappers
  import opened Numeric
  import opened Species
  import opened Formulas
  import opened Metrics
  import opened Taper

  /** `ValueError` for an unknown metric name, `NotImplementedError` for a
      metric the equation's class does not define. */
  datatype VolumeError = UnrecognizedMetric | NotImplemented

  // ---------------------------------------------------------------------
  // Species with their own CVTS equation (softwood and hardwood tarif forms)
  // ---------------------------------------------------------------------

  /** `calc_cvts`: the species equation, masked; western juniper's is first
      clipped at 0. */
  function TarifFamilyCvts(m: Math, e: EqId, d: real, h: real): real
    requires HasCvtsEquation(e)
  {
    var raw := CvtsEquation(m, e, d, h);
    Mask(CVTS, d, h, if e == E21 then ClipLow(raw, 0.0) else raw)
  }

  /** `calc_tarif`: the masked CVTS divided by the species' tarif term. */
  function TarifFamilyTarif(m: Math, e: EqId, d: real, h: real): real
    requires HasCvtsEquation(e)
  {
    Mask(TARIF, d, h, Div(TarifFamilyCvts(m, e, d, h) * 0.912733, TarifTerm(m, e, d)))
  }

  /** `calc_cv4`: from the tarif number, except western juniper's, which is
      computed from CVTS. */
  function TarifFamilyCv4(m: Math, e: EqId, d: real, h: real): real
    requires HasCvtsEquation(e)
  {
    Mask(CV4, d, h,
         if e == E21 then JuniperCv4(m, d, TarifFamilyCvts(m, e, d, h))
         else Cv4FromTarif(d, TarifFamilyTarif(m, e, d, h)))
  }

  /** `calc_cvt`. */
  function TarifFamilyCvt(m: Math, e: EqId, d: real, h: real): real
    requires HasCvtsEquation(e)
  {
    Mask(CVT, d, h, CvtFromTarif(m, d, TarifFamilyTarif(m, e, d, h)))
  }

  // ---------------------------------------------------------------------
  // Red alder (equation 25): every base metric clips the height at 18 first
  // ---------------------------------------------------------------------

  /** The height the alder methods work with, `np.clip(ht, 18, None)`. */
  function AlderHeight(h: real): (h18: real)
    ensures h18 >= 18.0
    ensures h >= 18.0 ==> h18 == h
  {
    Max(h, 18.0)
  }

  function AlderCvt(m: Math, d: real, h: real): real {
    var h18 := AlderHeight(h);
    Mask(CVT, d, h18, RedAlderCvt(m, d, h18))
  }

  function AlderTarif(m: Math, d: real, h: real): real {
    var h18 := AlderHeight(h);
    Mask(TARIF, d, h18, Div(AlderCvt(m, d, h18) * 0.912733, Rts(m, d) * TermTenth(m, d)))
  }

  function AlderCvts(m: Math, d: real, h: real): real {
    var h18 := AlderHeight(h);
    Mask(CVTS, d, h18, ClipLow(AlderTarif(m, d, h18) * TermTenth(m, d) / 0.912733, 0.0))
  }

  function AlderCv4(m: Math, d: real, h: real): real {
    var h18 := AlderHeight(h);
    Mask(CV4, d, h18, Cv4FromTarif(d, AlderTarif(m, d, h18)))
  }

  // ---------------------------------------------------------------------
  // Pillsbury power-law hardwoods (equations 32-44)
  // ---------------------------------------------------------------------

  function PowerLawCvts(m: Math, e: EqId, d: real, h: real): real
    requires IsPowerLaw(e)
  {
    Mask(CVTS, d, h, PowerLaw(m, PillsburyCvts(e), d, h))
  }

  function PowerLawCv4(m: Math, e: EqId, d: real, h: real): real
    requires IsPowerLaw(e)
  {
    Mask(CV4, d, h, PowerLaw(m, PillsburyCv4(e), d, h))
  }

  /** `calc_cv8`: equation 36 reuses its CV4, equations 37-44 multiply by the
      form class raised to the species' exponent. */
  function PowerLawCv8(m: Math, e: EqId, d: real, h: real): real
    requires IsPowerLaw(e)
  {
    if e == E36 then Mask(CV8, d, h, PowerLawCv4(m, e, d, h))
    else if HasFormClass(e) then
      Mask(CV8, d, h, PowerLaw(m, PillsburyCv8(e, true), d, h)
                      * m.pow(FormClass(e, d, h), FormClassExponent(e)))
    else Mask(CV8, d, h, PowerLaw(m, PillsburyCv8(e, true), d, h))
  }

  function PowerLawCvt(m: Math, e: EqId, d: real, h: real): real
    requires IsPowerLaw(e)
  {
    Mask(CVT, d, h, PowerLawCvts(m, e, d, h) * Rts(m, d))
  }

  function PowerLawTarif(m: Math, e: EqId, d: real, h: real): real
    requires IsPowerLaw(e)
  {
    Mask(TARIF, d, h, PillsburyTarifRaw(m, d, PowerLawCv8(m, e, d, h)))
  }

  // ---------------------------------------------------------------------
  // The base metrics of every equation that is not a root-collar species
  // ---------------------------------------------------------------------

  function Cvts(m: Math, e: EqId, d: real, h: real): real
    requires !IsDrc(e)
  {
    PowerLawRemainder(e);
    if IsFormFactor(e) then PackageCvts(m, e, d, h)
    else if e == E25 then AlderCvts(m, d, h)
    else if HasCvtsEquation(e) then TarifFamilyCvts(m, e, d, h)
    else PowerLawCvts(m, e, d, h)
  }

  function Tarif(m: Math, e: EqId, d: real, h: real): real
    requires !IsDrc(e)
  {
    PowerLawRemainder(e);
    if IsFormFactor(e) then PackageTarif(e, d, h)
    else if e == E25 then AlderTarif(m, d, h)
    else if HasCvtsEquation(e) then TarifFamilyTarif(m, e, d, h)
    else PowerLawTarif(m, e, d, h)
  }

  function Cvt(m: Math, e: EqId, d: real, h: real): real
    requires !IsDrc(e)
  {
    PowerLawRemainder(e);
    if IsFormFactor(e) then PackageCvt(m, e, d, h)
    else if e == E25 then AlderCvt(m, d, h)
    else if HasCvtsEquation(e) then TarifFamilyCvt(m, e, d, h)
    else PowerLawCvt(m, e, d, h)
  }

  function Cv4(m: Math, e: EqId, d: real, h: real): real
    requires !IsDrc(e)
  {
    PowerLawRemainder(e);
    if IsFormFactor(e) then PackageCv4(e, d, h)
    else if e == E25 then AlderCv4(m, d, h)
    else if HasCvtsEquation(e) then TarifFamilyCv4(m, e, d, h)
    else PowerLawCv4(m, e, d, h)
  }

  /** `calc_cv8` of the hardwoods: RC8 CV4 for the tarif forms (red alder
      with its clipped height), the species' own equation for the power laws. */
  function Cv8(m: Math, e: EqId, d: real, h: real): real
    requires !IsDrc(e) && Wood(e) == Hardwood
  {
    PowerLawRemainder(e);
    if e == E25 then
      var h18 := AlderHeight(h);
      Mask(CV8, d, h18, Rc8(m, d) * AlderCv4(m, d, h18))
    else if IsHardTarif(e) then Mask(CV8, d, h, Rc8(m, d) * TarifFamilyCv4(m, e, d, h))
    else PowerLawCv8(m, e, d, h)
  }

  // ---------------------------------------------------------------------
  // The softwood boardfoot layer (SoftwoodVolumeEquation)
  // ---------------------------------------------------------------------

  /** `calc_cv6`: RC6 CV4, but never more than CV4. */
  function SoftCv6(m: Math, e: EqId, d: real, h: real): (r: real)
    requires !IsDrc(e)
    ensures Masked(CV6, d, h) ==> r == 0.0
    ensures !Masked(CV6, d, h) ==> r <= Cv4(m, e, d, h)
  {
    Mask(CV6, d, h, CappedCv6(m, d, Cv4(m, e, d, h)))
  }

  /** RC6 CV4, but never more than CV4. */
  function CappedCv6(m: Math, d: real, cv4: real): (r: real)
    ensures r == Min(Rc6(m, d) * cv4, cv4)
  {
    var scaled := Rc6(m, d) * cv4;
    if scaled > cv4 then cv4 else scaled
  }

  /** The pattern of every boardfoot method: a ratio times a volume, clipped
      at 0 and then masked for the metric. It is 0 wherever the volume is. */
  function ClippedProduct(k: Metric, d: real, h: real, ratio: real, volume: real): (r: real)
    ensures r >= 0.0
    ensures Masked(k, d, h) || volume == 0.0 ==> r == 0.0
  {
    Mask(k, d, h, ClipLow(ratio * volume, 0.0))
  }

  /** `calc_sv616`, from the tarif number floored at 0.01. */
  function SoftSv616(m: Math, e: EqId, d: real, h: real): (r: real)
    requires !IsDrc(e)
    ensures r >= 0.0
    ensures Masked(SV616, d, h) || SoftCv6(m, e, d, h) == 0.0 ==> r == 0.0
  {
    var b4 := B4(ClipLow(Tarif(m, e, d, h), 0.01));
    ClippedProduct(SV616, d, h, m.pow(10.0, SoftRs616l(m, d, b4)), SoftCv6(m, e, d, h))
  }

  /** `calc_sv632`, from the tarif number floored at 0.01. */
  function SoftSv632(m: Math, e: EqId, d: real, h: real): (r: real)
    requires !IsDrc(e)
    ensures r >= 0.0
    ensures Masked(SV632, d, h) || SoftSv616(m, e, d, h) == 0.0 ==> r == 0.0
  {
    var tarif := ClipLow(Tarif(m, e, d, h), 0.01);
    ClippedProduct(SV632, d, h, Rs632(d, tarif), SoftSv616(m, e, d, h))
  }

  /** `calc_xint6`, from the tarif number as computed, with no floor. */
  function SoftXint6(m: Math, e: EqId, d: real, h: real): (r: real)
    requires !IsDrc(e)
    ensures r >= 0.0
    ensures Masked(XINT6, d, h) || SoftCv6(m, e, d, h) == 0.0 ==> r == 0.0
  {
    ClippedProduct(XINT6, d, h, Ri6(m, d, Tarif(m, e, d, h)), SoftCv6(m, e, d, h))
  }

  // ---------------------------------------------------------------------
  // The hardwood boardfoot layer (HardwoodVolumeEquation, _NoX and _WithX)
  // ---------------------------------------------------------------------

  /** The classes deriving from `HardwoodVolumeEquation_NoX` (equations
      25-31); the other hardwoods derive from `_WithX`. */
  predicate AppliesPolynomial(e: EqId) {
    IsHardTarif(e)
  }

  /** `calc_cv4x`: the polynomial-corrected CVT for `_NoX`, CVT itself for
      `_WithX`. The polynomial sees the unclipped height. */
  function Cv4x(m: Math, e: EqId, d: real, h: real): (r: real)
    requires !IsDrc(e) && Wood(e) == Hardwood
    ensures !AppliesPolynomial(e) ==> r == Cvt(m, e, d, h)
    ensures AppliesPolynomial(e) ==> r == Cvt(m, e, d, h) * Cv4xPolynomial(d, h)
  {
    if AppliesPolynomial(e) then Cvt(m, e, d, h) * Cv4xPolynomial(d, h) else Cvt(m, e, d, h)
  }

  /** `calc_tarifx`: derived from CV8 for `_NoX`, TARIF itself for `_WithX`. */
  function Tarifx(m: Math, e: EqId, d: real, h: real): (r: real)
    requires !IsDrc(e) && Wood(e) == Hardwood
    ensures !AppliesPolynomial(e) ==> r == Tarif(m, e, d, h)
    ensures AppliesPolynomial(e) ==> r == TarifxFromCv8(m, d, Cv8(m, e, d, h))
  {
    if AppliesPolynomial(e) then TarifxFromCv8(m, d, Cv8(m, e, d, h)) else Tarif(m, e, d, h)
  }

  function HardCv6(m: Math, e: EqId, d: real, h: real): (r: real)
    requires !IsDrc(e) && Wood(e) == Hardwood
    ensures r >= 0.0
    ensures Masked(CV6, d, h) || Cv4x(m, e, d, h) == 0.0 ==> r == 0.0
  {
    ClippedProduct(CV6, d, h, Rc6(m, d), Cv4x(m, e, d, h))
  }

  function HardSv616(m: Math, e: EqId, d: real, h: real): (r: real)
    requires !IsDrc(e) && Wood(e) == Hardwood
    ensures r >= 0.0
    ensures Masked(SV616, d, h) || HardCv6(m, e, d, h) == 0.0 ==> r == 0.0
  {
    var b4 := B4(Tarifx(m, e, d, h));
    ClippedProduct(SV616, d, h, m.pow(10.0, HardRs616l(m, d, b4)), HardCv6(m, e, d, h))
  }

  function HardSv816(m: Math, e: EqId, d: real, h: real): (r: real)
    requires !IsDrc(e) && Wood(e) == Hardwood
    ensures r >= 0.0
    ensures Masked(SV816, d, h) || HardSv616(m, e, d, h) == 0.0 ==> r == 0.0
  {
    ClippedProduct(SV816, d, h, Rs816(m, d), HardSv616(m, e, d, h))
  }

  function HardXint6(m: Math, e: EqId, d: real, h: real): (r: real)
    requires !IsDrc(e) && Wood(e) == Hardwood
    ensures r >= 0.0
    ensures Masked(XINT6, d, h) || HardCv6(m, e, d, h) == 0.0 ==> r == 0.0
  {
    ClippedProduct(XINT6, d, h, Ri6(m, d, Tarifx(m, e, d, h)), HardCv6(m, e, d, h))
  }

  function HardXint8(m: Math, e: EqId, d: real, h: real): (r: real)
    requires !IsDrc(e) && Wood(e) == Hardwood
    ensures r >= 0.0
    ensures Masked(XINT8, d, h) || HardXint6(m, e, d, h) == 0.0 ==> r == 0.0
  {
    ClippedProduct(XINT8, d, h, Ri8(m, d), HardXint6(m, e, d, h))
  }

  // ---------------------------------------------------------------------
  // Root-collar species (equations 14, 14.1, 14.2, 45 and 46)
  // ---------------------------------------------------------------------

  /** `calc_cvts(drc, ht, stems)` of the root-collar species, floored at 0.1
      and then masked. Equation 14.2 has no stem argument; equation 45's size
      factor falls back to 1 (the juniper equations' to 0) below 3 inches. */
  function DrcCvts(m: Math, e: EqId, drc: real, h: real, stems: real): (r: real)
    requires IsDrc(e)
    ensures Masked(CVTS, drc, h) ==> r == 0.0
    ensures !Masked(CVTS, drc, h) ==> r >= 0.1
  {
    var big := drc >= 3.0 && h > 0.0;
    var raw :=
      match e
      case E14 | E14_1 | E14_2 =>
        JuniperCube(e, m.cbrt(if big then drc * drc * h else 0.0), if stems > 1.0 then 0.0 else 1.0)
      case E45 =>
        MahoganyCube(m.cbrt(if big then drc * drc * h else 1.0), !(stems > 1.0))
      case E46 =>
        var x := MesquiteSize(drc, h);
        if stems > 1.0 && x <= 2.0 then MesquiteMultiSmall(x) else MesquiteSingle(x);
    Mask(CVTS, drc, h, ClipLow(raw, 0.1))
  }

  // ---------------------------------------------------------------------
  // Dispatch
  // ---------------------------------------------------------------------

  /** The base metrics of a species with its own CVTS equation are the tarif
      family's. */
  lemma {:induction false} TarifFamilyDispatch(m: Math, e: EqId, d: real, h: real)
    requires HasCvtsEquation(e)
    ensures Cvts(m, e, d, h) == TarifFamilyCvts(m, e, d, h)
    ensures Tarif(m, e, d, h) == TarifFamilyTarif(m, e, d, h)
    ensures Cvt(m, e, d, h) == TarifFamilyCvt(m, e, d, h)
    ensures Cv4(m, e, d, h) == TarifFamilyCv4(m, e, d, h)
  {
    GroupsPartition(e);
  }

  /** True when equation `e`'s class inherits the base method for metric `k`,
      which raises `NotImplementedError`. */
  predicate Unimplemented(e: EqId, k: Metric) {
    if IsDrc(e) then k != CVTS
    else if Wood(e) == Softwood then k in {CV8, SV816, XINT8}
    else k == SV632
  }

  /** `calc_vol` after the metric name has been recognised: the one `calc_*`
      method the metric names, with stems = 1 for the root-collar species. */
  function Calc(m: Math, e: EqId, k: Metric, d: real, h: real): (r: Result<real, VolumeError>)
    ensures r.Failure? <==> Unimplemented(e, k)
    ensures r.Failure? ==> r.error == NotImplemented
  {
    if Unimplemented(e, k) then Failure(NotImplemented)
    else if IsDrc(e) then Success(DrcCvts(m, e, d, h, 1.0))
    else if Wood(e) == Softwood then
      Success(match k
              case CVTS => Cvts(m, e, d, h)
              case TARIF => Tarif(m, e, d, h)
              case CVT => Cvt(m, e, d, h)
              case CV4 => Cv4(m, e, d, h)
              case CV6 => SoftCv6(m, e, d, h)
              case SV616 => SoftSv616(m, e, d, h)
              case SV632 => SoftSv632(m, e, d, h)
              case XINT6 => SoftXint6(m, e, d, h)
              case CV8 | SV816 | XINT8 => 0.0)
    else
      Success(match k
              case CVTS => Cvts(m, e, d, h)
              case TARIF => Tarif(m, e, d, h)
              case CVT => Cvt(m, e, d, h)
              case CV4 => Cv4(m, e, d, h)
              case CV6 => HardCv6(m, e, d, h)
              case CV8 => Cv8(m, e, d, h)
              case SV616 => HardSv616(m, e, d, h)
              case SV816 => HardSv816(m, e, d, h)
              case XINT6 => HardXint6(m, e, d, h)
              case XINT8 => HardXint8(m, e, d, h)
              case SV632 => 0.0)
  }

  /** `calc_vol(dbh, ht, metric)`. */
  function CalcVol(m: Math, e: EqId, metric: string, d: real, h: real): (r: Result<real, VolumeError>)
    ensures r == Failure(UnrecognizedMetric) <==> Parse(metric).None?
    ensures r.Success? <==> Parse(metric).Some? && !Unimplemented(e, Parse(metric).value)
    ensures r.Failure? && Parse(metric).Some? ==> r.error == NotImplemented
  {
    match Parse(metric)
    case None => Failure(UnrecognizedMetric)
    case Some(k) => Calc(m, e, k, d, h)
  }

  /** `calc_vol` upper-cases the metric name and rejects it with a `ValueError`
      exactly when it is none of the eleven names; a recognised name runs that
      metric's `calc_*` method. */
  lemma {:induction false} CalcVolDispatch(m: Math, e: EqId, metric: string, d: real, h: real, k: Metric)
    ensures CalcVol(m, e, metric, d, h) == Failure(UnrecognizedMetric)
            <==> forall j: Metric :: Name(j) != Upper(metric)
    ensures Upper(metric) == Name(k) ==> CalcVol(m, e, metric, d, h) == Calc(m, e, k, d, h)
  {
    ParseIff(metric, k);
    match Parse(metric)
    case None =>
      forall j: Metric ensures Name(j) != Upper(metric) {
        AvailableIsComplete(j);
      }
    case Some(p) =>
      var c := Calc(m, e, p, d, h);
      assert c.Failure? ==> c.error == NotImplemented;
  }

  // ---------------------------------------------------------------------
  // Properties
  // ---------------------------------------------------------------------

  /** The base metrics of red alder, whose methods clip the height first. */
  predicate AlderBase(k: Metric) {
    k in {CVTS, TARIF, CVT, CV4, CV8}
  }

  /** A metric is 0 wherever its mask fires: below its diameter threshold or
      for a height of at most 0. Red alder's base metrics are the exception to
      the height part, as their mask sees the height clipped at 18. */
  lemma {:induction false} CalcMasked(m: Math, e: EqId, k: Metric, d: real, h: real)
    requires Masked(k, d, h)
    requires e == E25 && AlderBase(k) ==> Masked(k, d, 18.0)
    ensures Calc(m, e, k, d, h).Success? ==> Calc(m, e, k, d, h).value == 0.0
  {
    GroupsPartition(e);
    if !Unimplemented(e, k) && !IsDrc(e) {
      if e == E25 && AlderBase(k) {
        assert Masked(k, d, AlderHeight(h));
        assert Masked(k, d, AlderHeight(AlderHeight(h)));
      }
    }
  }

  /** Red alder's base metrics take every height up to 18 feet as 18 feet, so
      the height part of their mask never fires. */
  lemma {:induction false} AlderHeightFloor(m: Math, k: Metric, d: real, h: real)
    requires AlderBase(k) && h <= 18.0
    ensures Calc(m, E25, k, d, h) == Calc(m, E25, k, d, 18.0)
  {
    assert AlderHeight(h) == AlderHeight(18.0) == 18.0;
    assert AlderCvt(m, d, h) == AlderCvt(m, d, 18.0);
    assert AlderTarif(m, d, h) == AlderTarif(m, d, 18.0);
    assert AlderCv4(m, d, h) == AlderCv4(m, d, 18.0);
    match k
    case CVTS => assert AlderCvts(m, d, h) == AlderCvts(m, d, 18.0);
    case TARIF =>
    case CVT =>
    case CV4 =>
    case CV8 => assert Cv8(m, E25, d, h) == Cv8(m, E25, d, 18.0);
  }

  /** Every boardfoot metric, and the hardwood CV6, is clipped at 0 before it
      is masked, so it is never negative. */
  lemma {:induction false} BoardfootNonNegative(m: Math, e: EqId, k: Metric, d: real, h: real)
    requires k in {SV616, SV632, SV816, XINT6, XINT8} || (k == CV6 && Wood(e) == Hardwood)
    ensures Calc(m, e, k, d, h).Success? ==> Calc(m, e, k, d, h).value >= 0.0
  {
  }

  /** The softwood CV6 is RC6 CV4 capped at CV4, whatever RC6 is. */
  lemma {:induction false} SoftCv6Capped(m: Math, e: EqId, d: real, h: real)
    requires !IsDrc(e)
    ensures var cv4 := Cv4(m, e, d, h);
      !Masked(CV6, d, h) ==> SoftCv6(m, e, d, h) == Min(Rc6(m, d) * cv4, cv4) && SoftCv6(m, e, d, h) <= cv4
  {
    var cv4 := Cv4(m, e, d, h);
    var r := CappedCv6(m, d, cv4);
    assert SoftCv6(m, e, d, h) == Mask(CV6, d, h, r);
  }

  /** What `calc_vol` returns for a softwood's CV6: RC6 CV4 capped at CV4. */
  lemma {:induction false} CalcCv6Capped(m: Math, e: EqId, d: real, h: real)
    requires !IsDrc(e) && Wood(e) == Softwood && !Masked(CV6, d, h)
    ensures var cv4 := Cv4(m, e, d, h);
      Calc(m, e, CV6, d, h) == Success(Min(Rc6(m, d) * cv4, cv4))
  {
    SoftCv6Capped(m, e, d, h);
    CalcSoftCv6(m, e, d, h);
  }

  /** A softwood's CV6 is its `calc_cv6`. */
  lemma {:induction false} CalcSoftCv6(m: Math, e: EqId, d: real, h: real)
    requires !IsDrc(e) && Wood(e) == Softwood
    ensures Calc(m, e, CV6, d, h) == Success(SoftCv6(m, e, d, h))
  {
    assert !Unimplemented(e, CV6);
  }

  /** The package applies the CV4X polynomial and the CV8-based TARIFX to
      exactly the hardwood ids the class version's conversion passes through
      unchanged, and passes through exactly those it corrects. */
  lemma {:induction false} HardwoodXRuleReversed(e: EqId)
    requires !IsDrc(e) && Wood(e) == Hardwood
    ensures AppliesPolynomial(e) <==> PassesThroughX(Number(e))
  {
    GroupsPartition(e);
  }

  /** Equation 36 has no CV8 equation of its own: for any tree its CV8 mask
      leaves alone, CV8 is CV4. */
  lemma {:induction false} EngelmannOakCv8(m: Math, d: real, h: real)
    requires d >= 11.0 && h > 0.0
    ensures Calc(m, E36, CV8, d, h) == Calc(m, E36, CV4, d, h)
  {
  }

  /** Below 3 inches at the root collar the juniper equations' size factor is
      0 and mountain mahogany's is 1, so a tree's CVTS does not depend on its
      height there, once the height mask is passed. */
  lemma {:induction false} SmallCollarIgnoresHeight(m: Math, e: EqId, drc: real, h1: real, h2: real, stems: real)
    requires IsDrc(e) && e != E46
    requires drc < 3.0 && h1 > 0.0 && h2 > 0.0
    ensures DrcCvts(m, e, drc, h1, stems) == DrcCvts(m, e, drc, h2, stems)
  {
  }

  /** For a multi-stemmed mesquite with x = DRC^2 HT / 1000 above 2 the
      package reuses the single-stem formula; up to 2 it uses the multi-stem
      quadratic. */
  lemma {:induction false} MesquiteStems(m: Math, drc: real, h: real, stems: real)
    requires stems > 1.0
    ensures MesquiteSize(drc, h) > 2.0 ==> DrcCvts(m, E46, drc, h, stems) == DrcCvts(m, E46, drc, h, 1.0)
    ensures MesquiteSize(drc, h) <= 2.0 ==>
              DrcCvts(m, E46, drc, h, stems) == Mask(CVTS, drc, h, ClipLow(MesquiteMultiSmall(MesquiteSize(drc, h)), 0.1))
  {
  }

  /** Rocky Mountain juniper (equation 14.2) has no stem term. */
  lemma {:induction false} RockyMountainJuniperIgnoresStems(m: Math, drc: real, h: real, s1: real, s2: real)
    ensures DrcCvts(m, E14_2, drc, h, s1) == DrcCvts(m, E14_2, drc, h, s2)
  {
  }

  /** The power-law hardwoods' CVTS is positive for every tree the mask leaves
      alone. */
  lemma {:induction false} PowerLawCvtsPositive(m: Math, e: EqId, d: real, h: real)
    requires Lawful(m) && IsPowerLaw(e)
    requires d >= 1.0 && h > 0.0
    ensures PowerLawCvts(m, e, d, h) > 0.0
  {
    var c := PillsburyCvts(e);
    assert c.k > 0.0;
    var a, b := m.pow(d, c.p), m.pow(h, c.q);
    assert a > 0.0 && b > 0.0;
    MulPositive(c.k, a);
    MulPositive(c.k * a, b);
  }
}
