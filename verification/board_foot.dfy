/** The stand-alone boardfoot conversions `SW_BFConversion` and
    `HW_BFConversion`, which the class version and the function version both
    define, word for word the same. Each computes a table of ratios and
    volumes from a tree's cubic volumes and tarif number and returns the
    entry the caller names, or one of a few general aliases. */
module BoardFoot {
  import opened Wrappers
  import opened Numeric
  import opened Species
  import opened Formulas

  /** `KeyError` for a name outside the table; `MathError` for the
      `ValueError` of a logarithm of a non-positive number or a
      `ZeroDivisionError`, neither of which the conversions catch. */
  datatype BfError = KeyError | MathError

  /** `name` starts with `prefix`, as Python's `str.startswith`. */
  predicate StartsWith(name: string, prefix: string) {
    |prefix| <= |name| && name[..|prefix|] == prefix
  }

  // ---------------------------------------------------------------------
  // Softwoods
  // ---------------------------------------------------------------------

  /** The softwood table, one field per entry of the conversion's dictionary. */
  datatype SoftConversion = SoftConversion(
    rc6: real, cv6: real, cubus: real, b4: real, rs616l: real, rs616: real,
    rs632: real, sv616: real, sv632: real, ri6: real, xint6: real)

  /** The softwood conversion raises a tarif number below 0.01 to 0.01 before
      any logarithm is taken of it. */
  function SoftTarif(tarif: real): (t: real)
    ensures t >= 0.01
    ensures tarif >= 0.01 ==> t == tarif
  {
    ClipLow(tarif, 0.01)
  }

  function SoftConvert(m: Math, d: real, cv4: real, tarif: real): (c: SoftConversion)
    ensures c.cv6 == Min(c.rc6 * cv4, cv4)
    ensures c.cubus == cv4 - c.cv6
    ensures c.sv632 == c.rs632 * c.sv616
    ensures c.xint6 == c.ri6 * c.cv6
  {
    var rc6 := Rc6(m, d);
    var scaled := rc6 * cv4;
    var cv6 := if scaled > cv4 then cv4 else scaled;
    var t := SoftTarif(tarif);
    var b4 := B4(t);
    var rs616l := SoftRs616l(m, d, b4);
    var rs616 := m.pow(10.0, rs616l);
    var rs632 := Rs632(d, t);
    var sv616 := rs616 * cv6;
    var ri6 := Ri6(m, d, t);
    SoftConversion(rc6, cv6, cv4 - cv6, b4, rs616l, rs616, rs632, sv616, rs632 * sv616,
                   ri6, ri6 * cv6)
  }

  /** The keys of the softwood dictionary. */
  const SoftKeys: seq<string> :=
    ["RC6", "CV6", "CUBUS", "B4", "RS616L", "RS616", "RS632", "SV616", "SV632", "RI6", "XINT6"]

  /** The dictionary lookup `metric_dict[metric]`. */
  function SoftEntry(c: SoftConversion, key: string): (r: Option<real>)
    ensures r.Some? <==> key in SoftKeys
  {
    if key == "RC6" then Some(c.rc6)
    else if key == "CV6" then Some(c.cv6)
    else if key == "CUBUS" then Some(c.cubus)
    else if key == "B4" then Some(c.b4)
    else if key == "RS616L" then Some(c.rs616l)
    else if key == "RS616" then Some(c.rs616)
    else if key == "RS632" then Some(c.rs632)
    else if key == "SV616" then Some(c.sv616)
    else if key == "SV632" then Some(c.sv632)
    else if key == "RI6" then Some(c.ri6)
    else if key == "XINT6" then Some(c.xint6)
    else None
  }

  /** The names the softwood conversion answers to: its keys and the three
      general aliases. */
  predicate SoftAnswers(metric: string) {
    metric in SoftKeys || metric in ["sawlog_cubic", "boardfoot_16ft", "boardfoot_32ft"]
  }

  /** `SW_BFConversion(DBH, CV4, TARIF, metric)`. The logarithm of DBH fails
      for a diameter of at most 0; nothing else can fail once TARIF is floored. */
  function SwBfConversion(m: Math, d: real, cv4: real, tarif: real, metric: string)
    : (r: Result<real, BfError>)
    ensures r == Failure(MathError) <==> d <= 0.0
    ensures d > 0.0 ==> (r.Success? <==> SoftAnswers(metric))
    ensures r.Failure? ==> r.error == MathError || r.error == KeyError
  {
    if d <= 0.0 then Failure(MathError)
    else
      var c := SoftConvert(m, d, cv4, tarif);
      if metric == "sawlog_cubic" then Success(c.cv6)
      else if metric == "boardfoot_16ft" then Success(c.sv616)
      else if metric == "boardfoot_32ft" then Success(c.sv632)
      else match SoftEntry(c, metric)
        case None => Failure(KeyError)
        case Some(v) => Success(v)
  }

  /** The general names are aliases of table entries: sawlog cubic volume is
      CV6, and the 16- and 32-foot boardfoot volumes are SV616 and SV632. */
  lemma {:induction false} SoftAliases(m: Math, d: real, cv4: real, tarif: real)
    ensures SwBfConversion(m, d, cv4, tarif, "sawlog_cubic") == SwBfConversion(m, d, cv4, tarif, "CV6")
    ensures SwBfConversion(m, d, cv4, tarif, "boardfoot_16ft") == SwBfConversion(m, d, cv4, tarif, "SV616")
    ensures SwBfConversion(m, d, cv4, tarif, "boardfoot_32ft") == SwBfConversion(m, d, cv4, tarif, "SV632")
  {
    if d > 0.0 {
      var c := SoftConvert(m, d, cv4, tarif);
      assert SoftEntry(c, "CV6") == Some(c.cv6);
      assert SoftEntry(c, "SV616") == Some(c.sv616);
      assert SoftEntry(c, "SV632") == Some(c.sv632);
    }
  }

  /** The four entries the class version's boardfoot layer asks for, read
      straight off the table. */
  lemma {:induction false} SoftLayerEntries(m: Math, d: real, cv4: real, tarif: real)
    requires d > 0.0
    ensures SwBfConversion(m, d, cv4, tarif, "CV6") == Success(SoftConvert(m, d, cv4, tarif).cv6)
    ensures SwBfConversion(m, d, cv4, tarif, "SV632") == Success(SoftConvert(m, d, cv4, tarif).sv632)
    ensures SwBfConversion(m, d, cv4, tarif, "SV616") == Success(SoftConvert(m, d, cv4, tarif).sv616)
    ensures SwBfConversion(m, d, cv4, tarif, "XINT6") == Success(SoftConvert(m, d, cv4, tarif).xint6)
  {
    var c := SoftConvert(m, d, cv4, tarif);
    assert SoftEntry(c, "CV6") == Some(c.cv6);
    assert SoftEntry(c, "SV632") == Some(c.sv632);
    assert SoftEntry(c, "SV616") == Some(c.sv616);
    assert SoftEntry(c, "XINT6") == Some(c.xint6);
  }

  /** The softwood sawlog volume never exceeds the 4-inch-top volume it is
      derived from, whatever the RC6 ratio. */
  lemma {:induction false} SoftCv6AtMostCv4(m: Math, d: real, cv4: real, tarif: real)
    requires d > 0.0
    ensures SwBfConversion(m, d, cv4, tarif, "CV6").Success?
    ensures SwBfConversion(m, d, cv4, tarif, "CV6").value <= cv4
    ensures SwBfConversion(m, d, cv4, tarif, "CUBUS").value >= 0.0
  {
    var c := SoftConvert(m, d, cv4, tarif);
    assert SwBfConversion(m, d, cv4, tarif, "CV6") == Success(c.cv6);
    assert SwBfConversion(m, d, cv4, tarif, "CUBUS") == Success(c.cubus);
  }

  /** For a tree with a positive diameter both logarithm arguments that involve
      the tarif number, B4 and DBH TARIF, are positive. */
  lemma {:induction false} SoftLogArgumentsPositive(d: real, tarif: real)
    requires d > 0.0
    ensures B4(SoftTarif(tarif)) > 0.0
    ensures d * SoftTarif(tarif) > 0.0
  {
    MulPositive(d, SoftTarif(tarif));
  }

  // ---------------------------------------------------------------------
  // Hardwoods
  // ---------------------------------------------------------------------

  /** The hardwood table; `cv8` is the CV8 it was given. */
  datatype HardConversion = HardConversion(
    rc6: real, cv6: real, cv8: real, tarifx: real, cv4x: real, cubus: real, b4: real,
    rs616l: real, rs616: real, sv616: real, ri6: real, xint6: real, rs816: real,
    sv816: real, ri8: real, xint8: real)

  /** The hardwood conversion floors TARIFX only when it is negative, to 0.01. */
  function HardFloor(x: real): (r: real)
    ensures r >= 0.0
    ensures x >= 0.0 ==> r == x
    ensures x < 0.0 ==> r == 0.01
  {
    if x < 0.0 then 0.01 else x
  }

  /** The TARIFX divisor 0.983 - 0.983 0.65^(d - 8.6) BA - 0.087266. */
  function TarifxDivisor(m: Math, d: real): real {
    0.983 - 0.983 * m.pow(0.65, d - 8.6) * BasalArea(d) - 0.087266
  }

  /** The CV4X and TARIFX the conversion starts from: for equation numbers
      25 to 31, CVT and TARIF as given; for all others, the polynomial-corrected
      CVT and the CV8-derived tarif number. The floor of TARIF itself that
      follows is never read again, so it is not modelled. */
  function HardX(m: Math, cv8: real, d: real, eqNumber: real, cvt: real, tarif: real, h: real)
    : (x: (real, real))
  {
    if PassesThroughX(eqNumber) then (cvt, HardFloor(tarif))
    else (cvt * Cv4xPolynomial(d, h), HardFloor(TarifxFromCv8(m, d, cv8)))
  }

  function HardConvert(m: Math, cv4: real, cv8: real, d: real, eqNumber: real, cvt: real,
                       tarif: real, h: real): (c: HardConversion)
    ensures (c.cv4x, c.tarifx) == HardX(m, cv8, d, eqNumber, cvt, tarif, h)
    ensures c.cv6 == c.rc6 * c.cv4x
    ensures c.cv8 == cv8 && c.cubus == cv4 - cv8
    ensures c.sv816 == c.rs816 * c.sv616 && c.xint8 == c.xint6 * c.ri8
    ensures c.tarifx >= 0.0
  {
    var x := HardX(m, cv8, d, eqNumber, cvt, tarif, h);
    HardTable(m, d, cv4, cv8, x.0, x.1)
  }

  /** The table `HW_BFConversion` builds from CV4X and TARIFX. */
  function HardTable(m: Math, d: real, cv4: real, cv8: real, cv4x: real, tarifx: real): (c: HardConversion)
    ensures c.cv4x == cv4x && c.tarifx == tarifx
  {
    var rc6 := Rc6(m, d);
    var cv6 := rc6 * cv4x;
    var b4 := B4(tarifx);
    var rs616l := HardRs616l(m, d, b4);
    var rs616 := m.pow(10.0, rs616l);
    var sv616 := rs616 * cv6;
    var ri6 := Ri6(m, d, tarifx);
    var xint6 := ri6 * cv6;
    var rs816 := Rs816(m, d);
    var ri8 := Ri8(m, d);
    HardConversion(rc6, cv6, cv8, tarifx, cv4x, cv4 - cv8, b4, rs616l, rs616, sv616, ri6,
                   xint6, rs816, rs816 * sv616, ri8, xint6 * ri8)
  }

  /** Where `HW_BFConversion` raises: a diameter of at most 0 (a division by
      DBH^2 or a logarithm of DBH TARIFX), a TARIFX of exactly 0 (log10 of
      B4), and, off the pass-through range, a zero height or a zero TARIFX
      divisor. */
  predicate HardFails(m: Math, cv8: real, d: real, eqNumber: real, cvt: real, tarif: real, h: real) {
    d <= 0.0
    || (!PassesThroughX(eqNumber) && (h == 0.0 || TarifxDivisor(m, d) == 0.0))
    || HardX(m, cv8, d, eqNumber, cvt, tarif, h).1 == 0.0
  }

  const HardKeys: seq<string> :=
    ["RC6", "CV6", "CV8", "TARIFX", "CV4X", "CUBUS", "B4", "RS616L", "RS616", "SV616", "RI6",
     "XINT6", "RS816", "SV816", "RI8", "XINT8"]

  function HardEntry(c: HardConversion, key: string): (r: Option<real>)
    ensures r.Some? <==> key in HardKeys
  {
    if key == "RC6" then Some(c.rc6)
    else if key == "CV6" then Some(c.cv6)
    else if key == "CV8" then Some(c.cv8)
    else if key == "TARIFX" then Some(c.tarifx)
    else if key == "CV4X" then Some(c.cv4x)
    else if key == "CUBUS" then Some(c.cubus)
    else if key == "B4" then Some(c.b4)
    else if key == "RS616L" then Some(c.rs616l)
    else if key == "RS616" then Some(c.rs616)
    else if key == "SV616" then Some(c.sv616)
    else if key == "RI6" then Some(c.ri6)
    else if key == "XINT6" then Some(c.xint6)
    else if key == "RS816" then Some(c.rs816)
    else if key == "SV816" then Some(c.sv816)
    else if key == "RI8" then Some(c.ri8)
    else if key == "XINT8" then Some(c.xint8)
    else None
  }

  predicate HardAnswers(metric: string) {
    metric in HardKeys || metric == "sawlog_cubic" || StartsWith(metric, "boardfoot")
  }

  /** `HW_BFConversion(CV4, CV8, DBH, eq_number, CVT, TARIF, HT, metric)`. */
  function HwBfConversion(m: Math, cv4: real, cv8: real, d: real, eqNumber: real, cvt: real,
                          tarif: real, h: real, metric: string): (r: Result<real, BfError>)
    ensures r == Failure(MathError) <==> HardFails(m, cv8, d, eqNumber, cvt, tarif, h)
    ensures !HardFails(m, cv8, d, eqNumber, cvt, tarif, h) ==> (r.Success? <==> HardAnswers(metric))
  {
    if HardFails(m, cv8, d, eqNumber, cvt, tarif, h) then Failure(MathError)
    else
      var c := HardConvert(m, cv4, cv8, d, eqNumber, cvt, tarif, h);
      if metric == "sawlog_cubic" then Success(c.cv8)
      else if StartsWith(metric, "boardfoot") then Success(c.sv816)
      else match HardEntry(c, metric)
        case None => Failure(KeyError)
        case Some(v) => Success(v)
  }

  /** The hardwood aliases: sawlog cubic volume is the CV8 passed in, and
      every name beginning with "boardfoot" (16- or 32-foot alike) is SV816. */
  lemma {:induction false} HardAliases(m: Math, cv4: real, cv8: real, d: real, eqNumber: real,
                                       cvt: real, tarif: real, h: real, metric: string)
    requires StartsWith(metric, "boardfoot")
    ensures HwBfConversion(m, cv4, cv8, d, eqNumber, cvt, tarif, h, "sawlog_cubic")
            == HwBfConversion(m, cv4, cv8, d, eqNumber, cvt, tarif, h, "CV8")
    ensures HwBfConversion(m, cv4, cv8, d, eqNumber, cvt, tarif, h, metric)
            == HwBfConversion(m, cv4, cv8, d, eqNumber, cvt, tarif, h, "SV816")
  {
    assert !StartsWith("CV8", "boardfoot");
    assert !StartsWith("SV816", "boardfoot");
    assert metric[0] == metric[..9][0] == 'b';
    assert metric != "sawlog_cubic" by { assert "sawlog_cubic"[0] == 's'; }
    assert "CV8" != "sawlog_cubic" && "SV816" != "sawlog_cubic";
    if !HardFails(m, cv8, d, eqNumber, cvt, tarif, h) {
      var c := HardConvert(m, cv4, cv8, d, eqNumber, cvt, tarif, h);
      assert HardEntry(c, "CV8") == Some(c.cv8);
      assert HardEntry(c, "SV816") == Some(c.sv816);
    }
  }

  /** The four entries the class version's boardfoot layer asks for, read
      straight off the table. */
  lemma {:induction false} HardLayerEntries(m: Math, cv4: real, cv8: real, d: real, eqNumber: real,
                                            cvt: real, tarif: real, h: real)
    requires !HardFails(m, cv8, d, eqNumber, cvt, tarif, h)
    ensures HwBfConversion(m, cv4, cv8, d, eqNumber, cvt, tarif, h, "CV6")
            == Success(HardConvert(m, cv4, cv8, d, eqNumber, cvt, tarif, h).cv6)
    ensures HwBfConversion(m, cv4, cv8, d, eqNumber, cvt, tarif, h, "SV816")
            == Success(HardConvert(m, cv4, cv8, d, eqNumber, cvt, tarif, h).sv816)
    ensures HwBfConversion(m, cv4, cv8, d, eqNumber, cvt, tarif, h, "XINT6")
            == Success(HardConvert(m, cv4, cv8, d, eqNumber, cvt, tarif, h).xint6)
    ensures HwBfConversion(m, cv4, cv8, d, eqNumber, cvt, tarif, h, "XINT8")
            == Success(HardConvert(m, cv4, cv8, d, eqNumber, cvt, tarif, h).xint8)
  {
    var c := HardConvert(m, cv4, cv8, d, eqNumber, cvt, tarif, h);
    HardLayerKeys(c);
    HardTableRead(m, cv4, cv8, d, eqNumber, cvt, tarif, h, "CV6", c.cv6);
    HardTableRead(m, cv4, cv8, d, eqNumber, cvt, tarif, h, "SV816", c.sv816);
    HardTableRead(m, cv4, cv8, d, eqNumber, cvt, tarif, h, "XINT6", c.xint6);
    HardTableRead(m, cv4, cv8, d, eqNumber, cvt, tarif, h, "XINT8", c.xint8);
  }

  /** The layer's four names are plain table keys. */
  lemma HardLayerKeys(c: HardConversion)
    ensures HardEntry(c, "CV6") == Some(c.cv6) && HardEntry(c, "SV816") == Some(c.sv816)
    ensures HardEntry(c, "XINT6") == Some(c.xint6) && HardEntry(c, "XINT8") == Some(c.xint8)
    ensures !StartsWith("CV6", "boardfoot") && !StartsWith("SV816", "boardfoot")
    ensures !StartsWith("XINT6", "boardfoot") && !StartsWith("XINT8", "boardfoot")
  {
    assert !StartsWith("CV6", "boardfoot") && !StartsWith("SV816", "boardfoot");
    assert !StartsWith("XINT6", "boardfoot") && !StartsWith("XINT8", "boardfoot");
  }

  /** A name that is neither an alias nor a boardfoot name is read off the table. */
  lemma {:induction false} HardTableRead(m: Math, cv4: real, cv8: real, d: real, eqNumber: real,
                                         cvt: real, tarif: real, h: real, key: string, v: real)
    requires !HardFails(m, cv8, d, eqNumber, cvt, tarif, h)
    requires key != "sawlog_cubic" && !StartsWith(key, "boardfoot")
    requires HardEntry(HardConvert(m, cv4, cv8, d, eqNumber, cvt, tarif, h), key) == Some(v)
    ensures HwBfConversion(m, cv4, cv8, d, eqNumber, cvt, tarif, h, key) == Success(v)
  {
  }

  /** For equation numbers 25 to 31 the hardwood CV6 is RC6 CVT, and its
      Scribner and International volumes are computed from the given TARIF. */
  lemma {:induction false} HardPassThrough(m: Math, cv4: real, cv8: real, d: real, eqNumber: real,
                                           cvt: real, tarif: real, h: real)
    requires PassesThroughX(eqNumber) && d > 0.0 && tarif > 0.0
    ensures HwBfConversion(m, cv4, cv8, d, eqNumber, cvt, tarif, h, "CV6") == Success(Rc6(m, d) * cvt)
    ensures HwBfConversion(m, cv4, cv8, d, eqNumber, cvt, tarif, h, "TARIFX") == Success(tarif)
    ensures HwBfConversion(m, cv4, cv8, d, eqNumber, cvt, tarif, h, "CV4X") == Success(cvt)
  {
    var c := HardConvert(m, cv4, cv8, d, eqNumber, cvt, tarif, h);
    assert !HardFails(m, cv8, d, eqNumber, cvt, tarif, h);
    assert c.cv4x == cvt && c.tarifx == tarif && c.rc6 == Rc6(m, d);
    assert !StartsWith("CV6", "boardfoot") && !StartsWith("TARIFX", "boardfoot")
           && !StartsWith("CV4X", "boardfoot");
    assert "CV6" != "sawlog_cubic" && "TARIFX" != "sawlog_cubic" && "CV4X" != "sawlog_cubic";
    assert HardEntry(c, "CV6") == Some(c.cv6);
    assert c.cv6 == Rc6(m, d) * cvt;
    assert HwBfConversion(m, cv4, cv8, d, eqNumber, cvt, tarif, h, "CV6") == Success(c.cv6);
    assert HardEntry(c, "TARIFX") == Some(c.tarifx);
    assert HardEntry(c, "CV4X") == Some(c.cv4x);
  }
}
