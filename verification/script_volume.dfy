/** The class version of the volume engine (scripts/ARB_Volume_Equations.py):
    one `Equation` subclass per equation, whose `calc(DBH, HT, metric)`
    returns 0 for a non-positive diameter or height, computes the equation's
    cubic volumes into instance attributes, adds the boardfoot volumes with
    `calcBF`, and reads the requested attribute back through the threshold
    cascade of `get`. Each call is modelled on a fresh instance. */
module ScriptVolume {
  import opened Wrappers
  import opened Numeric
  import opened Species
  import opened Formulas
  import opened Metrics
  import opened Taper
  import opened BoardFoot
  import PackageVolume

  /** An attribute value: a number, or Python's `None`, which `calcBF` stores
      as CV6 when the equation computed no CV4. */
  datatype Value = Num(x: real) | NoValue

  /** The exceptions a call can end in: `ValueError` for a metric outside
      `get`'s list, `AttributeError` for an attribute the equation never set,
      an unbound local for a stem count that is neither 1 nor more, and
      whatever a boardfoot conversion raises. */
  datatype ScriptError = UnknownMetric | MissingAttribute | UnboundName | Conversion(cause: BfError)

  /** What an equation's `calc` hands to `set_attributes`: the diameter and
      height it worked with and its cubic volumes by metric. */
  datatype Stored = Stored(dbh: real, ht: real, values: map<Metric, real>)

  /** An instance after `calcBF`: its DBH and HT and every other attribute
      `get` may read. No equation sets `westSV` or `eastSV`, so the
      attributes are keyed by metric. */
  datatype Instance = Instance(dbh: real, ht: real, attrs: map<Metric, Value>)

  // ---------------------------------------------------------------------
  // Equation.get
  // ---------------------------------------------------------------------

  /** What `get` can be asked for: one of ten volume attributes (TARIF is
      not among them), or the two names it accepts that nothing sets. */
  datatype Request = Volume(k: Metric) | WestSV | EastSV

  /** The volume attributes in `get`'s list, in its order. */
  const Served: seq<Metric> := [CVT, CVTS, CV4, CV6, CV8, SV616, SV632, XINT6, SV816, XINT8]

  /** The attribute name of a request. */
  function RequestName(q: Request): string {
    match q
    case Volume(k) => Name(k)
    case WestSV => "westSV"
    case EastSV => "eastSV"
  }

  /** The membership test `metric not in [...]` of `get`, as a parse of the
      name; the test is case-sensitive. */
  function ParseRequest(metric: string): (r: Option<Request>)
    ensures r.Some? ==> RequestName(r.value) == metric && r.value != Volume(TARIF)
    ensures r.None? <==>
              metric != "westSV" && metric != "eastSV" && forall k: Metric :: k != TARIF ==> Name(k) != metric
  {
    if metric == "westSV" then Some(WestSV)
    else if metric == "eastSV" then Some(EastSV)
    else match Find(metric, Served)
      case None => None
      case Some(k) => Some(Volume(k))
  }

  /** Every request `get` serves is parsed from its own name. */
  lemma {:induction false} ParseRequestName(q: Request)
    requires q != Volume(TARIF)
    ensures ParseRequest(RequestName(q)) == Some(q)
  {
    var r := ParseRequest(RequestName(q));
    assert r.Some?;
    match q
    case Volume(k) =>
      assert r.value.Volume? by {
        match k
        case CVTS => case CVT => case CV4 => case CV6 => case CV8 =>
        case SV616 => case SV816 => case SV632 => case XINT6 => case XINT8 =>
      }
      NamesDistinct(r.value.k, k);
    case WestSV =>
    case EastSV =>
  }

  /** The diameter from which `get` returns a request's attribute rather
      than 0: the package's masking diameter for a volume, 1 inch for the
      two regional names. */
  function Threshold(q: Request): real {
    if q.Volume? then MinDbh(q.k) else 1.0
  }

  /** `getattr(self, name)`. */
  function Attribute(obj: Instance, q: Request): (r: Result<Value, ScriptError>)
    ensures r.Success? <==> q.Volume? && q.k in obj.attrs
    ensures r.Success? ==> r.value == obj.attrs[q.k]
    ensures r.Failure? ==> r.error == MissingAttribute
  {
    if q.Volume? && q.k in obj.attrs then Success(obj.attrs[q.k]) else Failure(MissingAttribute)
  }

  /** The cascade of diameter tests in `get`, stated in its contract as one
      table lookup. */
  function Cascade(obj: Instance, q: Request): (r: Result<Value, ScriptError>)
    requires q != Volume(TARIF)
    ensures r == if obj.ht != 0.0 && obj.dbh >= Threshold(q) then Attribute(obj, q)
                 else Success(Num(0.0))
  {
    if obj.ht == 0.0 then Success(Num(0.0))
    else if obj.dbh >= 11.0 then Attribute(obj, q)
    else if q in {Volume(CV8), Volume(SV816), Volume(XINT8)} then Success(Num(0.0))
    else if obj.dbh >= 9.0 then Attribute(obj, q)
    else if q in {Volume(CV6), Volume(SV616), Volume(SV632), Volume(XINT6)} then Success(Num(0.0))
    else if obj.dbh >= 5.0 then Attribute(obj, q)
    else if q == Volume(CV4) then Success(Num(0.0))
    else if obj.dbh < 1.0 then Success(Num(0.0))
    else Attribute(obj, q)
  }

  /** `Equation.get(metric)`: `ValueError` for a name outside its list,
      otherwise the cascade. */
  function Get(obj: Instance, metric: string): (r: Result<Value, ScriptError>)
    ensures ParseRequest(metric).None? <==> r == Failure(UnknownMetric)
    ensures ParseRequest(metric).Some? ==> r == Cascade(obj, ParseRequest(metric).value)
  {
    match ParseRequest(metric)
    case None => Failure(UnknownMetric)
    case Some(q) => Cascade(obj, q)
  }

  /** On a tree of positive height, `get` answers a set volume exactly as
      the package's mask reports it: 0 below the metric's diameter limit,
      the value from it on. */
  lemma {:induction false} GetMasksAsPackage(obj: Instance, k: Metric, x: real)
    requires k != TARIF && obj.ht > 0.0
    requires k in obj.attrs && obj.attrs[k] == Num(x)
    ensures Get(obj, Name(k)) == Success(Num(Mask(k, obj.dbh, obj.ht, x)))
  {
    ParseRequestName(Volume(k));
  }

  // ---------------------------------------------------------------------
  // The equations' calc bodies, up to set_attributes
  // ---------------------------------------------------------------------

  /** Softwoods with a CVTS equation: TARIF from CVTS, then CV4 and CVT from
      TARIF; western juniper (21) computes CV4 from CVTS and afterwards sets
      a negative CVTS to 2 and a negative CV4 to 1. */
  function SoftTarifStored(m: Math, e: EqId, d: real, h: real): (s: Stored)
    requires IsSoftTarif(e)
    ensures s.dbh == d && s.ht == h && s.values.Keys == {CVTS, TARIF, CV4, CVT}
    ensures e == E21 ==> s.values[CVTS] >= 0.0 && s.values[CV4] >= 0.0
    ensures e == E21 ==>
              var cvts := CvtsEquation(m, e, d, h);
              var cv4 := JuniperCv4(m, d, cvts);
              s.values[CVTS] == (if cvts < 0.0 then 2.0 else cvts)
              && s.values[CV4] == (if cv4 < 0.0 then 1.0 else cv4)
    ensures s.values[TARIF] == Div(CvtsEquation(m, e, d, h) * 0.912733, TarifTerm(m, e, d))
    ensures s.values[CVT] == CvtFromTarif(m, d, s.values[TARIF])
    ensures e != E21 ==>
              s.values[CVTS] == CvtsEquation(m, e, d, h)
              && s.values[CV4] == Cv4FromTarif(d, s.values[TARIF])
  {
    var cvts := CvtsEquation(m, e, d, h);
    var tarif := Div(cvts * 0.912733, TarifTerm(m, e, d));
    var cv4 := if e == E21 then JuniperCv4(m, d, cvts) else Cv4FromTarif(d, tarif);
    var cvt := CvtFromTarif(m, d, tarif);
    var cvts' := if e == E21 && cvts < 0.0 then 2.0 else cvts;
    var cv4' := if e == E21 && cv4 < 0.0 then 1.0 else cv4;
    Stored(d, h, map[CVTS := cvts', TARIF := tarif, CV4 := cv4', CVT := cvt])
  }

  /** The form-factor softwoods: the two-regime taper with CF4 clamped as the
      class version clamps it. */
  function FormFactorStored(m: Math, e: EqId, d: real, h: real): (s: Stored)
    requires IsFormFactor(e)
    ensures s.dbh == d && s.ht == h && s.values.Keys == {CVTS, TARIF, CV4, CVT}
  {
    var c := ClassTaper(m, d, h, Cf4(e, d, h), Cf4(e, 6.0, h));
    Stored(d, h, map[CVTS := c.cvts, TARIF := c.tarif, CV4 := c.cv4, CVT := c.cvt])
  }

  /** Red alder (25): the height is raised to 18 feet, and the rest is
      computed at the raised height, which is the one stored. */
  function AlderStored(m: Math, d: real, h: real): Stored {
    AlderAt(m, d, Max(h, 18.0))
  }

  /** Red alder at a height of at least 18 feet: CVT from the taper
      function, TARIF from CVT, CVTS from TARIF (clipped at 0), CV4 from
      TARIF and CV8 = RC8 CV4. */
  function AlderAt(m: Math, d: real, h18: real): (s: Stored)
    requires h18 >= 18.0
    ensures s.dbh == d && s.ht == h18 && s.values.Keys == {CVTS, TARIF, CV4, CVT, CV8}
    ensures s.values[CVTS] >= 0.0
  {
    var cvt := RedAlderCvt(m, d, h18);
    var tarif := Div(cvt * 0.912733, Rts(m, d) * TermTenth(m, d));
    var cvts := Max(0.0, tarif * TermTenth(m, d) / 0.912733);
    var cv4 := Cv4FromTarif(d, tarif);
    Stored(d, h18, map[CVTS := cvts, TARIF := tarif, CV4 := cv4, CVT := cvt, CV8 := Rc8(m, d) * cv4])
  }

  /** Hardwoods 26 to 31: the softwood tarif computation plus CV8 = RC8 CV4. */
  function HardTarifStored(m: Math, e: EqId, d: real, h: real): Stored
    requires IsHardTarif(e) && e != E25
  {
    HardTarifFrom(m, d, h, CvtsEquation(m, e, d, h), TarifTerm(m, e, d))
  }

  /** The hardwood tarif volumes from the species' CVTS and tarif term. */
  function HardTarifFrom(m: Math, d: real, h: real, cvts: real, term: real): (s: Stored)
    ensures s.dbh == d && s.ht == h && s.values.Keys == {CVTS, TARIF, CV4, CVT, CV8}
    ensures s.values[CV8] == Rc8(m, d) * s.values[CV4]
  {
    var tarif := Div(cvts * 0.912733, term);
    var cv4 := Cv4FromTarif(d, tarif);
    Stored(d, h, map[CVTS := cvts, TARIF := tarif, CV4 := cv4,
                     CVT := CvtFromTarif(m, d, tarif), CV8 := Rc8(m, d) * cv4])
  }

  /** The height the Pillsbury equations work with: 34 and 40 cap it at 120. */
  function PillsburyHeight(e: EqId, h: real): (hc: real)
    ensures e in {E34, E40} ==> hc == Min(h, 120.0)
    ensures e !in {E34, E40} ==> hc == h
  {
    if e in {E34, E40} && h > 120.0 then 120.0 else h
  }

  /** The Pillsbury TARIF, which is 0.01 where its divisor RC8 (BA - 0.087266)
      vanishes (the `except ZeroDivisionError` branch). */
  function PillsburyTarif(m: Math, d: real, cv8: real): (t: real)
    ensures Rc8(m, d) * (BasalArea(d) - 0.087266) == 0.0 ==> t == 0.01
    ensures Rc8(m, d) * (BasalArea(d) - 0.087266) != 0.0 ==>
              t * (Rc8(m, d) * (BasalArea(d) - 0.087266)) == cv8 * 0.912733
  {
    var divisor := Rc8(m, d) * (BasalArea(d) - 0.087266);
    if divisor == 0.0 then 0.01 else cv8 * 0.912733 / divisor
  }

  /** The Pillsbury hardwoods 32 to 44, at the height they work with. */
  function PowerLawStored(m: Math, e: EqId, d: real, h: real): Stored
    requires IsPowerLaw(e)
  {
    PowerLawAt(m, e, d, PillsburyHeight(e, h))
  }

  /** CVTS, CV4 and CV8 power laws (36's CV8 is its CV4; 37 to 44 multiply
      by the form class to a power), CVT = CVTS RTS and TARIF from CV8. */
  function PowerLawAt(m: Math, e: EqId, d: real, hc: real): (s: Stored)
    requires IsPowerLaw(e)
    ensures s.dbh == d && s.ht == hc && s.values.Keys == {CVTS, TARIF, CV4, CVT, CV8}
    ensures e == E36 ==> s.values[CV8] == s.values[CV4]
  {
    var cvts := PowerLaw(m, PillsburyCvts(e), d, hc);
    var cv4 := PowerLaw(m, PillsburyCv4(e), d, hc);
    var cv8 :=
      if e == E36 then cv4
      else if HasFormClass(e) then
        PowerLaw(m, PillsburyCv8(e, false), d, hc) * m.pow(FormClass(e, d, hc), FormClassExponent(e))
      else PowerLaw(m, PillsburyCv8(e, false), d, hc);
    Stored(d, hc, map[CVTS := cvts, TARIF := PillsburyTarif(m, d, cv8), CV4 := cv4,
                      CVT := cvts * Rts(m, d), CV8 := cv8])
  }

  /** The size factor DRC^2 HT of the pinyon-juniper and mahogany equations:
      0 below a 3-inch collar for pinyon-juniper, 1 for mahogany. */
  function SizeFactor(drc: real, h: real, small: real): real {
    if drc >= 3.0 && h > 0.0 then drc * drc * h else small
  }

  /** The root-collar species. Their CVTS is floored at 0.1 when not
      positive, and is the only volume they store. A stem count that is
      neither 1 nor greater leaves the stem term unbound (equation 14.2 has
      no stem term). */
  function DrcStored(m: Math, e: EqId, drc: real, h: real, stems: real): (r: Result<Stored, ScriptError>)
    requires IsDrc(e)
    ensures r.Success? ==> r.value.values.Keys == {CVTS} && r.value.values[CVTS] > 0.0
    ensures r.Success? <==> e == E14_2 || stems == 1.0 || stems > 1.0
    ensures r.Success? ==> r.value.dbh == drc && r.value.ht == h
  {
    if e != E14_2 && !(stems == 1.0 || stems > 1.0) then Failure(UnboundName)
    else
      var volume :=
        if e in {E14, E14_1, E14_2} then
          JuniperCube(e, m.cbrt(SizeFactor(drc, h, 0.0)), if stems == 1.0 then 1.0 else 0.0)
        else if e == E45 then MahoganyCube(m.cbrt(SizeFactor(drc, h, 1.0)), stems == 1.0)
        else
          var x := MesquiteSize(drc, h);
          if stems > 1.0 then (if x <= 2.0 then MesquiteMultiSmall(x) else MesquiteMultiLarge(x))
          else MesquiteSingle(x);
      Success(Stored(drc, h, map[CVTS := FloorNonPositive(volume, 0.1)]))
  }

  /** The attributes `calc` sets before `calcBF`, by equation family. */
  function Compute(m: Math, e: EqId, d: real, h: real, stems: real): (r: Result<Stored, ScriptError>)
    ensures r.Failure? <==> IsDrc(e) && e != E14_2 && !(stems == 1.0 || stems > 1.0)
    ensures r.Success? ==> r.value.dbh == d && CVTS in r.value.values
    ensures r.Success? && IsDrc(e) ==> r.value.values.Keys == {CVTS}
    ensures r.Success? && !IsDrc(e) ==> {CVTS, TARIF, CVT, CV4} <= r.value.values.Keys
    ensures r.Success? && !IsDrc(e) && Wood(e) == Hardwood ==> CV8 in r.value.values
  {
    GroupsPartition(e);
    if IsDrc(e) then DrcStored(m, e, d, h, stems)
    else if IsFormFactor(e) then Success(FormFactorStored(m, e, d, h))
    else if IsSoftTarif(e) then Success(SoftTarifStored(m, e, d, h))
    else if e == E25 then Success(AlderStored(m, d, h))
    else if IsHardTarif(e) then Success(HardTarifStored(m, e, d, h))
    else Success(PowerLawStored(m, e, d, h))
  }

  // ---------------------------------------------------------------------
  // Equation.calcBF
  // ---------------------------------------------------------------------

  function AsValues(values: map<Metric, real>): (attrs: map<Metric, Value>)
    ensures attrs.Keys == values.Keys
    ensures forall k :: k in values ==> attrs[k] == Num(values[k])
  {
    map k | k in values :: Num(values[k])
  }

  /** The attributes `calcBF` adds for each wood type. */
  function Layer(w: WoodType): set<Metric> {
    if w == Softwood then {CV6, SV632, SV616, XINT6} else {CV6, SV816, XINT6, XINT8}
  }

  /** The instance once `calcBF` has set CV6 and the wood type's three
      boardfoot volumes (SV632, SV616, XINT6 for softwoods; SV816, XINT6,
      XINT8 for hardwoods) on top of the stored volumes. */
  function WithLayer(s: Stored, w: WoodType, cv6: Value, a: real, b: real, c: real): (obj: Instance)
    ensures obj.dbh == s.dbh && obj.ht == s.ht
    ensures obj.attrs.Keys == s.values.Keys + Layer(w)
    ensures obj.attrs[CV6] == cv6
    ensures w == Softwood ==> obj.attrs[SV632] == Num(a) && obj.attrs[SV616] == Num(b) && obj.attrs[XINT6] == Num(c)
    ensures w == Hardwood ==> obj.attrs[SV816] == Num(a) && obj.attrs[XINT6] == Num(b) && obj.attrs[XINT8] == Num(c)
    ensures forall k :: k in s.values && k !in Layer(w) ==> obj.attrs[k] == Num(s.values[k])
  {
    var attrs := AsValues(s.values)[CV6 := cv6];
    if w == Softwood then Instance(s.dbh, s.ht, attrs[SV632 := Num(a)][SV616 := Num(b)][XINT6 := Num(c)])
    else Instance(s.dbh, s.ht, attrs[SV816 := Num(a)][XINT6 := Num(b)][XINT8 := Num(c)])
  }

  /** The attributes the softwood conversion reads, besides DBH. */
  predicate HasSoftInputs(values: map<Metric, real>) {
    CV4 in values && TARIF in values
  }

  /** The attributes the hardwood conversion reads, besides DBH, HT and the
      equation number. */
  predicate HasHardInputs(values: map<Metric, real>) {
    CV4 in values && CV8 in values && CVT in values && TARIF in values
  }

  /** Where the hardwood boardfoot layer raises for a stored tree. */
  predicate HardLayerFails(e: EqId, m: Math, s: Stored)
    requires HasHardInputs(s.values)
  {
    HardFails(m, s.values[CV8], s.dbh, Number(e), s.values[CVT], s.values[TARIF], s.ht)
  }

  /** `calcBF` of a softwood: CV6, SV632, SV616 and XINT6 read off the
      conversion table of the stored CV4 and TARIF, which raises its math
      error for a diameter of at most 0; when CV4 or TARIF is missing the
      `AttributeError` is caught, CV6 becomes `None` and the boardfoot
      volumes 0. */
  function SoftBF(m: Math, s: Stored): (r: Result<Instance, ScriptError>)
    ensures r.Failure? <==> HasSoftInputs(s.values) && s.dbh <= 0.0
    ensures r.Failure? ==> r.error == Conversion(MathError)
    ensures !HasSoftInputs(s.values) ==> r == Success(WithLayer(s, Softwood, NoValue, 0.0, 0.0, 0.0))
    ensures r.Success? ==> r.value.dbh == s.dbh && r.value.ht == s.ht
    ensures r.Success? ==> r.value.attrs.Keys == s.values.Keys + Layer(Softwood)
    ensures r.Success? ==>
              forall k :: k in s.values && k !in Layer(Softwood) ==> r.value.attrs[k] == Num(s.values[k])
  {
    if !HasSoftInputs(s.values) then Success(WithLayer(s, Softwood, NoValue, 0.0, 0.0, 0.0))
    else if s.dbh <= 0.0 then Failure(Conversion(MathError))
    else
      var c := SoftConvert(m, s.dbh, s.values[CV4], s.values[TARIF]);
      Success(WithLayer(s, Softwood, Num(c.cv6), c.sv632, c.sv616, c.xint6))
  }

  /** `calcBF` of a hardwood with equation number `n`: CV6, SV816, XINT6 and
      XINT8 read off the conversion table of the stored CV4, CV8, CVT, TARIF
      and HT, which raises its math error where `HardFails` says; when one of
      them is missing, CV6 becomes `None` and the boardfoot volumes 0. */
  function HardBF(m: Math, n: real, s: Stored): (r: Result<Instance, ScriptError>)
    ensures r.Failure? <==>
              HasHardInputs(s.values)
              && HardFails(m, s.values[CV8], s.dbh, n, s.values[CVT], s.values[TARIF], s.ht)
    ensures r.Failure? ==> r.error == Conversion(MathError)
    ensures !HasHardInputs(s.values) ==> r == Success(WithLayer(s, Hardwood, NoValue, 0.0, 0.0, 0.0))
    ensures r.Success? ==> r.value.dbh == s.dbh && r.value.ht == s.ht
    ensures r.Success? ==> r.value.attrs.Keys == s.values.Keys + Layer(Hardwood)
    ensures r.Success? ==>
              forall k :: k in s.values && k !in Layer(Hardwood) ==> r.value.attrs[k] == Num(s.values[k])
  {
    if !HasHardInputs(s.values) then Success(WithLayer(s, Hardwood, NoValue, 0.0, 0.0, 0.0))
    else
      var cv4, cv8, cvt, tarif := s.values[CV4], s.values[CV8], s.values[CVT], s.values[TARIF];
      if HardFails(m, cv8, s.dbh, n, cvt, tarif, s.ht) then Failure(Conversion(MathError))
      else
        var c := HardConvert(m, cv4, cv8, s.dbh, n, cvt, tarif, s.ht);
        Success(WithLayer(s, Hardwood, Num(c.cv6), c.sv816, c.xint6, c.xint8))
  }

  /** `calcBF`, by the equation's wood type. */
  function CalcBF(m: Math, e: EqId, s: Stored): (r: Result<Instance, ScriptError>)
    ensures Wood(e) == Softwood ==> r == SoftBF(m, s)
    ensures Wood(e) == Hardwood ==> r == HardBF(m, Number(e), s)
  {
    if Wood(e) == Softwood then SoftBF(m, s) else HardBF(m, Number(e), s)
  }

  /** A conversion's exception propagates out of `calcBF`. */
  function Lift(r: Result<real, BfError>): (v: Result<real, ScriptError>)
    ensures r.Success? ==> v == Success(r.value)
    ensures r.Failure? ==> v == Failure(Conversion(r.error))
  {
    match r
    case Success(x) => Success(x)
    case Failure(b) => Failure(Conversion(b))
  }

  /** `calcBF` of a softwood as written: four calls of the conversion, by
      metric name, each of whose exceptions propagates. */
  function SoftBFByCalls(m: Math, s: Stored): Result<Instance, ScriptError> {
    if HasSoftInputs(s.values) then
      var cv4, tarif := s.values[CV4], s.values[TARIF];
      var cv6 :- Lift(SwBfConversion(m, s.dbh, cv4, tarif, "CV6"));
      var sv632 :- Lift(SwBfConversion(m, s.dbh, cv4, tarif, "SV632"));
      var sv616 :- Lift(SwBfConversion(m, s.dbh, cv4, tarif, "SV616"));
      var xint6 :- Lift(SwBfConversion(m, s.dbh, cv4, tarif, "XINT6"));
      Success(WithLayer(s, Softwood, Num(cv6), sv632, sv616, xint6))
    else Success(WithLayer(s, Softwood, NoValue, 0.0, 0.0, 0.0))
  }

  /** `calcBF` of a hardwood as written. */
  function HardBFByCalls(m: Math, n: real, s: Stored): Result<Instance, ScriptError> {
    if HasHardInputs(s.values) then
      var cv4, cv8, cvt, tarif := s.values[CV4], s.values[CV8], s.values[CVT], s.values[TARIF];
      var cv6 :- Lift(HwBfConversion(m, cv4, cv8, s.dbh, n, cvt, tarif, s.ht, "CV6"));
      var sv816 :- Lift(HwBfConversion(m, cv4, cv8, s.dbh, n, cvt, tarif, s.ht, "SV816"));
      var xint6 :- Lift(HwBfConversion(m, cv4, cv8, s.dbh, n, cvt, tarif, s.ht, "XINT6"));
      var xint8 :- Lift(HwBfConversion(m, cv4, cv8, s.dbh, n, cvt, tarif, s.ht, "XINT8"));
      Success(WithLayer(s, Hardwood, Num(cv6), sv816, xint6, xint8))
    else Success(WithLayer(s, Hardwood, NoValue, 0.0, 0.0, 0.0))
  }

  /** The table reading of the softwood layer is the four calls by name. */
  lemma {:induction false} SoftBFIsByCalls(m: Math, s: Stored)
    ensures SoftBF(m, s) == SoftBFByCalls(m, s)
  {
    if HasSoftInputs(s.values) {
      if s.dbh > 0.0 {
        SoftLayerEntries(m, s.dbh, s.values[CV4], s.values[TARIF]);
      } else {
        assert SwBfConversion(m, s.dbh, s.values[CV4], s.values[TARIF], "CV6") == Failure(MathError);
      }
    }
  }

  /** The table reading of the hardwood layer is the four calls by name. */
  lemma {:induction false} HardBFIsByCalls(m: Math, n: real, s: Stored)
    ensures HardBF(m, n, s) == HardBFByCalls(m, n, s)
  {
    if HasHardInputs(s.values) {
      var cv4, cv8, cvt, tarif := s.values[CV4], s.values[CV8], s.values[CVT], s.values[TARIF];
      if !HardFails(m, cv8, s.dbh, n, cvt, tarif, s.ht) {
        HardLayerEntries(m, cv4, cv8, s.dbh, n, cvt, tarif, s.ht);
      } else {
        assert HwBfConversion(m, cv4, cv8, s.dbh, n, cvt, tarif, s.ht, "CV6") == Failure(MathError);
      }
    }
  }

  // ---------------------------------------------------------------------
  // Eq_n().calc(DBH, HT, metric[, STEMS])
  // ---------------------------------------------------------------------

  /** `Eq_n().calc(d, h, metric, stems)`; `stems` is read by equations 14,
      14.1, 45 and 46 only. A non-positive diameter or height gives 0 before
      anything else is looked at, the metric name included. */
  function Calc(m: Math, e: EqId, d: real, h: real, metric: string, stems: real): (r: Result<Value, ScriptError>)
    ensures d <= 0.0 || h <= 0.0 ==> r == Success(Num(0.0))
    ensures d > 0.0 && h > 0.0 && ParseRequest(metric).None? ==> r.Failure?
  {
    if d <= 0.0 || h <= 0.0 then Success(Num(0.0))
    else
      var s :- Compute(m, e, d, h, stems);
      Answer(m, e, s, metric)
  }

  /** What `calc` returns once `set_attributes` has stored `s`: `calcBF`,
      then `get`. */
  function Answer(m: Math, e: EqId, s: Stored, metric: string): (r: Result<Value, ScriptError>)
    ensures CalcBF(m, e, s).Failure? ==> r == Failure(CalcBF(m, e, s).error)
  {
    var obj :- CalcBF(m, e, s);
    Get(obj, metric)
  }

  // ---------------------------------------------------------------------
  // Properties
  // ---------------------------------------------------------------------

  /** A call that returns a number that is not negative. */
  predicate NonNegativeNumber(r: Result<Value, ScriptError>) {
    r.Success? && r.value.Num? && r.value.x >= 0.0
  }

  /** A call that returns a positive number. */
  predicate PositiveNumber(r: Result<Value, ScriptError>) {
    r.Success? && r.value.Num? && r.value.x > 0.0
  }

  /** A call of a real tree answers from what its equation stored. */
  lemma {:induction false} CalcAnswers(m: Math, e: EqId, d: real, h: real, metric: string, stems: real,
                                       s: Stored)
    requires d > 0.0 && h > 0.0
    requires Compute(m, e, d, h, stems) == Success(s)
    ensures Calc(m, e, d, h, metric, stems) == Answer(m, e, s, metric)
  {
  }

  /** `get` never serves TARIF, although every equation but the root-collar
      ones stores it: asking for it raises `ValueError` on a real tree. */
  lemma {:induction false} TarifNotServed(m: Math, e: EqId, d: real, h: real, stems: real)
    requires d > 0.0 && h > 0.0
    ensures Calc(m, e, d, h, "TARIF", stems).Failure?
  {
    assert ParseRequest("TARIF").None?;
  }

  // Root-collar species

  /** What `get` answers once `calcBF` found no CV4 on an instance that
      stored CVTS alone: CV6 is `None`, the wood type's boardfoot volumes
      are 0, CVTS is the stored value, and every other request (CVT, CV4,
      CV8, the other wood type's boardfoot volumes, westSV and eastSV) was
      never set, so `get` raises for it once the diameter reaches its
      threshold. */
  lemma {:induction false} UnconvertedGet(s: Stored, w: WoodType, q: Request)
    requires s.values.Keys == {CVTS} && s.ht > 0.0
    requires q != Volume(TARIF)
    ensures Get(WithLayer(s, w, NoValue, 0.0, 0.0, 0.0), RequestName(q))
            == if s.dbh < Threshold(q) then Success(Num(0.0))
               else if q == Volume(CVTS) then Success(Num(s.values[CVTS]))
               else if q == Volume(CV6) then Success(NoValue)
               else if q.Volume? && q.k in Layer(w) then Success(Num(0.0))
               else Failure(MissingAttribute)
  {
    ParseRequestName(q);
  }

  /** What a root-collar species answers from what it stored: the
      boardfoot layer finds no CV4, so `get` reads the unconverted
      instance. */
  lemma {:induction false} DrcAnswer(m: Math, e: EqId, s: Stored, q: Request)
    requires s.values.Keys == {CVTS} && s.dbh > 0.0 && s.ht > 0.0
    requires q != Volume(TARIF)
    ensures Answer(m, e, s, RequestName(q))
            == if s.dbh < Threshold(q) then Success(Num(0.0))
               else if q == Volume(CVTS) then Success(Num(s.values[CVTS]))
               else if q == Volume(CV6) then Success(NoValue)
               else if q.Volume? && q.k in Layer(Wood(e)) then Success(Num(0.0))
               else Failure(MissingAttribute)
  {
    assert !HasSoftInputs(s.values) && !HasHardInputs(s.values);
    assert CalcBF(m, e, s) == Success(WithLayer(s, Wood(e), NoValue, 0.0, 0.0, 0.0));
    UnconvertedGet(s, Wood(e), q);
  }

  /** For the root-collar species every request but CVTS answers 0 below its
      threshold; from it, CV6 is `None`, the wood type's boardfoot volumes
      are 0, and everything else raises. */
  lemma {:induction false} DrcBoardfoot(m: Math, e: EqId, d: real, h: real, stems: real, q: Request)
    requires IsDrc(e) && d > 0.0 && h > 0.0
    requires e == E14_2 || stems == 1.0 || stems > 1.0
    requires q != Volume(TARIF) && q != Volume(CVTS)
    ensures Calc(m, e, d, h, RequestName(q), stems)
            == if d < Threshold(q) then Success(Num(0.0))
               else if q == Volume(CV6) then Success(NoValue)
               else if q.Volume? && q.k in Layer(Wood(e)) then Success(Num(0.0))
               else Failure(MissingAttribute)
  {
    var s := DrcStored(m, e, d, h, stems).value;
    assert Compute(m, e, d, h, stems) == Success(s);
    CalcAnswers(m, e, d, h, RequestName(q), stems, s);
    DrcAnswer(m, e, s, q);
  }

  /** A stem count other than 1 or more leaves equations 14, 14.1, 45 and
      46 with an unbound name, whatever metric was asked for. */
  lemma {:induction false} DrcStemsUnbound(m: Math, e: EqId, d: real, h: real, stems: real, metric: string)
    requires IsDrc(e) && e != E14_2 && d > 0.0 && h > 0.0
    requires !(stems == 1.0 || stems > 1.0)
    ensures Calc(m, e, d, h, metric, stems) == Failure(UnboundName)
  {
    assert Compute(m, e, d, h, stems) == Failure(UnboundName);
  }

  /** The root-collar species' CVTS is positive from a 1-inch collar (the
      0.1 floor replaces any value that is not), and 0 below. */
  lemma {:induction false} DrcCvtsPositive(m: Math, e: EqId, d: real, h: real, stems: real)
    requires IsDrc(e) && d > 0.0 && h > 0.0
    requires e == E14_2 || stems == 1.0 || stems > 1.0
    ensures d >= 1.0 ==> PositiveNumber(Calc(m, e, d, h, "CVTS", stems))
    ensures d < 1.0 ==> Calc(m, e, d, h, "CVTS", stems) == Success(Num(0.0))
  {
    var s := DrcStored(m, e, d, h, stems).value;
    assert Compute(m, e, d, h, stems) == Success(s);
    CalcAnswers(m, e, d, h, "CVTS", stems, s);
    DrcAnswer(m, e, s, Volume(CVTS));
  }

  // Softwoods

  /** The softwood layer leaves the stored cubic volumes for `get`, which
      masks them as the package does. */
  lemma {:induction false} SoftBFReads(m: Math, s: Stored, k: Metric)
    requires s.dbh > 0.0 && s.ht > 0.0 && s.values.Keys == {CVTS, TARIF, CV4, CVT}
    requires k in {CVTS, CVT, CV4}
    ensures SoftBF(m, s).Success?
    ensures Get(SoftBF(m, s).value, Name(k)) == Success(Num(Mask(k, s.dbh, s.ht, s.values[k])))
  {
    GetMasksAsPackage(SoftBF(m, s).value, k, s.values[k]);
  }

  /** A softwood that stored `s` answers CVTS, CVT and CV4 from it,
      masked as the package masks them. */
  lemma {:induction false} SoftAnswer(m: Math, e: EqId, s: Stored, k: Metric)
    requires Wood(e) == Softwood && s.dbh > 0.0 && s.ht > 0.0
    requires s.values.Keys == {CVTS, TARIF, CV4, CVT}
    requires k in {CVTS, CVT, CV4}
    ensures Answer(m, e, s, Name(k)) == Success(Num(Mask(k, s.dbh, s.ht, s.values[k])))
  {
    SoftBFReads(m, s, k);
  }

  /** A softwood call that stored `s` answers CVTS, CVT and CV4 from it. */
  lemma {:induction false} SoftStoredReadOf(m: Math, e: EqId, d: real, h: real, stems: real, k: Metric,
                                            s: Stored)
    requires Wood(e) == Softwood && d > 0.0 && h > 0.0
    requires Compute(m, e, d, h, stems) == Success(s)
    requires s.dbh == d && s.ht == h && s.values.Keys == {CVTS, TARIF, CV4, CVT}
    requires k in {CVTS, CVT, CV4}
    ensures Calc(m, e, d, h, Name(k), stems) == Success(Num(Mask(k, d, h, s.values[k])))
  {
    CalcAnswers(m, e, d, h, Name(k), stems, s);
    SoftAnswer(m, e, s, k);
  }

  /** The cubic volumes every softwood other than the root-collar species
      stores: `calc` returns the stored value from the metric's diameter
      limit and 0 below it. */
  lemma {:induction false} SoftStoredRead(m: Math, e: EqId, d: real, h: real, stems: real, k: Metric)
    requires Wood(e) == Softwood && !IsDrc(e) && d > 0.0 && h > 0.0
    requires k in {CVTS, CVT, CV4}
    ensures Compute(m, e, d, h, stems).Success?
    ensures k in Compute(m, e, d, h, stems).value.values
    ensures Calc(m, e, d, h, Name(k), stems)
            == Success(Num(Mask(k, d, h, Compute(m, e, d, h, stems).value.values[k])))
  {
    GroupsPartition(e);
    if IsFormFactor(e) {
      var s := FormFactorStored(m, e, d, h);
      assert Compute(m, e, d, h, stems) == Success(s);
      SoftStoredReadOf(m, e, d, h, stems, k, s);
    } else {
      var s := SoftTarifStored(m, e, d, h);
      assert Compute(m, e, d, h, stems) == Success(s);
      SoftStoredReadOf(m, e, d, h, stems, k, s);
    }
  }

  /** Western juniper's floors: `calc` answers CVTS as 2 where the CVTS
      equation is negative and CV4 as 1 where the CV4 computed from the
      unfloored CVTS is negative, each masked; so both are non-negative. */
  lemma {:induction false} JuniperFloors(m: Math, d: real, h: real, stems: real, k: Metric)
    requires d > 0.0 && h > 0.0 && k in {CVTS, CV4}
    ensures var cvts := CvtsEquation(m, E21, d, h);
            var cv4 := JuniperCv4(m, d, cvts);
            var v := if k == CVTS then (if cvts < 0.0 then 2.0 else cvts)
                     else (if cv4 < 0.0 then 1.0 else cv4);
            Calc(m, E21, d, h, Name(k), stems) == Success(Num(Mask(k, d, h, v)))
    ensures NonNegativeNumber(Calc(m, E21, d, h, Name(k), stems))
  {
    var s := SoftTarifStored(m, E21, d, h);
    ComputeSoftTarif(m, E21, d, h, stems);
    SoftStoredReadOf(m, E21, d, h, stems, k, s);
  }

  /** Western juniper's CVTS in the two versions, for a tree both keep: the
      package clips a negative equation value to 0, the class version sets it
      to 2, and they agree exactly where the equation is not negative. */
  lemma {:induction false} JuniperCvtsVersions(m: Math, d: real, h: real)
    requires d >= 1.0 && h > 0.0
    ensures var cvts := CvtsEquation(m, E21, d, h);
            PackageVolume.TarifFamilyCvts(m, E21, d, h) == ClipLow(cvts, 0.0)
            && SoftTarifStored(m, E21, d, h).values[CVTS] == (if cvts < 0.0 then 2.0 else cvts)
    ensures PackageVolume.TarifFamilyCvts(m, E21, d, h) == SoftTarifStored(m, E21, d, h).values[CVTS]
            <==> CvtsEquation(m, E21, d, h) >= 0.0
  {
    MaskThresholds(CVTS, d, h, ClipLow(CvtsEquation(m, E21, d, h), 0.0));
  }

  /** The package's tarif-family CVTS, CVT and CV4 of a softwood with a
      CVTS equation other than western juniper, in terms of what the class
      version stores. */
  lemma {:induction false} PackageSoftTarif(m: Math, e: EqId, d: real, h: real)
    requires IsSoftTarif(e) && e != E21 && d > 0.0 && h > 0.0
    ensures PackageVolume.TarifFamilyCvts(m, e, d, h) == Mask(CVTS, d, h, SoftTarifStored(m, e, d, h).values[CVTS])
    ensures PackageVolume.TarifFamilyCvt(m, e, d, h) == Mask(CVT, d, h, SoftTarifStored(m, e, d, h).values[CVT])
    ensures PackageVolume.TarifFamilyCv4(m, e, d, h) == Mask(CV4, d, h, SoftTarifStored(m, e, d, h).values[CV4])
  {
    var s := SoftTarifStored(m, e, d, h);
    PackageTarifFamilyMasks(m, e, d, h, s.values[CVTS], s.values[TARIF]);
  }

  /** The package's tarif family masks one CVTS and one tarif number, so once
      CVTS is not masked, the tarif number is the unmasked quotient. */
  lemma {:induction false} PackageTarifFamilyMasks(m: Math, e: EqId, d: real, h: real, cvts: real, tarif: real)
    requires IsSoftTarif(e) && e != E21 && d > 0.0 && h > 0.0
    requires cvts == CvtsEquation(m, e, d, h) && tarif == Div(cvts * 0.912733, TarifTerm(m, e, d))
    ensures PackageVolume.TarifFamilyCvts(m, e, d, h) == Mask(CVTS, d, h, cvts)
    ensures PackageVolume.TarifFamilyCvt(m, e, d, h) == Mask(CVT, d, h, CvtFromTarif(m, d, tarif))
    ensures PackageVolume.TarifFamilyCv4(m, e, d, h) == Mask(CV4, d, h, Cv4FromTarif(d, tarif))
  {
    if d >= 1.0 {
      PackageTarifNumber(m, e, d, h, cvts, tarif);
    }
  }

  /** Past the CVTS mask, the package's tarif number is the class version's. */
  lemma {:induction false} PackageTarifNumber(m: Math, e: EqId, d: real, h: real, cvts: real, tarif: real)
    requires IsSoftTarif(e) && e != E21 && d >= 1.0 && h > 0.0
    requires cvts == CvtsEquation(m, e, d, h) && tarif == Div(cvts * 0.912733, TarifTerm(m, e, d))
    ensures PackageVolume.TarifFamilyTarif(m, e, d, h) == tarif
  {
    TarifOfKeptCvts(d, h, cvts, PackageVolume.TarifFamilyCvts(m, e, d, h), TarifTerm(m, e, d), tarif);
  }

  /** On a kept tree, the tarif number of the masked CVTS is that of CVTS. */
  lemma {:induction false} TarifOfKeptCvts(d: real, h: real, cvts: real, masked: real, term: real, tarif: real)
    requires d >= 1.0 && h > 0.0 && tarif == Div(cvts * 0.912733, term)
    requires masked == Mask(CVTS, d, h, cvts)
    ensures Mask(TARIF, d, h, Div(masked * 0.912733, term)) == tarif
  {
    CvtsMaskInactive(d, h, cvts);
    MaskThresholds(TARIF, d, h, tarif);
  }

  /** The softwoods with a CVTS equation other than western juniper give
      the package version's CVTS, CVT and CV4 on every real tree. */
  lemma {:induction false} SoftTarifMatchesPackage(m: Math, e: EqId, d: real, h: real, stems: real)
    requires IsSoftTarif(e) && e != E21 && d > 0.0 && h > 0.0
    ensures Calc(m, e, d, h, "CVTS", stems) == Success(Num(PackageVolume.Cvts(m, e, d, h)))
    ensures Calc(m, e, d, h, "CVT", stems) == Success(Num(PackageVolume.Cvt(m, e, d, h)))
    ensures Calc(m, e, d, h, "CV4", stems) == Success(Num(PackageVolume.Cv4(m, e, d, h)))
  {
    var s := SoftTarifStored(m, e, d, h);
    ComputeSoftTarif(m, e, d, h, stems);
    SoftStoredReadOf(m, e, d, h, stems, CVTS, s);
    SoftStoredReadOf(m, e, d, h, stems, CVT, s);
    SoftStoredReadOf(m, e, d, h, stems, CV4, s);
    PackageSoftTarif(m, e, d, h);
    PackageVolume.TarifFamilyDispatch(m, e, d, h);
  }

  // Hardwoods

  /** A hardwood layer that did not raise leaves the stored cubic volumes
      for `get`, which masks them as the package does. */
  lemma {:induction false} HardBFReads(m: Math, n: real, s: Stored, k: Metric)
    requires s.ht > 0.0 && s.values.Keys == {CVTS, TARIF, CV4, CVT, CV8}
    requires k in {CVTS, CVT, CV4, CV8}
    requires HardBF(m, n, s).Success?
    ensures Get(HardBF(m, n, s).value, Name(k)) == Success(Num(Mask(k, s.dbh, s.ht, s.values[k])))
  {
    GetMasksAsPackage(HardBF(m, n, s).value, k, s.values[k]);
  }

  /** A hardwood that stored `s` answers its cubic volumes from it, masked
      as the package masks them, unless its boardfoot layer raises. */
  lemma {:induction false} HardAnswer(m: Math, e: EqId, s: Stored, k: Metric)
    requires Wood(e) == Hardwood && s.dbh > 0.0 && s.ht > 0.0
    requires s.values.Keys == {CVTS, TARIF, CV4, CVT, CV8}
    requires k in {CVTS, CVT, CV4, CV8}
    requires !HardLayerFails(e, m, s)
    ensures Answer(m, e, s, Name(k)) == Success(Num(Mask(k, s.dbh, s.ht, s.values[k])))
  {
    HardBFReads(m, Number(e), s, k);
  }

  /** A hardwood call that stored `s` answers from it, or raises. */
  lemma {:induction false} HardStoredReadOf(m: Math, e: EqId, d: real, h: real, stems: real, k: Metric,
                                            s: Stored)
    requires Wood(e) == Hardwood && d > 0.0 && h > 0.0
    requires Compute(m, e, d, h, stems) == Success(s)
    requires s.dbh == d && s.ht > 0.0 && s.values.Keys == {CVTS, TARIF, CV4, CVT, CV8}
    requires k in {CVTS, CVT, CV4, CV8}
    ensures HardLayerFails(e, m, s) ==> Calc(m, e, d, h, Name(k), stems) == Failure(Conversion(MathError))
    ensures !HardLayerFails(e, m, s) ==>
              Calc(m, e, d, h, Name(k), stems) == Success(Num(Mask(k, d, h, s.values[k])))
  {
    CalcAnswers(m, e, d, h, Name(k), stems, s);
    if !HardLayerFails(e, m, s) {
      HardAnswer(m, e, s, k);
    }
  }

  /** The softwoods with a CVTS equation store their tarif volumes. */
  lemma {:induction false} ComputeSoftTarif(m: Math, e: EqId, d: real, h: real, stems: real)
    requires IsSoftTarif(e)
    ensures Compute(m, e, d, h, stems) == Success(SoftTarifStored(m, e, d, h))
  {
    GroupsPartition(e);
  }

  /** Red alder stores its volumes at the raised height. */
  lemma {:induction false} ComputeAlder(m: Math, d: real, h: real, stems: real)
    ensures Compute(m, E25, d, h, stems) == Success(AlderStored(m, d, h))
  {
    GroupsPartition(E25);
  }

  /** Hardwoods 26 to 31 store their tarif volumes. */
  lemma {:induction false} ComputeHardTarif(m: Math, e: EqId, d: real, h: real, stems: real)
    requires IsHardTarif(e) && e != E25
    ensures Compute(m, e, d, h, stems) == Success(HardTarifStored(m, e, d, h))
  {
    GroupsByNumber(e);
    HardGroupsByWood(e);
    assert !IsDrc(e) && !IsFormFactor(e) && !IsSoftTarif(e);
  }

  /** The Pillsbury hardwoods store their power-law volumes. */
  lemma {:induction false} ComputePowerLaw(m: Math, e: EqId, d: real, h: real, stems: real)
    requires IsPowerLaw(e)
    ensures Compute(m, e, d, h, stems) == Success(PowerLawStored(m, e, d, h))
  {
    GroupsByNumber(e);
    HardGroupsByWood(e);
    assert !IsDrc(e) && !IsFormFactor(e) && !IsSoftTarif(e) && e != E25 && !IsHardTarif(e);
  }

  /** Red alder works with a height of at least 18 feet: any shorter tree
      stores what an 18-foot one does. */
  lemma {:induction false} AlderHeightRaised(m: Math, d: real, h: real, stems: real)
    requires 0.0 < h < 18.0
    ensures Compute(m, E25, d, h, stems) == Compute(m, E25, d, 18.0, stems)
  {
    assert Max(h, 18.0) == 18.0 == Max(18.0, 18.0);
  }

  /** Red alder's CVTS is clipped at 0: every CVTS it returns is
      non-negative. */
  lemma {:induction false} AlderCvtsNonNegative(m: Math, d: real, h: real, stems: real)
    requires d > 0.0 && h > 0.0
    ensures Calc(m, E25, d, h, "CVTS", stems).Success? ==> NonNegativeNumber(Calc(m, E25, d, h, "CVTS", stems))
  {
    var s := AlderStored(m, d, h);
    ComputeAlder(m, d, h, stems);
    HardStoredReadOf(m, E25, d, h, stems, CVTS, s);
    if !HardLayerFails(E25, m, s) {
      NonNegativeMask(CVTS, d, h, s.values[CVTS], Calc(m, E25, d, h, "CVTS", stems));
    }
  }

  /** A masked non-negative value, returned as a number, is a non-negative
      number. */
  lemma {:induction false} NonNegativeMask(k: Metric, d: real, h: real, x: real, r: Result<Value, ScriptError>)
    requires x >= 0.0 && r == Success(Num(Mask(k, d, h, x)))
    ensures NonNegativeNumber(r)
  {
  }

  /** Equations 34 and 40 cap the height at 120 feet: any taller tree
      stores what a 120-foot one does. */
  lemma {:induction false} PillsburyHeightCapped(m: Math, e: EqId, d: real, h: real, stems: real)
    requires e in {E34, E40} && h > 120.0
    ensures Compute(m, e, d, h, stems) == Compute(m, e, d, 120.0, stems)
  {
    ComputePowerLaw(m, e, d, h, stems);
    ComputePowerLaw(m, e, d, 120.0, stems);
    assert PillsburyHeight(e, h) == 120.0 == PillsburyHeight(e, 120.0);
  }

  /** The package's XINT6 takes the logarithm of the tarif number as computed,
      while its SV616 and SV632, like the class version's conversion for all
      three, use the tarif number floored at 0.01. The package's XINT6 is
      therefore the conversion's only where the tarif number reaches 0.01. */
  lemma {:induction false} PackageXint6Unfloored(m: Math, e: EqId, d: real, h: real, t: real, cv4: real)
    requires !IsDrc(e) && !Masked(XINT6, d, h)
    requires t == PackageVolume.Tarif(m, e, d, h) && cv4 == PackageVolume.Cv4(m, e, d, h)
    ensures var c := SoftConvert(m, d, cv4, t);
            && PackageVolume.SoftCv6(m, e, d, h) == c.cv6
            && PackageVolume.SoftSv616(m, e, d, h) == ClipLow(c.sv616, 0.0)
            && PackageVolume.SoftSv632(m, e, d, h) == ClipLow(c.rs632 * ClipLow(c.sv616, 0.0), 0.0)
            && PackageVolume.SoftXint6(m, e, d, h) == ClipLow(Ri6(m, d, t) * c.cv6, 0.0)
            && c.xint6 == Ri6(m, d, SoftTarif(t)) * c.cv6
            && (t >= 0.01 ==> PackageVolume.SoftXint6(m, e, d, h) == ClipLow(c.xint6, 0.0))
  {
    var cv6 := PackageVolume.SoftCv6(m, e, d, h);
    var sv616 := PackageVolume.SoftSv616(m, e, d, h);
    assert cv6 == Mask(CV6, d, h, PackageVolume.CappedCv6(m, d, cv4));
    assert sv616 == PackageVolume.ClippedProduct(SV616, d, h, m.pow(10.0, SoftRs616l(m, d, B4(ClipLow(t, 0.01)))), cv6);
    assert PackageVolume.SoftSv632(m, e, d, h) == PackageVolume.ClippedProduct(SV632, d, h, Rs632(d, ClipLow(t, 0.01)), sv616);
    assert PackageVolume.SoftXint6(m, e, d, h) == PackageVolume.ClippedProduct(XINT6, d, h, Ri6(m, d, t), cv6);
    SoftLayerAgainstConversion(m, d, h, t, cv4);
  }

  /** The package's softwood boardfoot methods for given CV4 and tarif values,
      against the conversion's table for the same values. */
  lemma {:induction false} SoftLayerAgainstConversion(m: Math, d: real, h: real, t: real, cv4: real)
    requires d >= 9.0 && h > 0.0
    ensures var c := SoftConvert(m, d, cv4, t);
            var cv6 := Mask(CV6, d, h, PackageVolume.CappedCv6(m, d, cv4));
            var sv616 := PackageVolume.ClippedProduct(SV616, d, h, m.pow(10.0, SoftRs616l(m, d, B4(ClipLow(t, 0.01)))), cv6);
            && cv6 == c.cv6
            && sv616 == ClipLow(c.sv616, 0.0)
            && PackageVolume.ClippedProduct(SV632, d, h, Rs632(d, ClipLow(t, 0.01)), sv616)
               == ClipLow(c.rs632 * ClipLow(c.sv616, 0.0), 0.0)
            && PackageVolume.ClippedProduct(XINT6, d, h, Ri6(m, d, t), cv6) == ClipLow(Ri6(m, d, t) * c.cv6, 0.0)
            && c.xint6 == Ri6(m, d, SoftTarif(t)) * c.cv6
            && (t >= 0.01 ==> PackageVolume.ClippedProduct(XINT6, d, h, Ri6(m, d, t), cv6) == ClipLow(c.xint6, 0.0))
  {
  }

  /** The package's hardwood boardfoot methods against the table
      `HW_BFConversion` builds from the package's own CV4X and TARIFX: each
      volume is the table's, clipped at 0, as long as the volumes it is built
      from are not negative. Where the package's CV4X and TARIFX are the class
      version's, that table is `HardConvert`'s; which equations take the
      polynomial differs between the two (see
      `PackageVolume.HardwoodXRuleReversed`). */
  lemma {:induction false} PackageHardAgainstConversion(m: Math, e: EqId, d: real, h: real, cv4: real, cv8: real)
    requires !IsDrc(e) && Wood(e) == Hardwood && d >= 11.0 && h > 0.0
    ensures var c := HardTable(m, d, cv4, cv8, PackageVolume.Cv4x(m, e, d, h), PackageVolume.Tarifx(m, e, d, h));
            && PackageVolume.HardCv6(m, e, d, h) == ClipLow(c.cv6, 0.0)
            && (c.cv6 >= 0.0 ==>
                  PackageVolume.HardSv616(m, e, d, h) == ClipLow(c.sv616, 0.0)
                  && PackageVolume.HardXint6(m, e, d, h) == ClipLow(c.xint6, 0.0))
            && (c.cv6 >= 0.0 && c.sv616 >= 0.0 ==> PackageVolume.HardSv816(m, e, d, h) == ClipLow(c.sv816, 0.0))
            && (c.cv6 >= 0.0 && c.xint6 >= 0.0 ==> PackageVolume.HardXint8(m, e, d, h) == ClipLow(c.xint8, 0.0))
  {
    var cv4x, tarifx := PackageVolume.Cv4x(m, e, d, h), PackageVolume.Tarifx(m, e, d, h);
    var cv6 := PackageVolume.HardCv6(m, e, d, h);
    var sv616 := PackageVolume.HardSv616(m, e, d, h);
    var xint6 := PackageVolume.HardXint6(m, e, d, h);
    assert cv6 == PackageVolume.ClippedProduct(CV6, d, h, Rc6(m, d), cv4x);
    assert sv616 == PackageVolume.ClippedProduct(SV616, d, h, m.pow(10.0, HardRs616l(m, d, B4(tarifx))), cv6);
    assert xint6 == PackageVolume.ClippedProduct(XINT6, d, h, Ri6(m, d, tarifx), cv6);
    assert PackageVolume.HardSv816(m, e, d, h) == PackageVolume.ClippedProduct(SV816, d, h, Rs816(m, d), sv616);
    assert PackageVolume.HardXint8(m, e, d, h) == PackageVolume.ClippedProduct(XINT8, d, h, Ri8(m, d), xint6);
    HardLayerAgainstConversion(m, d, h, cv4, cv8, cv4x, tarifx);
  }

  /** The package's hardwood formulas applied to given CV4X and TARIFX,
      against the conversion's table for the same values. */
  lemma {:induction false} HardLayerAgainstConversion(m: Math, d: real, h: real, cv4: real, cv8: real,
                                                     cv4x: real, tarifx: real)
    requires d >= 11.0 && h > 0.0
    ensures var c := HardTable(m, d, cv4, cv8, cv4x, tarifx);
            var cv6 := PackageVolume.ClippedProduct(CV6, d, h, Rc6(m, d), cv4x);
            var sv616 := PackageVolume.ClippedProduct(SV616, d, h, m.pow(10.0, HardRs616l(m, d, B4(tarifx))), cv6);
            var xint6 := PackageVolume.ClippedProduct(XINT6, d, h, Ri6(m, d, tarifx), cv6);
            && cv6 == ClipLow(c.cv6, 0.0)
            && (c.cv6 >= 0.0 ==> sv616 == ClipLow(c.sv616, 0.0) && xint6 == ClipLow(c.xint6, 0.0))
            && (c.cv6 >= 0.0 && c.sv616 >= 0.0 ==>
                  PackageVolume.ClippedProduct(SV816, d, h, Rs816(m, d), sv616) == ClipLow(c.sv816, 0.0))
            && (c.cv6 >= 0.0 && c.xint6 >= 0.0 ==>
                  PackageVolume.ClippedProduct(XINT8, d, h, Ri8(m, d), xint6) == ClipLow(c.xint8, 0.0))
  {
    var c := HardTable(m, d, cv4, cv8, cv4x, tarifx);
    var cv6 := PackageVolume.ClippedProduct(CV6, d, h, Rc6(m, d), cv4x);
    var sv616 := PackageVolume.ClippedProduct(SV616, d, h, m.pow(10.0, HardRs616l(m, d, B4(tarifx))), cv6);
    var xint6 := PackageVolume.ClippedProduct(XINT6, d, h, Ri6(m, d, tarifx), cv6);
    ClippedProductKept(CV6, d, h, Rc6(m, d), cv4x);
    ClippedProductKept(SV616, d, h, m.pow(10.0, HardRs616l(m, d, B4(tarifx))), cv6);
    ClippedProductKept(XINT6, d, h, Ri6(m, d, tarifx), cv6);
    ClippedProductKept(SV816, d, h, Rs816(m, d), sv616);
    ClippedProductKept(XINT8, d, h, Ri8(m, d), xint6);
  }

  /** From 11 inches on, a tree of positive height keeps every boardfoot
      product, clipped at 0. */
  lemma {:induction false} ClippedProductKept(k: Metric, d: real, h: real, ratio: real, volume: real)
    requires k in {CV6, SV616, XINT6, SV816, XINT8} && d >= 11.0 && h > 0.0
    ensures PackageVolume.ClippedProduct(k, d, h, ratio, volume) == ClipLow(ratio * volume, 0.0)
  {
    MaskThresholds(k, d, h, ClipLow(ratio * volume, 0.0));
  }

  /** Equations 34 and 40: the package works with the measured height, the
      class version (and the function version, which stores the same
      volumes) with the height capped at 120 feet. Up to 120 feet they agree. */
  lemma {:induction false} PillsburyHeightVersions(m: Math, e: EqId, d: real, h: real)
    requires e in {E34, E40} && d >= 1.0 && h > 0.0
    ensures var s := PowerLawStored(m, e, d, h).values;
            && PackageVolume.PowerLawCvts(m, e, d, h) == PowerLaw(m, PillsburyCvts(e), d, h)
            && s[CVTS] == PowerLaw(m, PillsburyCvts(e), d, Min(h, 120.0))
            && (d >= 5.0 ==> PackageVolume.PowerLawCv4(m, e, d, h) == PowerLaw(m, PillsburyCv4(e), d, h))
            && s[CV4] == PowerLaw(m, PillsburyCv4(e), d, Min(h, 120.0))
            && (h <= 120.0 ==> PackageVolume.PowerLawCvts(m, e, d, h) == s[CVTS])
            && (h <= 120.0 && d >= 5.0 ==> PackageVolume.PowerLawCv4(m, e, d, h) == s[CV4])
  {
    var hc := PillsburyHeight(e, h);
    assert PowerLawStored(m, e, d, h) == PowerLawAt(m, e, d, hc);
    PowerLawAtReads(m, e, d, hc);
    CvtsMaskInactive(d, h, PowerLaw(m, PillsburyCvts(e), d, h));
    MaskThresholds(CV4, d, h, PowerLaw(m, PillsburyCv4(e), d, h));
  }

  lemma {:induction false} PowerLawAtReads(m: Math, e: EqId, d: real, hc: real)
    requires IsPowerLaw(e)
    ensures PowerLawAt(m, e, d, hc).values[CVTS] == PowerLaw(m, PillsburyCvts(e), d, hc)
    ensures PowerLawAt(m, e, d, hc).values[CV4] == PowerLaw(m, PillsburyCv4(e), d, hc)
  {
  }
}
