/** The function version of the volume engine (ARB_Volume_Equations.py at the
    top of the repository): one function `Eq_n(DBH, HT, metric)` per equation,
    which computes its volumes with no guard on the diameter or height,
    records them with the diameter (and, for hardwoods, the equation number
    and height) in a dictionary keyed by name, and answers through
    `get_metric`. The root-collar equations take a stem count as well and
    answer every name they did not compute with 0. */
module RootVolume {
  import opened Wrappers
  import opened Numeric
  import opened Species
  import opened Formulas
  import opened Metrics
  import opened Taper
  import opened BoardFoot
  import ScriptVolume
  import PackageVolume

  // ---------------------------------------------------------------------
  // The dictionary of an equation and get_metric
  // ---------------------------------------------------------------------

  /** A dictionary key: one of the volume metrics, or one of the inputs and
      intermediates an equation records next to them. */
  datatype Key = Vol(metric: Metric) | Dbh | Ht | EqNumber | Cvtsl | Drc | Stems

  /** The key's name in the dictionary; names are case-sensitive. */
  function KeyName(k: Key): string {
    match k
    case Vol(j) => Name(j)
    case Dbh => "DBH"
    case Ht => "HT"
    case EqNumber => "eq_number"
    case Cvtsl => "CVTSL"
    case Drc => "DRC"
    case Stems => "STEMS"
  }

  /** The key a name denotes, if any. */
  function ParseKey(s: string): (r: Option<Key>)
    ensures r.Some? ==> KeyName(r.value) == s
    ensures r.None? ==> forall j: Metric :: Name(j) != s
  {
    if s == "DBH" then Some(Dbh)
    else if s == "HT" then Some(Ht)
    else if s == "eq_number" then Some(EqNumber)
    else if s == "CVTSL" then Some(Cvtsl)
    else if s == "DRC" then Some(Drc)
    else if s == "STEMS" then Some(Stems)
    else
      match Find(s, Available)
      case Some(j) => Some(Vol(j))
      case None => AvailableComplete(s); None
  }

  /** Every metric is in the catalogue, so a name `Find` does not know is
      no metric's name. */
  lemma AvailableComplete(s: string)
    requires Find(s, Available).None?
    ensures forall j: Metric :: Name(j) != s
  {
    forall j: Metric
      ensures Name(j) != s
    {
      AvailableIsComplete(j);
    }
  }

  /** A call's exceptions: `KeyError` for a dictionary entry that is not
      there and the conversions' `MathError`, or an unbound local for a
      root-collar input outside the branches that assign it. */
  datatype RootError = Raised(cause: BfError) | UnboundLocal

  function Lift(r: Result<real, BfError>): (v: Result<real, RootError>)
    ensures r.Success? ==> v == Success(r.value)
    ensures r.Failure? ==> v == Failure(Raised(r.error))
  {
    match r
    case Success(x) => Success(x)
    case Failure(b) => Failure(Raised(b))
  }

  /** The lookup `metric_dict[metric]`, or None for its `KeyError`. */
  function Entry(dict: map<Key, real>, metric: string): (r: Option<real>)
    ensures r.Some? ==> exists k :: k in dict && KeyName(k) == metric && dict[k] == r.value
    ensures r.None? ==> forall k :: k in dict ==> KeyName(k) != metric
  {
    match ParseKey(metric)
    case Some(k) =>
      if k in dict then Some(dict[k])
      else KeyNamesDistinct(k); None
    case None => None
  }

  /** Distinct keys have distinct names. */
  lemma KeyNamesDistinct(k: Key)
    ensures forall j :: KeyName(j) == KeyName(k) ==> j == k
  {
    forall j | KeyName(j) == KeyName(k)
      ensures j == k
    {
      if j.Vol? && k.Vol? {
        NamesDistinct(j.metric, k.metric);
      }
    }
  }

  /** The fallback of `get_metric`: the boardfoot conversion of the wood
      type, called with entries of the dictionary; a missing entry raises
      `KeyError`. */
  function Convert(m: Math, dict: map<Key, real>, metric: string, w: WoodType): Result<real, RootError> {
    if w == Softwood then
      if Dbh in dict && Vol(CV4) in dict && Vol(TARIF) in dict then
        Lift(SwBfConversion(m, dict[Dbh], dict[Vol(CV4)], dict[Vol(TARIF)], metric))
      else Failure(Raised(KeyError))
    else if Vol(CV4) in dict && Vol(CV8) in dict && Dbh in dict && EqNumber in dict
            && Vol(CVT) in dict && Vol(TARIF) in dict && Ht in dict then
      Lift(HwBfConversion(m, dict[Vol(CV4)], dict[Vol(CV8)], dict[Dbh], dict[EqNumber],
                          dict[Vol(CVT)], dict[Vol(TARIF)], dict[Ht], metric))
    else Failure(Raised(KeyError))
  }

  /** `get_metric(metric_dict, metric, wood_type)`: "total_cubic" is the CVT
      entry, a name in the dictionary is its entry, and any other name goes to
      the boardfoot conversion. */
  function GetMetric(m: Math, dict: map<Key, real>, metric: string, w: WoodType): (r: Result<real, RootError>)
    ensures metric == "total_cubic" ==> (r.Success? <==> Vol(CVT) in dict)
    ensures metric == "total_cubic" && Vol(CVT) in dict ==> r.value == dict[Vol(CVT)]
    ensures metric != "total_cubic" && Entry(dict, metric).Some? ==> r == Success(Entry(dict, metric).value)
    ensures metric != "total_cubic" && Entry(dict, metric).None? ==> r == Convert(m, dict, metric, w)
  {
    if metric == "total_cubic" then
      if Vol(CVT) in dict then Success(dict[Vol(CVT)]) else Failure(Raised(KeyError))
    else
      match Entry(dict, metric)
      case Some(v) => Success(v)
      case None => Convert(m, dict, metric, w)
  }

  // ---------------------------------------------------------------------
  // The dictionaries of the equations measured at breast height
  // ---------------------------------------------------------------------

  /** The volume entries of what an equation computed. */
  function Volumes(s: ScriptVolume.Stored): (r: map<Key, real>)
    ensures forall k :: k in r <==> k.Vol? && k.metric in s.values
    ensures forall k :: k in r ==> r[k] == s.values[k.metric]
  {
    map j | j in s.values :: Vol(j) := s.values[j]
  }

  /** A softwood's dictionary: its volumes and DBH. */
  function SoftEntries(s: ScriptVolume.Stored): map<Key, real> {
    Volumes(s)[Dbh := s.dbh]
  }

  /** A hardwood's dictionary: its volumes, DBH, the equation number and the
      height it worked with. */
  function HardEntries(s: ScriptVolume.Stored, e: EqId): map<Key, real> {
    Volumes(s)[Dbh := s.dbh][EqNumber := Number(e)][Ht := s.ht]
  }

  /** The form-factor softwoods: the two-regime taper with CF4 clamped into
      [0.3, 0.4] for every equation, 19 included, and CVTS floored at 0. */
  function FormFactorStored(m: Math, e: EqId, d: real, h: real): (s: ScriptVolume.Stored)
    requires IsFormFactor(e)
    ensures s.dbh == d && s.ht == h && s.values.Keys == {CVTS, TARIF, CV4, CVT}
    ensures s.values[CVTS] >= 0.0
  {
    var c := ClassTaper(m, d, h, FunctionCf4(e, d, h), FunctionCf4(e, 6.0, h));
    ScriptVolume.Stored(d, h, map[CVTS := Max(0.0, c.cvts), TARIF := c.tarif, CV4 := c.cv4, CVT := c.cvt])
  }

  /** Red alder (25) as this version writes it: the height raised to 18
      feet, CVT from the taper function, and a tarif divisor and CVTS factor
      whose constants differ from the class version's (1.051 for 0.1051, the
      whole-diameter exponent, and BA times 0.087266 in the CVTS factor). */
  function AlderStored(m: Math, d: real, h: real): (s: ScriptVolume.Stored)
    ensures s.dbh == d && s.ht == Max(h, 18.0) && s.values.Keys == {CVTS, TARIF, CV4, CVT, CV8}
    ensures s.values[CVTS] >= 0.0
    ensures s.values[CV8] == Rc8(m, d) * s.values[CV4]
  {
    var h18 := Max(h, 18.0);
    var ba := BasalArea(d);
    var cvt := RedAlderCvt(m, d, h18);
    var divisor := (0.9679 - 1.051 * m.pow(0.5523, d - 1.5)) * (1.033 * (1.0 + 1.382937 * m.exp(-4.015292 * d)))
                   * (ba + 0.087266) - 0.174533;
    var tarif := Div(cvt * 0.912733, divisor);
    var factor := (1.0330 * (1.0 + 1.382937 * m.exp(-4.015292 * (d / 10.0)))) * (ba * 0.087266) - 0.174533;
    var cv4 := Cv4FromTarif(d, tarif);
    ScriptVolume.Stored(d, h18, map[CVTS := Max(0.0, tarif * factor / 0.912733), TARIF := tarif,
                                    CV4 := cv4, CVT := cvt, CV8 := Rc8(m, d) * cv4])
  }

  /** The dictionary an equation measured at breast height answers from. The
      tarif-family softwoods, hardwoods 26 to 31 and the power-law hardwoods
      compute exactly what the class version stores. */
  function Dict(m: Math, e: EqId, d: real, h: real): map<Key, real>
    requires !IsDrc(e)
  {
    match FamilyOf(e)
    case ByFormFactor => SoftEntries(FormFactorStored(m, e, d, h))
    case BySoftTarif =>
      var entries := SoftEntries(ScriptVolume.SoftTarifStored(m, e, d, h));
      if e == E1 || e == E2 then entries[Cvtsl := LogCvts(m, e, d, h)] else entries
    case RedAlder => HardEntries(AlderStored(m, d, h), e)
    case ByHardTarif => HardEntries(ScriptVolume.HardTarifStored(m, e, d, h), e)
    case ByPowerLaw => HardEntries(ScriptVolume.PowerLawStored(m, e, d, h), e)
    case AtCollar => map[]
  }

  // ---------------------------------------------------------------------
  // The root-collar equations (14, 14.1, 14.2, 45, 46)
  // ---------------------------------------------------------------------

  /** The size factor DRC^2 HT the pinyon-juniper and mahogany equations
      take the cube root of; pinyon-juniper sets it to 0 below a 3-inch
      collar or at a height of 0, and mahogany leaves it unassigned there
      (see `DrcUnbound`). */
  function DrcFactor(e: EqId, drc: real, h: real): real {
    if e == E45 then drc * drc * h else ScriptVolume.SizeFactor(drc, h, 0.0)
  }

  /** The cubed volume of a root-collar equation before its floor, given the
      value `root` the code computes for the cube root of the size factor
      (mesquite works with DRC^2 HT / 1000 directly). */
  function DrcVolumeAt(e: EqId, drc: real, h: real, stems: real, root: real): real
    requires IsDrc(e)
  {
    if e in {E14, E14_1, E14_2} then JuniperCube(e, root, if stems == 1.0 then 1.0 else 0.0)
    else if e == E45 then MahoganyCube(root, stems == 1.0)
    else
      var x := MesquiteSize(drc, h);
      if stems > 1.0 then (if x <= 2.0 then MesquiteMultiSmall(x) else MesquiteMultiLarge(x))
      else MesquiteSingle(x)
  }

  /** The stem count and, for equation 45, the size factor are assigned only
      in some branches; outside them the volume statement reads an unbound
      local. */
  predicate DrcUnbound(e: EqId, drc: real, h: real, stems: real) {
    (e != E14_2 && !(stems == 1.0 || stems > 1.0)) || (e == E45 && !(drc >= 3.0 && h > 0.0))
  }

  /** CVTS of a root-collar equation from the root value: the cubed volume,
      0.1 where it is not positive. */
  function DrcCvtsFrom(e: EqId, drc: real, h: real, stems: real, root: real): (r: Result<real, RootError>)
    requires IsDrc(e)
    ensures r.Failure? <==> DrcUnbound(e, drc, h, stems)
    ensures r.Failure? ==> r.error == UnboundLocal
    ensures r.Success? ==> r.value > 0.0
  {
    if DrcUnbound(e, drc, h, stems) then Failure(UnboundLocal)
    else Success(FloorNonPositive(DrcVolumeAt(e, drc, h, stems, root), 0.1))
  }

  /** CVTS as the code writes it: `Factor**(1/3)` under Python 2, where
      `1/3` is the integer 0, so the root value is `Factor**0`, which is 1
      whatever the factor. */
  function DrcCvtsAsWritten(e: EqId, drc: real, h: real, stems: real): (r: Result<real, RootError>)
    requires IsDrc(e)
    ensures r.Failure? <==> DrcUnbound(e, drc, h, stems)
    ensures r.Success? ==> r.value > 0.0
    ensures forall m: Math :: m.cbrt(DrcFactor(e, drc, h)) == 1.0 ==> r == DrcCvts(m, e, drc, h, stems)
  {
    DrcCvtsFrom(e, drc, h, stems, 1.0)
  }

  /** CVTS as evidently intended and as the class and package versions
      compute it, with the real cube root of the size factor. The rest of the
      model uses this one. */
  function DrcCvts(m: Math, e: EqId, drc: real, h: real, stems: real): Result<real, RootError>
    requires IsDrc(e)
  {
    DrcCvtsFrom(e, drc, h, stems, m.cbrt(DrcFactor(e, drc, h)))
  }

  /** The dictionary of a root-collar equation: CVTS, and for the
      pinyon-juniper equations DRC and (but for 14.2) STEMS. */
  function DrcDict(e: EqId, cvts: real, drc: real, stems: real): (r: map<Key, real>)
    requires IsDrc(e)
    ensures Dbh !in r && Vol(CVTS) in r && r[Vol(CVTS)] == cvts
  {
    if e in {E14, E14_1} then map[Vol(CVTS) := cvts, Drc := drc, Stems := stems]
    else if e == E14_2 then map[Vol(CVTS) := cvts, Drc := drc]
    else map[Vol(CVTS) := cvts]
  }

  /** A root-collar equation's answer: CVTS for "total_cubic"; otherwise the
      pinyon-junipers call `get_metric` and equations 45 and 46 read the
      dictionary, and any exception becomes 0. */
  function DrcVolume(m: Math, e: EqId, drc: real, h: real, stems: real, metric: string): Result<real, RootError>
    requires IsDrc(e)
  {
    var cvts :- DrcCvts(m, e, drc, h, stems);
    if metric == "total_cubic" then Success(cvts)
    else Success(DrcLookup(m, e, DrcDict(e, cvts, drc, stems), metric))
  }

  /** The `try` of a root-collar equation: `get_metric` for the
      pinyon-junipers, the dictionary lookup for 45 and 46, and 0 for any
      exception. */
  function DrcLookup(m: Math, e: EqId, dict: map<Key, real>, metric: string): real {
    if e in {E14, E14_1, E14_2} then
      match GetMetric(m, dict, metric, Softwood)
      case Success(v) => v
      case Failure(_) => 0.0
    else
      match Entry(dict, metric)
      case Some(v) => v
      case None => 0.0
  }

  /** `Eq_n(DBH, HT, metric)`, or `Eq_n(DRC, HT, STEMS, metric)` for the
      root-collar equations (14.2 takes no stem count and ignores `stems`). */
  function Volume(m: Math, e: EqId, d: real, h: real, stems: real, metric: string): (r: Result<real, RootError>)
    ensures IsDrc(e) ==> (r.Failure? <==> DrcUnbound(e, d, h, stems))
    ensures IsDrc(e) && r.Failure? ==> r.error == UnboundLocal
    ensures IsDrc(e) && metric == "total_cubic" && r.Success? ==> r.value > 0.0
  {
    if IsDrc(e) then DrcVolume(m, e, d, h, stems, metric)
    else GetMetric(m, Dict(m, e, d, h), metric, Wood(e))
  }

  // ---------------------------------------------------------------------
  // Properties: the dictionary and get_metric
  // ---------------------------------------------------------------------

  /** No key is named "total_cubic". */
  lemma TotalCubicIsNoKey(k: Key)
    ensures KeyName(k) != "total_cubic"
  {
  }

  /** Every key's name reads back as that key. */
  lemma {:induction false} ParseKeyName(k: Key)
    ensures ParseKey(KeyName(k)) == Some(k)
  {
    if k.Vol? {
      NotReserved(k.metric);
      AvailableIsComplete(k.metric);
      var f := Find(Name(k.metric), Available);
      assert f.Some?;
      NamesDistinct(f.value, k.metric);
    }
  }

  /** No metric is named like one of the other keys. */
  lemma NotReserved(j: Metric)
    ensures Name(j) != "DBH" && Name(j) != "HT" && Name(j) != "eq_number"
    ensures Name(j) != "CVTSL" && Name(j) != "DRC" && Name(j) != "STEMS"
  {
    match j
    case CVTS =>
    case TARIF =>
    case CVT =>
    case CV4 =>
    case CV6 =>
    case CV8 =>
    case SV616 =>
    case SV816 =>
    case SV632 =>
    case XINT6 =>
    case XINT8 =>
  }

  /** The lookup of a key's name finds that key's entry. */
  lemma {:induction false} KeyEntry(dict: map<Key, real>, k: Key)
    requires k in dict
    ensures Entry(dict, KeyName(k)) == Some(dict[k])
  {
    ParseKeyName(k);
  }

  /** `get_metric` answers the name of any entry of the dictionary with that
      entry. */
  lemma {:induction false} KeyRead(m: Math, dict: map<Key, real>, k: Key, w: WoodType)
    requires k in dict
    ensures GetMetric(m, dict, KeyName(k), w) == Success(dict[k])
  {
    TotalCubicIsNoKey(k);
    KeyEntry(dict, k);
  }

  /** `get_metric` sends a name no entry has, other than "total_cubic", to
      the conversion. */
  lemma {:induction false} AbsentConverts(m: Math, dict: map<Key, real>, metric: string, w: WoodType,
                                          names: set<string>)
    requires metric != "total_cubic" && metric !in names
    requires forall k :: k in dict ==> KeyName(k) in names
    ensures GetMetric(m, dict, metric, w) == Convert(m, dict, metric, w)
  {
    assert Entry(dict, metric).None?;
  }

  /** An equation measured at breast height answers through `get_metric` on
      its dictionary. */
  lemma {:induction false} VolumeReadsDict(m: Math, e: EqId, d: real, h: real, stems: real, metric: string)
    requires !IsDrc(e)
    ensures Volume(m, e, d, h, stems, metric) == GetMetric(m, Dict(m, e, d, h), metric, Wood(e))
  {
  }

  /** The keys of a softwood dictionary built from four stored volumes. */
  lemma {:induction false} SoftEntriesKeys(s: ScriptVolume.Stored)
    requires s.values.Keys == {CVTS, TARIF, CV4, CVT}
    ensures SoftEntries(s).Keys == {Vol(CVTS), Vol(TARIF), Vol(CV4), Vol(CVT), Dbh}
    ensures SoftEntries(s)[Dbh] == s.dbh
    ensures forall j :: j in s.values ==> SoftEntries(s)[Vol(j)] == s.values[j]
  {
    var v := Volumes(s);
    assert v.Keys == {Vol(CVTS), Vol(TARIF), Vol(CV4), Vol(CVT)} by {
      forall k | k in v ensures k in {Vol(CVTS), Vol(TARIF), Vol(CV4), Vol(CVT)} {
        assert k == Vol(k.metric);
      }
    }
  }

  /** The keys of a hardwood dictionary built from five stored volumes. */
  lemma {:induction false} HardEntriesKeys(s: ScriptVolume.Stored, e: EqId)
    requires s.values.Keys == {CVTS, TARIF, CV4, CVT, CV8}
    ensures HardEntries(s, e).Keys == {Vol(CVTS), Vol(TARIF), Vol(CV4), Vol(CVT), Vol(CV8), Dbh, EqNumber, Ht}
    ensures HardEntries(s, e)[Dbh] == s.dbh && HardEntries(s, e)[Ht] == s.ht
    ensures HardEntries(s, e)[EqNumber] == Number(e)
    ensures forall j :: j in s.values ==> HardEntries(s, e)[Vol(j)] == s.values[j]
  {
    var v := Volumes(s);
    assert v.Keys == {Vol(CVTS), Vol(TARIF), Vol(CV4), Vol(CVT), Vol(CV8)} by {
      forall k | k in v ensures k in {Vol(CVTS), Vol(TARIF), Vol(CV4), Vol(CVT), Vol(CV8)} {
        assert k == Vol(k.metric);
      }
    }
  }

  /** What the dictionary of an equation measured at breast height holds: a
      softwood's four cubic volumes and DBH (and CVTSL for equations 1 and
      2), and a hardwood's five volumes, DBH, equation number and height. */
  lemma {:induction false} DictKeys(m: Math, e: EqId, d: real, h: real)
    requires !IsDrc(e)
    ensures var dict := Dict(m, e, d, h);
            Vol(CVTS) in dict && Vol(TARIF) in dict && Vol(CV4) in dict && Vol(CVT) in dict
            && Dbh in dict && dict[Dbh] == d
    ensures var dict := Dict(m, e, d, h);
            Wood(e) == Softwood ==> dict.Keys <= {Vol(CVTS), Vol(TARIF), Vol(CV4), Vol(CVT), Dbh, Cvtsl}
    ensures var dict := Dict(m, e, d, h);
            Wood(e) == Hardwood ==>
              dict.Keys == {Vol(CVTS), Vol(TARIF), Vol(CV4), Vol(CVT), Vol(CV8), Dbh, EqNumber, Ht}
              && dict[EqNumber] == Number(e)
  {
    GroupsByWood(e);
    match FamilyOf(e)
    case ByFormFactor => SoftEntriesKeys(FormFactorStored(m, e, d, h));
    case BySoftTarif => SoftEntriesKeys(ScriptVolume.SoftTarifStored(m, e, d, h));
    case RedAlder => HardEntriesKeys(AlderStored(m, d, h), e);
    case ByHardTarif => HardEntriesKeys(ScriptVolume.HardTarifStored(m, e, d, h), e);
    case ByPowerLaw => HardEntriesKeys(ScriptVolume.PowerLawStored(m, e, d, h), e);
  }

  /** "total_cubic" is CVT for every equation measured at breast height, on a
      tree of positive DBH and height (the functions take logarithms of both
      and divide by DBH, and raise otherwise). */
  lemma {:induction false} TotalCubicIsCvt(m: Math, e: EqId, d: real, h: real, stems: real)
    requires !IsDrc(e) && d > 0.0 && h > 0.0
    ensures Volume(m, e, d, h, stems, "total_cubic").Success?
    ensures Volume(m, e, d, h, stems, "total_cubic") == Volume(m, e, d, h, stems, "CVT")
  {
    DictKeys(m, e, d, h);
    VolumeReadsDict(m, e, d, h, stems, "total_cubic");
    VolumeReadsDict(m, e, d, h, stems, "CVT");
    TotalCubicReads(m, Dict(m, e, d, h), Wood(e));
  }

  /** In any dictionary holding CVT, "total_cubic" and "CVT" both answer it. */
  lemma {:induction false} TotalCubicReads(m: Math, dict: map<Key, real>, w: WoodType)
    requires Vol(CVT) in dict
    ensures GetMetric(m, dict, "total_cubic", w) == Success(dict[Vol(CVT)])
    ensures GetMetric(m, dict, "CVT", w) == Success(dict[Vol(CVT)])
  {
    KeyRead(m, dict, Vol(CVT), w);
  }

  /** Unlike the class version, which raises for it, this version answers
      TARIF on a tree of positive DBH and height. */
  lemma {:induction false} TarifServed(m: Math, e: EqId, d: real, h: real, stems: real)
    requires !IsDrc(e) && d > 0.0 && h > 0.0
    ensures Volume(m, e, d, h, stems, "TARIF").Success?
    ensures ScriptVolume.Calc(m, e, d, h, "TARIF", stems).Failure?
  {
    DictKeys(m, e, d, h);
    KeyRead(m, Dict(m, e, d, h), Vol(TARIF), Wood(e));
    ScriptVolume.TarifNotServed(m, e, d, h, stems);
  }

  /** A softwood measured at breast height answers any name its dictionary
      lacks through the softwood conversion of its DBH, CV4 and TARIF, with
      no diameter limit. */
  lemma {:induction false} SoftConverts(m: Math, e: EqId, d: real, h: real, stems: real, metric: string)
    requires !IsDrc(e) && Wood(e) == Softwood
    requires metric !in {"CVTS", "TARIF", "CV4", "CVT", "DBH", "CVTSL", "total_cubic"}
    ensures var dict := Dict(m, e, d, h);
            Vol(CV4) in dict && Vol(TARIF) in dict
            && Volume(m, e, d, h, stems, metric)
               == Lift(SwBfConversion(m, d, dict[Vol(CV4)], dict[Vol(TARIF)], metric))
  {
    DictKeys(m, e, d, h);
    VolumeReadsDict(m, e, d, h, stems, metric);
    SoftConvertsFrom(m, Dict(m, e, d, h), d, metric);
  }

  /** The same, for any dictionary with the softwood keys. */
  lemma {:induction false} SoftConvertsFrom(m: Math, dict: map<Key, real>, d: real, metric: string)
    requires dict.Keys <= {Vol(CVTS), Vol(TARIF), Vol(CV4), Vol(CVT), Dbh, Cvtsl}
    requires Vol(CV4) in dict && Vol(TARIF) in dict && Dbh in dict && dict[Dbh] == d
    requires metric !in {"CVTS", "TARIF", "CV4", "CVT", "DBH", "CVTSL", "total_cubic"}
    ensures GetMetric(m, dict, metric, Softwood)
            == Lift(SwBfConversion(m, d, dict[Vol(CV4)], dict[Vol(TARIF)], metric))
  {
    AbsentConverts(m, dict, metric, Softwood, {"CVTS", "TARIF", "CV4", "CVT", "DBH", "CVTSL"});
  }

  /** A hardwood measured at breast height answers any name its dictionary
      lacks through the hardwood conversion of its own entries. */
  lemma {:induction false} HardConverts(m: Math, e: EqId, d: real, h: real, stems: real, metric: string)
    requires !IsDrc(e) && Wood(e) == Hardwood
    requires metric !in {"CVTS", "TARIF", "CV4", "CVT", "CV8", "DBH", "eq_number", "HT", "total_cubic"}
    ensures var dict := Dict(m, e, d, h);
            Vol(CV4) in dict && Vol(CV8) in dict && Vol(CVT) in dict && Vol(TARIF) in dict && Ht in dict
            && Volume(m, e, d, h, stems, metric)
               == Lift(HwBfConversion(m, dict[Vol(CV4)], dict[Vol(CV8)], d, Number(e), dict[Vol(CVT)],
                                      dict[Vol(TARIF)], dict[Ht], metric))
  {
    DictKeys(m, e, d, h);
    VolumeReadsDict(m, e, d, h, stems, metric);
    HardConvertsFrom(m, Dict(m, e, d, h), d, Number(e), metric);
  }

  /** The same, for any dictionary with the hardwood keys. */
  lemma {:induction false} HardConvertsFrom(m: Math, dict: map<Key, real>, d: real, n: real, metric: string)
    requires dict.Keys == {Vol(CVTS), Vol(TARIF), Vol(CV4), Vol(CVT), Vol(CV8), Dbh, EqNumber, Ht}
    requires dict[Dbh] == d && dict[EqNumber] == n
    requires metric !in {"CVTS", "TARIF", "CV4", "CVT", "CV8", "DBH", "eq_number", "HT", "total_cubic"}
    ensures GetMetric(m, dict, metric, Hardwood)
            == Lift(HwBfConversion(m, dict[Vol(CV4)], dict[Vol(CV8)], d, n, dict[Vol(CVT)],
                                   dict[Vol(TARIF)], dict[Ht], metric))
  {
    AbsentConverts(m, dict, metric, Hardwood, {"CVTS", "TARIF", "CV4", "CVT", "CV8", "DBH", "eq_number", "HT"});
  }

  /** For the hardwood tarif equations 25 to 31 the conversion passes the
      tree's CVT and TARIF through as CV4X and TARIFX. */
  lemma {:induction false} HardTarifPassThrough(m: Math, e: EqId, d: real, h: real, stems: real, tarif: real)
    requires IsHardTarif(e) && d > 0.0
    requires Volume(m, e, d, h, stems, "TARIF") == Success(tarif) && tarif > 0.0
    ensures Volume(m, e, d, h, stems, "CV4X") == Volume(m, e, d, h, stems, "CVT")
    ensures Volume(m, e, d, h, stems, "TARIFX") == Success(tarif)
  {
    GroupsByNumber(e);
    HardGroupsByWood(e);
    DictKeys(m, e, d, h);
    var dict := Dict(m, e, d, h);
    VolumeReadsDict(m, e, d, h, stems, "TARIF");
    VolumeReadsDict(m, e, d, h, stems, "CVT");
    VolumeReadsDict(m, e, d, h, stems, "CV4X");
    VolumeReadsDict(m, e, d, h, stems, "TARIFX");
    PassThroughFrom(m, dict, d, Number(e), tarif);
  }

  /** The same, for any hardwood dictionary. */
  lemma {:induction false} PassThroughFrom(m: Math, dict: map<Key, real>, d: real, n: real, tarif: real)
    requires dict.Keys == {Vol(CVTS), Vol(TARIF), Vol(CV4), Vol(CVT), Vol(CV8), Dbh, EqNumber, Ht}
    requires dict[Dbh] == d && dict[EqNumber] == n && PassesThroughX(n) && d > 0.0
    requires GetMetric(m, dict, "TARIF", Hardwood) == Success(tarif) && tarif > 0.0
    ensures GetMetric(m, dict, "CV4X", Hardwood) == GetMetric(m, dict, "CVT", Hardwood)
    ensures GetMetric(m, dict, "TARIFX", Hardwood) == Success(tarif)
  {
    KeyRead(m, dict, Vol(TARIF), Hardwood);
    KeyRead(m, dict, Vol(CVT), Hardwood);
    HardConvertsFrom(m, dict, d, n, "CV4X");
    HardConvertsFrom(m, dict, d, n, "TARIFX");
    HardPassThrough(m, dict[Vol(CV4)], dict[Vol(CV8)], d, n, dict[Vol(CVT)], tarif, dict[Ht]);
  }

  // ---------------------------------------------------------------------
  // Properties: agreement with the class version
  // ---------------------------------------------------------------------

  /** A softwood with a CVTS equation computes exactly what the class version
      stores; the class version returns it masked by the metric's diameter
      limit, this one unmasked. */
  lemma {:induction false} SoftTarifMatchesClass(m: Math, e: EqId, d: real, h: real, stems: real, k: Metric)
    requires IsSoftTarif(e) && d > 0.0 && h > 0.0 && k in {CVTS, CVT, CV4}
    ensures var v := ScriptVolume.SoftTarifStored(m, e, d, h).values[k];
            Volume(m, e, d, h, stems, Name(k)) == Success(v)
            && ScriptVolume.Calc(m, e, d, h, Name(k), stems) == Success(ScriptVolume.Num(Mask(k, d, h, v)))
  {
    SoftTarifReads(m, e, d, h, stems, k);
    SoftTarifByWood(e);
    var s := ScriptVolume.SoftTarifStored(m, e, d, h);
    assert ScriptVolume.Compute(m, e, d, h, stems) == Success(s);
    ScriptVolume.SoftStoredReadOf(m, e, d, h, stems, k, s);
  }

  /** The function-version half of the above, on a tree of positive DBH and
      height (the functions take logarithms of both). */
  lemma {:induction false} SoftTarifReads(m: Math, e: EqId, d: real, h: real, stems: real, k: Metric)
    requires IsSoftTarif(e) && d > 0.0 && h > 0.0 && k in {CVTS, TARIF, CVT, CV4}
    ensures !IsDrc(e)
    ensures Volume(m, e, d, h, stems, Name(k)) == Success(ScriptVolume.SoftTarifStored(m, e, d, h).values[k])
  {
    assert FamilyOf(e) == BySoftTarif;
    var s := ScriptVolume.SoftTarifStored(m, e, d, h);
    SoftEntriesKeys(s);
    var dict := Dict(m, e, d, h);
    assert Vol(k) in dict && dict[Vol(k)] == SoftEntries(s)[Vol(k)];
    VolumeReadsDict(m, e, d, h, stems, Name(k));
    KeyRead(m, dict, Vol(k), Wood(e));
  }

  /** The form-factor softwoods other than 19 clamp CF4 as the class version
      does; this version then floors CVTS at 0, which the class version does
      not. */
  lemma {:induction false} FormFactorMatchesClass(m: Math, e: EqId, d: real, h: real, stems: real, k: Metric)
    requires IsFormFactor(e) && e != E19 && d > 0.0 && h > 0.0 && k in {CVTS, CVT, CV4}
    ensures var c := ScriptVolume.FormFactorStored(m, e, d, h).values[k];
            Volume(m, e, d, h, stems, Name(k)) == Success(if k == CVTS then Max(0.0, c) else c)
            && ScriptVolume.Calc(m, e, d, h, Name(k), stems) == Success(ScriptVolume.Num(Mask(k, d, h, c)))
  {
    GroupsByWood(e);
    assert FamilyOf(e) == ByFormFactor;
    var s := ScriptVolume.FormFactorStored(m, e, d, h);
    var r := FormFactorStored(m, e, d, h);
    assert r.values[k] == (if k == CVTS then Max(0.0, s.values[k]) else s.values[k]);
    var dict := Dict(m, e, d, h);
    assert dict == SoftEntries(r);
    KeyRead(m, dict, Vol(k), Softwood);
    assert ScriptVolume.Compute(m, e, d, h, stems) == Success(s);
    ScriptVolume.SoftStoredReadOf(m, e, d, h, stems, k, s);
  }

  /** Red alder: CVT and the raised height agree with the class version and
      CVTS is never negative; TARIF, CVTS, CV4 and CV8 follow this version's
      own constants. */
  lemma {:induction false} AlderMatchesClass(m: Math, d: real, h: real, stems: real)
    ensures Volume(m, E25, d, h, stems, "CVT") == Success(ScriptVolume.AlderStored(m, d, h).values[CVT])
    ensures Volume(m, E25, d, h, stems, "HT") == Success(Max(h, 18.0))
  {
    var s := AlderStored(m, d, h);
    HardEntriesKeys(s, E25);
    assert s.values[CVT] == ScriptVolume.AlderStored(m, d, h).values[CVT];
    AlderReads(m, d, h, stems, Vol(CVT), "CVT");
    AlderReads(m, d, h, stems, Ht, "HT");
  }

  /** Red alder's CVTS is floored at 0 in this version too. */
  lemma {:induction false} AlderCvtsFloored(m: Math, d: real, h: real, stems: real)
    ensures Volume(m, E25, d, h, stems, "CVTS").Success?
    ensures Volume(m, E25, d, h, stems, "CVTS").value >= 0.0
  {
    var s := AlderStored(m, d, h);
    HardEntriesKeys(s, E25);
    AlderReads(m, d, h, stems, Vol(CVTS), "CVTS");
  }

  /** Red alder answers each entry of its dictionary. */
  lemma {:induction false} AlderReads(m: Math, d: real, h: real, stems: real, k: Key, metric: string)
    requires KeyName(k) == metric && k in HardEntries(AlderStored(m, d, h), E25)
    ensures Volume(m, E25, d, h, stems, metric) == Success(HardEntries(AlderStored(m, d, h), E25)[k])
  {
    VolumeReadsDict(m, E25, d, h, stems, metric);
    KeyRead(m, HardEntries(AlderStored(m, d, h), E25), k, Hardwood);
  }

  /** A hardwood that computes what the class version stores (`s`) answers
      its cubic volumes from it, unmasked and without raising; the class
      version masks them, or raises where its boardfoot layer does. */
  lemma {:induction false} HardMatchesClass(m: Math, e: EqId, d: real, h: real, stems: real, k: Metric,
                                            s: ScriptVolume.Stored)
    requires Wood(e) == Hardwood && d > 0.0 && h > 0.0 && k in {CVTS, CVT, CV4, CV8}
    requires !IsDrc(e) && Dict(m, e, d, h) == HardEntries(s, e)
    requires ScriptVolume.Compute(m, e, d, h, stems) == Success(s)
    requires s.dbh == d && s.ht > 0.0 && s.values.Keys == {CVTS, TARIF, CV4, CVT, CV8}
    ensures Volume(m, e, d, h, stems, Name(k)) == Success(s.values[k])
    ensures !ScriptVolume.HardLayerFails(e, m, s) ==>
              ScriptVolume.Calc(m, e, d, h, Name(k), stems) == Success(ScriptVolume.Num(Mask(k, d, h, s.values[k])))
    ensures ScriptVolume.HardLayerFails(e, m, s) ==> ScriptVolume.Calc(m, e, d, h, Name(k), stems).Failure?
  {
    HardEntriesKeys(s, e);
    KeyRead(m, Dict(m, e, d, h), Vol(k), Hardwood);
    ScriptVolume.HardStoredReadOf(m, e, d, h, stems, k, s);
  }

  /** Hardwoods 26 to 31 compute what the class version stores. */
  lemma {:induction false} HardTarifMatchesClass(m: Math, e: EqId, d: real, h: real, stems: real, k: Metric)
    requires IsHardTarif(e) && e != E25 && d > 0.0 && h > 0.0 && k in {CVTS, CVT, CV4, CV8}
    ensures var s := ScriptVolume.HardTarifStored(m, e, d, h);
            && ScriptVolume.HasHardInputs(s.values)
            && Volume(m, e, d, h, stems, Name(k)) == Success(s.values[k])
            && (!ScriptVolume.HardLayerFails(e, m, s) ==>
                  ScriptVolume.Calc(m, e, d, h, Name(k), stems)
                  == Success(ScriptVolume.Num(Mask(k, d, h, s.values[k]))))
  {
    HardGroupsByWood(e);
    ScriptVolume.ComputeHardTarif(m, e, d, h, stems);
    HardTarifDict(m, e, d, h);
    HardMatchesClass(m, e, d, h, stems, k, ScriptVolume.HardTarifStored(m, e, d, h));
  }

  lemma {:induction false} HardTarifDict(m: Math, e: EqId, d: real, h: real)
    requires IsHardTarif(e) && e != E25
    ensures !IsDrc(e) && Dict(m, e, d, h) == HardEntries(ScriptVolume.HardTarifStored(m, e, d, h), e)
  {
    assert FamilyOf(e) == ByHardTarif;
  }

  /** The Pillsbury hardwoods 32 to 44 compute what the class version
      stores, with the same height cap. */
  lemma {:induction false} PowerLawMatchesClass(m: Math, e: EqId, d: real, h: real, stems: real, k: Metric)
    requires IsPowerLaw(e) && d > 0.0 && h > 0.0 && k in {CVTS, CVT, CV4, CV8}
    ensures var s := ScriptVolume.PowerLawStored(m, e, d, h);
            && ScriptVolume.HasHardInputs(s.values)
            && Volume(m, e, d, h, stems, Name(k)) == Success(s.values[k])
            && (!ScriptVolume.HardLayerFails(e, m, s) ==>
                  ScriptVolume.Calc(m, e, d, h, Name(k), stems)
                  == Success(ScriptVolume.Num(Mask(k, d, h, s.values[k]))))
  {
    HardGroupsByWood(e);
    ScriptVolume.ComputePowerLaw(m, e, d, h, stems);
    PowerLawDict(m, e, d, h);
    HardMatchesClass(m, e, d, h, stems, k, ScriptVolume.PowerLawStored(m, e, d, h));
  }

  lemma {:induction false} PowerLawDict(m: Math, e: EqId, d: real, h: real)
    requires IsPowerLaw(e)
    ensures !IsDrc(e) && Dict(m, e, d, h) == HardEntries(ScriptVolume.PowerLawStored(m, e, d, h), e)
  {
    assert FamilyOf(e) == ByPowerLaw;
  }

  // ---------------------------------------------------------------------
  // Properties: the root-collar equations
  // ---------------------------------------------------------------------

  /** A root-collar equation raises only for an unbound local; otherwise it
      answers CVTS for "total_cubic" and "CVTS", the collar diameter and stem
      count for the pinyon-junipers' "DRC" and "STEMS" entries, and 0 for any
      other name. */
  lemma {:induction false} DrcAnswers(m: Math, e: EqId, drc: real, h: real, stems: real, metric: string)
    requires IsDrc(e)
    ensures DrcUnbound(e, drc, h, stems) ==> Volume(m, e, drc, h, stems, metric) == Failure(UnboundLocal)
    ensures !DrcUnbound(e, drc, h, stems) ==>
              Volume(m, e, drc, h, stems, metric)
              == Success(if metric == "total_cubic" || metric == "CVTS" then DrcCvts(m, e, drc, h, stems).value
                         else if metric == "DRC" && e in {E14, E14_1, E14_2} then drc
                         else if metric == "STEMS" && e in {E14, E14_1} then stems
                         else 0.0)
  {
    if !DrcUnbound(e, drc, h, stems) && metric != "total_cubic" {
      DrcLookupAnswers(m, e, DrcCvts(m, e, drc, h, stems).value, drc, stems, metric);
    }
  }

  /** What the lookup finds in a root-collar dictionary. */
  lemma {:induction false} DrcLookupAnswers(m: Math, e: EqId, cvts: real, drc: real, stems: real, metric: string)
    requires IsDrc(e) && metric != "total_cubic"
    ensures DrcLookup(m, e, DrcDict(e, cvts, drc, stems), metric)
            == if metric == "CVTS" then cvts
               else if metric == "DRC" && e in {E14, E14_1, E14_2} then drc
               else if metric == "STEMS" && e in {E14, E14_1} then stems
               else 0.0
  {
    var dict := DrcDict(e, cvts, drc, stems);
    if metric == "CVTS" {
      KeyEntry(dict, Vol(CVTS));
    } else if metric == "DRC" && e in {E14, E14_1, E14_2} {
      KeyEntry(dict, Drc);
    } else if metric == "STEMS" && e in {E14, E14_1} {
      KeyEntry(dict, Stems);
    } else {
      assert Entry(dict, metric).None?;
    }
  }

  /** With the cube root in place, a root-collar equation's CVTS is what the
      class version stores wherever both are defined; equation 45 raises
      below a 3-inch collar, where the class version uses a size factor of
      1. */
  lemma {:induction false} DrcMatchesClass(m: Math, e: EqId, drc: real, h: real, stems: real)
    requires IsDrc(e)
    ensures ScriptVolume.DrcStored(m, e, drc, h, stems).Success? && !DrcUnbound(e, drc, h, stems) ==>
              DrcCvts(m, e, drc, h, stems) == Success(ScriptVolume.DrcStored(m, e, drc, h, stems).value.values[CVTS])
    ensures ScriptVolume.DrcStored(m, e, drc, h, stems).Success? && DrcUnbound(e, drc, h, stems) ==>
              e == E45 && !(drc >= 3.0 && h > 0.0)
  {
    if e == E45 && drc >= 3.0 && h > 0.0 {
      assert DrcFactor(e, drc, h) == ScriptVolume.SizeFactor(drc, h, 1.0);
    }
  }

  // ---------------------------------------------------------------------
  // The cube root of equations 14, 14.1, 14.2 and 45
  // ---------------------------------------------------------------------

  /** As written, a pinyon-juniper's CVTS is the same for every collar
      diameter and height. */
  lemma {:induction false} AsWrittenIgnoresSize(e: EqId, drc: real, h: real, drc': real, h': real, stems: real)
    requires e in {E14, E14_1, E14_2}
    ensures DrcCvtsAsWritten(e, drc, h, stems) == DrcCvtsAsWritten(e, drc', h', stems)
  {
    assert DrcVolumeAt(e, drc, h, stems, 1.0) == DrcVolumeAt(e, drc', h', stems, 1.0);
  }

  /** A single-stem Utah juniper with a 10-inch collar, 10 feet tall: as
      written its CVTS is 0.036195^3 (about 0.00005 cubic feet); with the
      cube root of DRC^2 HT = 1000, which is 10, it is 1.239729^3 (about 1.9
      cubic feet). */
  lemma {:induction false} CubeRootCounterexample(m: Math)
    requires Lawful(m)
    ensures DrcCvtsAsWritten(E14, 10.0, 10.0, 1.0) == Success(Cube(0.036195))
    ensures DrcCvts(m, E14, 10.0, 10.0, 1.0) == Success(Cube(1.239729))
  {
    assert DrcFactor(E14, 10.0, 10.0) == 1000.0;
    var r := m.cbrt(1000.0);
    assert r >= 0.0 && Cube(r) == 1000.0;
    if r < 10.0 {
      CubeStrictlyMonotone(r, 10.0);
    } else if r > 10.0 {
      CubeStrictlyMonotone(10.0, r);
    }
    assert r == 10.0;
    MulPositive(0.036195, 0.036195);
    MulPositive(0.036195 * 0.036195, 0.036195);
    MulPositive(1.239729, 1.239729);
    MulPositive(1.239729 * 1.239729, 1.239729);
  }

  /** The size factor grows with the collar diameter and the height. */
  lemma {:induction false} DrcFactorMonotone(e: EqId, drc: real, h: real, drc': real, h': real)
    requires 0.0 <= drc <= drc' && 0.0 <= h <= h'
    ensures 0.0 <= DrcFactor(e, drc, h) <= DrcFactor(e, drc', h')
  {
    ProductMonotone(drc, drc', drc, drc');
    ProductMonotone(drc * drc, drc' * drc', h, h');
    if e != E45 && !(drc' >= 3.0 && h' > 0.0) {
      assert !(drc >= 3.0 && h > 0.0);
    }
  }

  /** With the cube root restored, the cubed volume of a pinyon-juniper or
      mahogany tree never shrinks as its collar or height grows. */
  lemma {:induction false} CubedVolumeGrows(m: Math, e: EqId, drc: real, h: real, drc': real, h': real,
                                            stems: real)
    requires Lawful(m) && e in {E14, E14_1, E14_2, E45}
    requires 0.0 <= drc <= drc' && 0.0 <= h <= h'
    ensures DrcVolumeAt(e, drc, h, stems, m.cbrt(DrcFactor(e, drc, h)))
            <= DrcVolumeAt(e, drc', h', stems, m.cbrt(DrcFactor(e, drc', h')))
  {
    var f, f' := DrcFactor(e, drc, h), DrcFactor(e, drc', h');
    DrcFactorMonotone(e, drc, h, drc', h');
    CbrtMonotone(m, f, f');
    var r, r' := m.cbrt(f), m.cbrt(f');
    var s := if stems == 1.0 then 1.0 else 0.0;
    match e
    case E14 => CubeMonotone(-0.13386 + 0.133726 * r + 0.036329 * s, -0.13386 + 0.133726 * r' + 0.036329 * s);
    case E14_1 => CubeMonotone(-0.14240 + 0.148190 * r - 0.16712 * s, -0.14240 + 0.148190 * r' - 0.16712 * s);
    case E14_2 => CubeMonotone(0.02434 + 0.119106 * r, 0.02434 + 0.119106 * r');
    case E45 =>
      if stems == 1.0 {
        CubeMonotone(-0.13363 + 0.128222 * r + 0.080208, -0.13363 + 0.128222 * r' + 0.080208);
      } else {
        CubeMonotone(-0.13363 + 0.128222 * r, -0.13363 + 0.128222 * r');
      }
  }

  /** A multi-stemmed mesquite with x = DRC^2 HT / 1000 above 2: the class
      and function versions use the multi-stem formula for large trees, the
      package the single-stem formula. */
  lemma {:induction false} MesquiteVersions(m: Math, drc: real, h: real, stems: real)
    requires stems > 1.0 && MesquiteSize(drc, h) > 2.0
    ensures var x := MesquiteSize(drc, h);
            var stored := ScriptVolume.DrcStored(m, E46, drc, h, stems);
            && stored.Success? && stored.value.values[CVTS] == FloorNonPositive(MesquiteMultiLarge(x), 0.1)
            && DrcCvts(m, E46, drc, h, stems) == Success(FloorNonPositive(MesquiteMultiLarge(x), 0.1))
            && PackageVolume.DrcCvts(m, E46, drc, h, stems) == Mask(CVTS, drc, h, ClipLow(MesquiteSingle(x), 0.1))
  {
  }
}
