# ARBcarbon tree volume and biomass equations, modelled in Dafny

ARBcarbon computes the volume and biomass of individual trees using the
equations the California Air Resources Board assigns to species in its
U.S. Forest Projects protocol. The repository holds the same volume equations
in three versions:

- **Package version.** The `arb_carbon` package (`volume.py`) has one class per
  equation with `calc_*` methods and `calc_vol(dbh, ht, metric)`. Each metric
  is masked to 0 below its diameter threshold or for a non-positive height.
  Red alder's base metrics are the exception: they raise the height to 18
  feet first, so their height mask never fires.
- **Class version.** `scripts/ARB_Volume_Equations.py` has one `Eq_n` object
  per equation. Its `calc` stores the cubic volumes, derives the boardfoot
  volumes (`calcBF`) and answers through `get`, which applies the same
  diameter thresholds.
- **Function version.** The root `ARB_Volume_Equations.py` has one function
  `Eq_n(DBH, HT, metric)` per equation. Each builds a dictionary of its
  volumes and answers through `get_metric`, which falls back to the boardfoot
  conversions for any name not in the dictionary.

The boardfoot conversions are modelled once:

- `SW_BFConversion` for softwoods;
- `HW_BFConversion` for hardwoods.

Both versions of the code contain these two functions with the same text.

The biomass equations are modelled as well:

- **Bark biomass** `BB_1` .. `BB_39`: the package classes clip each equation's
  value at 0; the function versions are guarded by `check_BB`.
- **Live-branch biomass** `BLB_1` .. `BLB_29` and `BLB_None`: the package
  clips, and the function versions are guarded by `check_BLB`.
- **Belowground biomass**: `cairns`.

Finally, the equation assignment table turns equation codes into equation
names (`check_for_None`). It also displays those names again
(`replace_func_with_name`).

The modules follow the program:

- **Common layers:**
  - `Numeric`: arithmetic helpers and the `Math` record of transcendental
    functions.
  - `Metrics`: metric names, `upper()` and the diameter masks.
  - `Species`: equation ids, wood types and equation families.
  - `Formulas`: formula pieces shared by the versions.
  - `Taper`: the cubic-form-factor softwoods.
  - `BoardFoot`: the two conversions.
- **The three volume versions:** `PackageVolume`, `ScriptVolume` and
  `RootVolume`.
- **Biomass:**
  - `Allometry`: the equation shapes.
  - `Bark` and `Branch`: the package tables.
  - `ScriptBiomass`: the guarded functions and `cairns`.
- **Assignments.**

Transcendental functions (`log10`, `ln`, `exp`, `pow`, the cube root) are
parameters. A `Math` record carries them, and the predicate `Lawful` states
the few facts some lemmas need: exp is positive, pow of a non-negative base
is non-negative, and the cube root inverts cubing. Division by zero is
modelled as `Div(a, 0) = 0`. The one place where the code itself catches a
`ZeroDivisionError` (the Pillsbury tarif) is modelled exactly.

Most lemmas compare a metric across the versions: where the versions agree,
where one of them masks, clips or floors and another does not, and where a
call raises.

## Model

| member | source | states |
|---|---|---|
| Metrics.UpperChar | arb_carbon/equations/volume.py:203 | a lower-case ASCII letter, the dotless i and the long s become their ASCII capitals; the result is never a lower-case ASCII letter, and it is an ASCII capital exactly when the input is an ASCII letter or one of those two; other characters are kept (see "## Left out") |
| Metrics.Upper | arb_carbon/equations/volume.py:203 | `metric.upper()` upper-cases the name one character at a time, each character in place (see "## Left out") |
| Metrics.Find | arb_carbon/equations/volume.py:199-204 | the membership test finds a listed metric with exactly that name, or reports that no listed metric has it |
| Metrics.Parse | arb_carbon/equations/volume.py:199-207 | a recognised name is the upper-cased input; an unrecognised one matches none of the eleven available metrics |
| Metrics.MaskThresholds | arb_carbon/equations/volume.py:236-346 | every metric is 0 for a height of at most 0; TARIF for a diameter of at most 0; CVTS and CVT below 1 inch; CV4 below 5; CV6, SV616, SV632 and XINT6 below 9; CV8, SV816 and XINT8 below 11; from those limits on, a tree of positive height keeps the computed value |
| Metrics.MaskMonotone | arb_carbon/equations/volume.py:236-346 | a metric kept at one diameter is kept at every larger diameter |
| Metrics.NamesDistinct | arb_carbon/equations/volume.py:199-202 | no two metrics share a name |
| Metrics.UpperIdempotent | arb_carbon/equations/volume.py:203 | upper-casing twice is upper-casing once |
| Metrics.AvailableIsComplete | arb_carbon/equations/volume.py:199-202 | every metric is in the available list |
| Metrics.NameIsUpper | arb_carbon/equations/volume.py:199-203 | every metric name is already upper case |
| Metrics.ParseIff | arb_carbon/equations/volume.py:199-207 | a name is recognised as metric k exactly when its upper-casing is k's name |
| Metrics.ParseName | arb_carbon/equations/volume.py:199-207 | each metric's own name parses back to that metric |
| Metrics.ParseIgnoresCase | arb_carbon/equations/volume.py:203-207 | recognition does not depend on letter case |
| Species.WoodByFamily | arb_carbon/equations/volume.py:1678-1726 | the wood type follows the base class: form-factor and softwood tarif equations and the three pinyon-juniper collars are softwoods; red alder, the hardwood tarif and power-law equations, mahogany and mesquite are hardwoods |
| Species.FamilyOf | arb_carbon/equations/volume.py:2871-2879 | every equation belongs to exactly one family: root collar, form factor, softwood tarif, red alder, hardwood tarif or power law |
| Species.GroupsPartition | arb_carbon/equations/volume.py:2871-2879 | every equation is in one of the five groups; the softwood tarif group is the softwoods outside the form-factor and root-collar groups; the hardwood tarif group is 25-31 and the power-law group 32-44; no form-factor, hardwood tarif or power-law equation is a root-collar one |
| Species.GroupsByNumber | scripts/ARB_Volume_Equations.py:3103-3113 | the hardwood tarif family is exactly the equation numbers 25 to 31, and the power-law family is 32 to 44 |
| Formulas.BasalArea | arb_carbon/equations/volume.py:484 | basal area is never negative, and from 6 inches it exceeds the constant 0.087266 that the tarif divisor subtracts |
| Formulas.FormFactor | arb_carbon/equations/volume.py:2390-2396 | the Pillsbury form factor lies between 79 and 95 at every diameter |
| Formulas.FormClassValues | arb_carbon/equations/volume.py:2397-2399 | the form class is 10 exactly when the 9-foot diameter and the height both reach 9, and 1 otherwise |
| Taper.Cf4 | arb_carbon/equations/volume.py:503-509 | CF4 lies in [0.3, 0.4] for every form-factor equation except 19, whose CF4 is at least 0.27; it is always positive |
| Taper.FunctionCf4 | ARB_Volume_Equations.py:1111-1120 | the function version clamps CF4 into [0.3, 0.4] for equation 19 too; it agrees with the package for every other equation |
| Taper.CorrectionAtLeastOne | arb_carbon/equations/volume.py:516-521 | the small-tree correction is at least 1, and above 1 below 6 inches |
| Taper.FormCv4Positive | arb_carbon/equations/volume.py:531 | CF4 BA HT is positive for a positive CF4, diameter and height |
| Taper.Cv4TarifPositive | arb_carbon/equations/volume.py:521 | the tarif number of a positive CV4 is positive from 6 inches |
| Taper.TarifCv4RoundTrip | arb_carbon/equations/volume.py:406-413 | turning a tarif number into CV4 and back gives the same tarif number, from 6 inches |
| Taper.Eq5TarifAgrees | arb_carbon/equations/volume.py:632-655 | equation 5's tarif, which uses unmasked CV4 products, equals the shared masked definition |
| Taper.PackageCv4Bounds | arb_carbon/equations/volume.py:526-536 | the package CV4 is 0 below 5 inches or for a non-positive height, and positive otherwise |
| Taper.PackagePreFloorTarifBounds | arb_carbon/equations/volume.py:496-521 | before its floor, the package tarif number is at least 0.01 below 6 inches and positive from 6 inches |
| Taper.PackageTarifBounds | arb_carbon/equations/volume.py:496-524 | the package tarif number is at least 0.01 for a real tree and 0 otherwise; below 6 inches it is the stand-in tree's tarif times the correction |
| Taper.PackageTarif | arb_carbon/equations/volume.py:496-524 | calc_tarif is 0 where its mask fires and at least 0.01 everywhere else |
| Taper.PackageCvtsRegimes | arb_carbon/equations/volume.py:483-494 | for a real tree, CVTS below 6 inches is the tarif number times the term; from 6 inches CVTS 0.912733 is CV4's tarif number times the term, so the two regimes differ by the factor 0.912733 |
| Taper.FloorNonPositive | scripts/ARB_Volume_Equations.py:271-276 | the class version's `if x <= 0` floor replaces exactly the non-positive values |
| Taper.ClassTarifFloorsUnreached | scripts/ARB_Volume_Equations.py:256-283 | for a real tree the class version's tarif floors never fire: the tarif number is its regime's formula, and positive |
| Taper.TaperTarifVersionsLarge | arb_carbon/equations/volume.py:496-524 | from 6 inches the package tarif number is the class version's, floored at 0.01 |
| Taper.TaperTarifVersionsSmall | arb_carbon/equations/volume.py:496-524 | below 6 inches the package and class tarif numbers agree exactly when the stand-in tree's tarif reaches 0.01 |
| BoardFoot.SoftTarif | scripts/ARB_Volume_Equations.py:3040-3041 | the softwood conversion raises a tarif number below 0.01 to 0.01 and leaves others unchanged |
| BoardFoot.SoftConvert | scripts/ARB_Volume_Equations.py:3031-3062 | CV6 is RC6 CV4 capped at CV4; CUBUS is the rest of CV4; SV632 scales SV616; XINT6 scales CV6 |
| BoardFoot.SoftEntry | scripts/ARB_Volume_Equations.py:3065-3067 | the softwood dictionary has exactly its eleven keys |
| BoardFoot.SwBfConversion | scripts/ARB_Volume_Equations.py:3017-3079 | the conversion fails with a math error exactly for a non-positive diameter; otherwise it answers exactly the dictionary keys and the three aliases, and raises KeyError for anything else |
| BoardFoot.SoftAliases | scripts/ARB_Volume_Equations.py:3070-3075 | sawlog_cubic, boardfoot_16ft and boardfoot_32ft are CV6, SV616 and SV632 |
| BoardFoot.SoftLayerEntries | scripts/ARB_Volume_Equations.py:3077-3079 | the four metrics calcBF asks for are the table's entries |
| BoardFoot.SoftCv6AtMostCv4 | scripts/ARB_Volume_Equations.py:3033-3037 | CV6 never exceeds CV4, so CUBUS is never negative |
| BoardFoot.SoftLogArgumentsPositive | scripts/ARB_Volume_Equations.py:3039-3060 | once TARIF is floored, every logarithm's argument is positive for a positive diameter |
| BoardFoot.HardFloor | scripts/ARB_Volume_Equations.py:3118-3119 | a negative TARIFX becomes 0.01 and any other value is kept, so the result is never negative |
| BoardFoot.HardConvert | scripts/ARB_Volume_Equations.py:3098-3137 | the hardwood ratios chain from CV4X and TARIFX: CV6 = RC6 CV4X, CUBUS = CV4 - CV8, SV816 scales SV616, XINT8 scales XINT6, and TARIFX is never negative |
| BoardFoot.HardEntry | scripts/ARB_Volume_Equations.py:3140-3143 | the hardwood dictionary has exactly its sixteen keys |
| BoardFoot.HwBfConversion | scripts/ARB_Volume_Equations.py:3083-3153 | the conversion fails with a math error exactly for a non-positive diameter, a zero TARIFX, or, outside equations 25-31, a zero height or a zero TARIFX divisor; otherwise it answers exactly the dictionary keys, sawlog_cubic and names starting with "boardfoot" |
| BoardFoot.HardAliases | scripts/ARB_Volume_Equations.py:3146-3149 | sawlog_cubic is CV8, and every name starting with "boardfoot" is SV816 |
| BoardFoot.HardLayerEntries | scripts/ARB_Volume_Equations.py:3151-3153 | the four metrics calcBF asks for are the table's entries |
| BoardFoot.HardLayerKeys | scripts/ARB_Volume_Equations.py:3140-3149 | the four layer metrics are table keys and not aliases |
| BoardFoot.HardTableRead | scripts/ARB_Volume_Equations.py:3151-3153 | any non-alias key is read from the table |
| BoardFoot.HardPassThrough | scripts/ARB_Volume_Equations.py:3103-3107 | for equations 25 to 31 with a positive diameter and tarif, CV4X is CVT, TARIFX is TARIF and CV6 is RC6 CVT |
| PackageVolume.AlderHeight | arb_carbon/equations/volume.py:1735 | red alder's height is raised to at least 18 feet and never lowered |
| PackageVolume.CappedCv6 | arb_carbon/equations/volume.py:237-244 | the softwood CV6 is RC6 CV4, capped at CV4 |
| PackageVolume.Cv4x | arb_carbon/equations/volume.py:349-368 | `_NoX` equations multiply CVT by the CV4X polynomial, which sees the unclipped height; `_WithX` equations use CVT itself |
| PackageVolume.Tarifx | arb_carbon/equations/volume.py:356-371 | `_NoX` equations derive TARIFX from their CV8; `_WithX` equations use TARIF itself |
| PackageVolume.DrcCvts | arb_carbon/equations/volume.py:1070-1125 | a root-collar CVTS is 0 where the mask fires and at least 0.1 otherwise |
| PackageVolume.TarifFamilyDispatch | arb_carbon/equations/volume.py:374-425 | each equation with a CVTS equation answers its four cubic metrics through the shared tarif-family definitions |
| PackageVolume.Calc | arb_carbon/equations/volume.py:212-233 | a metric fails with NotImplementedError exactly when the equation's class does not override that metric's method |
| PackageVolume.CalcVol | arb_carbon/equations/volume.py:199-233 | calc_vol succeeds exactly for a recognised name whose metric the class implements; it raises ValueError exactly for an unrecognised name and NotImplementedError for a recognised but unimplemented one |
| PackageVolume.CalcCv6Capped | arb_carbon/equations/volume.py:212-244 | calc_vol's CV6 for an unmasked softwood is min(RC6 CV4, CV4) |
| PackageVolume.ClippedProduct | arb_carbon/equations/volume.py:246-346 | each boardfoot value is never negative, and it is 0 wherever its mask fires or the volume it scales is 0 |
| PackageVolume.SoftCv6 | arb_carbon/equations/volume.py:237-244 | the softwood CV6 is 0 where masked and never exceeds CV4 elsewhere |
| PackageVolume.SoftSv616 | arb_carbon/equations/volume.py:246-260 | SV616 is never negative, and 0 where masked or where CV6 is 0 |
| PackageVolume.SoftSv632 | arb_carbon/equations/volume.py:262-271 | SV632 is never negative, and 0 where masked or where SV616 is 0 |
| PackageVolume.SoftXint6 | arb_carbon/equations/volume.py:273-283 | XINT6 is never negative, and 0 where masked or where CV6 is 0 |
| PackageVolume.HardCv6 | arb_carbon/equations/volume.py:295-302 | the hardwood CV6 is never negative, and 0 where masked or where CV4X is 0 |
| PackageVolume.HardSv616 | arb_carbon/equations/volume.py:304-316 | SV616 is never negative, and 0 where masked or where CV6 is 0 |
| PackageVolume.HardSv816 | arb_carbon/equations/volume.py:318-325 | SV816 is never negative, and 0 below 11 inches, for a non-positive height or where SV616 is 0 |
| PackageVolume.HardXint6 | arb_carbon/equations/volume.py:327-337 | XINT6 is never negative, and 0 where masked or where CV6 is 0 |
| PackageVolume.HardXint8 | arb_carbon/equations/volume.py:339-346 | XINT8 is never negative, and 0 below 11 inches, for a non-positive height or where XINT6 is 0 |
| PackageVolume.CalcVolDispatch | arb_carbon/equations/volume.py:199-233 | calc_vol raises ValueError exactly when the upper-cased name is no metric; a recognised name runs that metric's method |
| PackageVolume.CalcMasked | arb_carbon/equations/volume.py:236-346 | an implemented metric is 0 wherever its mask fires; for red alder's base metrics the mask must also fire at the raised height of 18 feet |
| PackageVolume.AlderHeightFloor | arb_carbon/equations/volume.py:1734-1800 | red alder's base metrics are the same at any height up to 18 feet as at 18 feet |
| PackageVolume.BoardfootNonNegative | arb_carbon/equations/volume.py:236-346 | every implemented boardfoot metric, and the hardwood CV6, is never negative |
| PackageVolume.SoftCv6Capped | arb_carbon/equations/volume.py:237-244 | where it is not masked, the softwood CV6 is min(RC6 CV4, CV4), so it never exceeds CV4 |
| PackageVolume.HardwoodXRuleReversed | arb_carbon/equations/volume.py:349-371 | the package applies the CV4X polynomial exactly to equations 25-31, the ones the boardfoot conversion passes through unchanged |
| PackageVolume.EngelmannOakCv8 | arb_carbon/equations/volume.py:2344-2348 | from 11 inches and a positive height, equation 36's CV8 is its CV4 |
| PackageVolume.SmallCollarIgnoresHeight | arb_carbon/equations/volume.py:1078-1087 | below a 3-inch root collar, a juniper, pinyon or mahogany CVTS is the same at every positive height |
| PackageVolume.MesquiteStems | arb_carbon/equations/volume.py:2847-2868 | a multi-stem mesquite uses the single-stem formula when its size term exceeds 2, and the multi-stem small-tree formula otherwise |
| PackageVolume.RockyMountainJuniperIgnoresStems | arb_carbon/equations/volume.py:1118-1125 | equation 14.2's CVTS does not depend on the stem count |
| PackageVolume.PowerLawCvtsPositive | arb_carbon/equations/volume.py:2152-2156 | a power-law CVTS is positive for a tree of at least 1 inch and positive height |
| ScriptVolume.ParseRequest | scripts/ARB_Volume_Equations.py:86-87 | `get` accepts exactly twelve case-sensitive names: ten volume metrics (not TARIF), westSV and eastSV |
| ScriptVolume.ParseRequestName | scripts/ARB_Volume_Equations.py:86-87 | every accepted request's name parses back to that request |
| ScriptVolume.Cascade | scripts/ARB_Volume_Equations.py:89-105 | a zero height or a diameter below the metric's threshold answers 0; otherwise the attribute is read |
| ScriptVolume.Get | scripts/ARB_Volume_Equations.py:77-105 | an unrecognised name raises ValueError; a recognised one goes through the threshold cascade |
| ScriptVolume.GetMasksAsPackage | scripts/ARB_Volume_Equations.py:89-105 | for a positive height, `get` masks a stored value exactly as the package mask does |
| ScriptVolume.SoftTarifStored | scripts/ARB_Volume_Equations.py:140-151 | a softwood tarif equation stores DBH, HT, CVTS, TARIF, CV4 and CVT; TARIF is computed from the unfloored CVTS equation and CVT from TARIF; outside juniper, CVTS is the equation value and CV4 comes from TARIF; juniper's CVTS is 2 where its equation is negative, and its CV4, computed from the unfloored CVTS, is 1 where negative, so neither is negative |
| ScriptVolume.FormFactorStored | scripts/ARB_Volume_Equations.py:222-293 | a form-factor equation stores the tree and its four cubic values |
| ScriptVolume.AlderAt | scripts/ARB_Volume_Equations.py:1666-1685 | red alder stores five volumes at a height of at least 18, and its CVTS is never negative |
| ScriptVolume.HardTarifFrom | scripts/ARB_Volume_Equations.py:1720-1733 | a hardwood tarif equation stores five volumes, with CV8 = RC8 CV4 |
| ScriptVolume.PillsburyHeight | scripts/ARB_Volume_Equations.py:2094-2095 | equations 34 and 40 cap the height at 120 feet; the others keep it |
| ScriptVolume.PillsburyTarif | scripts/ARB_Volume_Equations.py:2004-2007 | the Pillsbury tarif times its divisor is CV8 0.912733, and the tarif is 0.01 when that divisor is 0 (the caught ZeroDivisionError) |
| ScriptVolume.PowerLawAt | scripts/ARB_Volume_Equations.py:1994-2011 | a power-law equation stores five volumes at the capped height; equation 36's CV8 is its CV4 |
| ScriptVolume.DrcStored | scripts/ARB_Volume_Equations.py:824-843 | a root-collar equation stores only a positive CVTS, with the collar diameter as DBH; it fails (unbound stem term) exactly when the stem count is neither 1 nor more and the equation is not 14.2 |
| ScriptVolume.WithLayer | scripts/ARB_Volume_Equations.py:41-64 | calcBF adds CV6 and the wood type's three boardfoot attributes and leaves every other stored volume unchanged |
| ScriptVolume.SoftBF | scripts/ARB_Volume_Equations.py:42-53 | the softwood layer fails exactly for a non-positive diameter when CV4 and TARIF exist; without them it sets CV6 to None and the rest to 0 |
| ScriptVolume.HardBF | scripts/ARB_Volume_Equations.py:55-64 | the hardwood layer fails exactly where the conversion does; without its inputs it sets CV6 to None and the rest to 0 |
| ScriptVolume.CalcBF | scripts/ARB_Volume_Equations.py:41-64 | calcBF runs the layer of the equation's wood type |
| ScriptVolume.SoftBFIsByCalls | scripts/ARB_Volume_Equations.py:42-47 | the softwood layer equals the four conversion calls in order |
| ScriptVolume.HardBFIsByCalls | scripts/ARB_Volume_Equations.py:56-60 | the hardwood layer equals the four conversion calls in order |
| ScriptVolume.Calc | scripts/ARB_Volume_Equations.py:140-158 | a non-positive diameter or height answers 0; otherwise an unrecognised metric fails |
| ScriptVolume.Answer | scripts/ARB_Volume_Equations.py:150-158 | a failing boardfoot layer makes the whole call fail with its error |
| ScriptVolume.CalcAnswers | scripts/ARB_Volume_Equations.py:150-158 | for a real tree, calc answers from what its equation stored |
| ScriptVolume.TarifNotServed | scripts/ARB_Volume_Equations.py:86-87 | asking the class version for TARIF raises ValueError |
| ScriptVolume.UnconvertedGet | scripts/ARB_Volume_Equations.py:77-105 | an object holding only CVTS answers CVTS, None for CV6, 0 for its layer's boardfoot metrics, and AttributeError for the rest, each above its threshold |
| ScriptVolume.DrcAnswer | scripts/ARB_Volume_Equations.py:841-849 | an object that stores only CVTS answers 0 below a request's threshold, and above it CVTS, None for CV6, 0 for its layer's boardfoot metrics, and AttributeError for any other metric |
| ScriptVolume.DrcBoardfoot | scripts/ARB_Volume_Equations.py:841-849 | a root-collar call answers 0 below a request's threshold, and above it None for CV6, 0 for its layer's boardfoot metrics, and AttributeError for the other cubic metrics |
| ScriptVolume.DrcStemsUnbound | scripts/ARB_Volume_Equations.py:830-835 | a stem count that is neither 1 nor more leaves the stem term unbound, and the call fails |
| ScriptVolume.DrcCvtsPositive | scripts/ARB_Volume_Equations.py:835-837 | a root-collar CVTS is positive from a 1-inch collar, and 0 below it |
| ScriptVolume.SoftBFReads | scripts/ARB_Volume_Equations.py:41-53 | the softwood layer succeeds for a real tree, and CVTS, CVT and CV4 read back masked as the package masks them |
| ScriptVolume.SoftAnswer | scripts/ARB_Volume_Equations.py:150-158 | a softwood's CVTS, CVT and CV4 answers are the stored values, masked |
| ScriptVolume.SoftStoredReadOf | scripts/ARB_Volume_Equations.py:140-158 | a softwood call returns the stored cubic value, masked |
| ScriptVolume.SoftStoredRead | scripts/ARB_Volume_Equations.py:140-158 | every non-collar softwood stores CVTS, CVT and CV4, and calc returns them masked |
| ScriptVolume.JuniperFloors | scripts/ARB_Volume_Equations.py:1440-1448 | western juniper answers CVTS as 2 where its equation is negative and CV4 as 1 where the CV4 from the unfloored CVTS is negative, each masked, so neither answer is negative |
| ScriptVolume.JuniperCvtsVersions | arb_carbon/equations/volume.py:1513-1516 | for a tree both versions keep, the package clips a negative juniper CVTS to 0 while the class version sets it to 2; the two agree exactly where the equation value is not negative |
| ScriptVolume.PackageSoftTarif | arb_carbon/equations/volume.py:374-425 | for the softwood tarif equations other than 21, the package's CVTS, CVT and CV4 are the class version's stored values, masked |
| ScriptVolume.PackageTarifFamilyMasks | arb_carbon/equations/volume.py:374-425 | the package's tarif-family metrics are the masked CVTS equation and the volumes derived from its tarif number |
| ScriptVolume.PackageTarifNumber | arb_carbon/equations/volume.py:395-404 | from 1 inch the package's tarif number is the unmasked one the class version stores |
| ScriptVolume.SoftTarifMatchesPackage | scripts/ARB_Volume_Equations.py:140-158 | for the softwood tarif equations other than 21, the class version's CVTS, CVT and CV4 equal the package's |
| ScriptVolume.HardBFReads | scripts/ARB_Volume_Equations.py:55-64 | when the hardwood layer succeeds, the stored cubic volumes read back masked |
| ScriptVolume.HardAnswer | scripts/ARB_Volume_Equations.py:1732-1739 | a hardwood whose layer succeeds answers its stored cubic volumes, masked |
| ScriptVolume.HardStoredReadOf | scripts/ARB_Volume_Equations.py:1706-1739 | a hardwood call fails when its boardfoot layer fails, and otherwise returns the stored value masked |
| ScriptVolume.ComputeHardTarif | scripts/ARB_Volume_Equations.py:1706-1739 | the hardwood tarif equations other than red alder always succeed and store their five volumes |
| ScriptVolume.ComputePowerLaw | scripts/ARB_Volume_Equations.py:1982-2015 | the power-law equations always succeed and store their five volumes |
| ScriptVolume.Compute | scripts/ARB_Volume_Equations.py:128-151 | calc stores attributes for every tree except a root-collar one whose stem count is neither 1 nor more, which fails; a root-collar equation stores only CVTS; every other equation stores at least CVTS, TARIF, CVT and CV4, and every hardwood also CV8 |
| ScriptVolume.PackageXint6Unfloored | arb_carbon/equations/volume.py:246-283 | the package's SV616 and SV632 are the conversion's values from the tarif number floored at 0.01, clipped at 0; its XINT6 takes the logarithm of the tarif number as computed, so it is the conversion's XINT6 only where the tarif number reaches 0.01 |
| ScriptVolume.SoftLayerAgainstConversion | scripts/ARB_Volume_Equations.py:3031-3062 | for given CV4 and tarif values, the package's softwood boardfoot formulas against the conversion's table |
| ScriptVolume.HardLayerAgainstConversion | arb_carbon/equations/volume.py:295-346 | from 11 inches on and for a positive height, the package's hardwood formulas applied to given CV4X and TARIFX give the CV6, SV616, XINT6, SV816 and XINT8 of the table `HW_BFConversion` builds from the same two values (scripts/ARB_Volume_Equations.py:3121-3137), clipped at 0, as long as the volumes each is built from are not negative |
| ScriptVolume.PackageHardAgainstConversion | arb_carbon/equations/volume.py:295-346 | the package's hardwood CV6, SV616, XINT6, SV816 and XINT8 of a tree are those of the conversion table built from the package's own CV4X and TARIFX, clipped at 0, under the same sign conditions |
| ScriptVolume.PillsburyHeightVersions | scripts/ARB_Volume_Equations.py:2094-2095 | for equations 34 and 40 the package's CVTS and CV4 use the measured height, the class version's use the height capped at 120 feet; up to 120 feet they agree |
| ScriptVolume.AlderHeightRaised | scripts/ARB_Volume_Equations.py:1664-1665 | red alder computes the same at any height below 18 as at 18 |
| ScriptVolume.AlderCvtsNonNegative | scripts/ARB_Volume_Equations.py:1678 | where red alder's CVTS call succeeds, its answer is never negative |
| ScriptVolume.PillsburyHeightCapped | scripts/ARB_Volume_Equations.py:2094-2095 | equations 34 and 40 compute the same above 120 feet as at 120 |
| RootVolume.ParseKey | ARB_Volume_Equations.py:45-46 | a recognised key name is that key's own name, and a name that denotes no key is no metric's name |
| RootVolume.Entry | ARB_Volume_Equations.py:45-46 | the dictionary lookup returns the entry of the key with that name, or reports that no key has it |
| RootVolume.GetMetric | ARB_Volume_Equations.py:35-52 | total_cubic succeeds exactly when the dictionary holds CVT and then answers it; a name in the dictionary answers its entry; any other name goes to the boardfoot conversion |
| RootVolume.FormFactorStored | ARB_Volume_Equations.py:151-235 | a form-factor function computes the tree's four cubic values, and its CVTS is never negative |
| RootVolume.AlderStored | ARB_Volume_Equations.py:1477-1516 | red alder's dictionary holds five volumes at a height of at least 18, with CVTS at least 0 and CV8 = RC8 CV4 |
| RootVolume.DrcCvtsFrom | ARB_Volume_Equations.py:2659-2668 | a root-collar CVTS is positive; the call fails (unbound local) exactly when the stem count, or for equation 45 the collar size, leaves a name unbound |
| RootVolume.DrcCvtsAsWritten | ARB_Volume_Equations.py:709 | as written, CVTS fails exactly where a name is unbound and is positive otherwise; it equals the intended value only for a tree whose size factor has cube root 1 |
| RootVolume.Volume | ARB_Volume_Equations.py:690-730 | a root-collar function fails (unbound local) exactly where its stem count or size factor leaves a name unbound, and its total_cubic answer is positive |
| RootVolume.MesquiteVersions | ARB_Volume_Equations.py:2712-2716 | for a multi-stemmed mesquite with DRC^2 HT / 1000 above 2, the class and function versions use the multi-stem large-tree formula while the package uses the single-stem one |
| RootVolume.DrcDict | ARB_Volume_Equations.py:716-718 | a root-collar dictionary holds CVTS and no DBH |
| RootVolume.TotalCubicIsNoKey | ARB_Volume_Equations.py:42-43 | no dictionary key is named total_cubic |
| RootVolume.ParseKeyName | ARB_Volume_Equations.py:45-46 | every key's name parses back to that key |
| RootVolume.KeyEntry | ARB_Volume_Equations.py:45-46 | looking up a key's name returns that key's entry |
| RootVolume.KeyRead | ARB_Volume_Equations.py:44-46 | get_metric returns the entry of any key in the dictionary |
| RootVolume.AbsentConverts | ARB_Volume_Equations.py:47-52 | a name that is no dictionary key and not total_cubic goes to the boardfoot conversion |
| RootVolume.VolumeReadsDict | ARB_Volume_Equations.py:100-104 | every function other than the root-collar ones answers through get_metric on its dictionary |
| RootVolume.SoftEntriesKeys | ARB_Volume_Equations.py:100-104 | a softwood dictionary holds its four volumes and DBH |
| RootVolume.HardEntriesKeys | ARB_Volume_Equations.py:1510-1513 | a hardwood dictionary holds its five volumes, DBH, eq_number and HT |
| RootVolume.DictKeys | ARB_Volume_Equations.py:100-104 | every dictionary has CVTS, TARIF, CV4, CVT and the tree's DBH; a softwood dictionary has no keys beyond those and CVTSL; a hardwood dictionary has exactly its eight keys |
| RootVolume.TotalCubicIsCvt | ARB_Volume_Equations.py:42-43 | for a positive diameter and height, total_cubic succeeds and equals CVT |
| RootVolume.TarifServed | ARB_Volume_Equations.py:42-46 | for a positive diameter and height, the function version answers TARIF, which the class version refuses |
| RootVolume.SoftConverts | ARB_Volume_Equations.py:47-49 | a softwood name outside the dictionary is the softwood conversion of the dictionary's DBH, CV4 and TARIF |
| RootVolume.SoftConvertsFrom | ARB_Volume_Equations.py:47-49 | for any softwood dictionary, a name outside it goes to the softwood conversion |
| RootVolume.HardConverts | ARB_Volume_Equations.py:50-52 | a hardwood name outside the dictionary is the hardwood conversion of the dictionary's entries |
| RootVolume.HardConvertsFrom | ARB_Volume_Equations.py:50-52 | for any hardwood dictionary, a name outside it goes to the hardwood conversion |
| RootVolume.HardTarifPassThrough | ARB_Volume_Equations.py:2839-2842 | for equations 25 to 31 with a positive diameter and a positive tarif, CV4X is CVT and TARIFX is TARIF |
| RootVolume.PassThroughFrom | ARB_Volume_Equations.py:2839-2842 | the same, for any hardwood dictionary whose equation number is 25 to 31 |
| RootVolume.SoftTarifMatchesClass | ARB_Volume_Equations.py:77-104 | a softwood tarif function returns the class version's stored value, which the class version answers masked |
| RootVolume.SoftTarifReads | ARB_Volume_Equations.py:77-104 | for a positive diameter and height, a softwood tarif function answers CVTS, TARIF, CVT and CV4 from the class version's values |
| RootVolume.FormFactorMatchesClass | ARB_Volume_Equations.py:151-235 | outside equation 19, a form-factor function returns the class version's value, with CVTS floored at 0 |
| RootVolume.AlderMatchesClass | ARB_Volume_Equations.py:1477-1516 | red alder's CVT is the class version's, and HT reads back raised to 18 |
| RootVolume.AlderCvtsFloored | ARB_Volume_Equations.py:1503 | red alder's CVTS succeeds and is never negative |
| RootVolume.AlderReads | ARB_Volume_Equations.py:1510-1516 | every red alder dictionary key reads back its entry |
| RootVolume.HardMatchesClass | ARB_Volume_Equations.py:1526-1557 | a hardwood function returns the class version's stored value; the class version answers it masked, or fails when its layer fails |
| RootVolume.HardTarifMatchesClass | ARB_Volume_Equations.py:1526-1557 | the hardwood tarif functions return the class version's stored volumes |
| RootVolume.HardTarifDict | ARB_Volume_Equations.py:1552-1557 | a hardwood tarif function's dictionary is the class version's stored volumes plus DBH, eq_number and HT |
| RootVolume.PowerLawMatchesClass | ARB_Volume_Equations.py:1772-1805 | the power-law functions return the class version's stored volumes |
| RootVolume.PowerLawDict | ARB_Volume_Equations.py:1800-1805 | a power-law function's dictionary is the class version's stored volumes plus DBH, eq_number and HT |
| RootVolume.DrcAnswers | ARB_Volume_Equations.py:716-728 | a root-collar function fails when a name is unbound; otherwise it answers CVTS for CVTS and total_cubic, DRC and STEMS where stored, and 0 for everything else |
| RootVolume.DrcLookupAnswers | ARB_Volume_Equations.py:724-728 | a root-collar dictionary answers CVTS, DRC and STEMS where it holds them, and 0 for every other name, since the lookup's exception is caught |
| RootVolume.DrcMatchesClass | ARB_Volume_Equations.py:698-711 | where both versions succeed, the function version's root-collar CVTS is the class version's; only equation 45 fails in the function version where the class version succeeds, for a collar below 3 inches or a non-positive height |
| RootVolume.AsWrittenIgnoresSize | ARB_Volume_Equations.py:709 | as written, the juniper and pinyon CVTS does not depend on the collar diameter or the height |
| RootVolume.CubeRootCounterexample | ARB_Volume_Equations.py:709 | for DRC = 10, HT = 10 and one stem, the code as written gives 0.036195^3 where the intended value is 1.239729^3 |
| RootVolume.DrcFactorMonotone | ARB_Volume_Equations.py:699-702 | the size factor DRC^2 HT is non-negative and grows with the collar diameter and the height |
| RootVolume.CubedVolumeGrows | ARB_Volume_Equations.py:698-711 | with the intended cube root, the cubed volume of equations 14, 14.1, 14.2 and 45 grows with the collar diameter and the height |
| Allometry.InterceptBound | arb_carbon/equations/bark_biomass.py:59-61 | a linear equation with a positive intercept never drops below the intercept at a non-negative height |
| Allometry.LinearNonPositiveIff | arb_carbon/equations/bark_biomass.py:179-186 | a linear equation is non-positive exactly when its size term does not exceed the negated intercept |
| Allometry.RatioBounds | arb_carbon/equations/live_branch_biomass.py:133-137 | for dbh > 0, the branch-ratio shape lies strictly between 0 and its allometric core |
| Allometry.SnellBounds | arb_carbon/equations/live_branch_biomass.py:190-205 | for dbh > 0, the Snell shape lies strictly between 0 and its allometric core divided by 1000 |
| Allometry.ShellNonPositiveIff | arb_carbon/equations/bark_biomass.py:194-199 | with a positive wood density, shell bark is non-positive exactly when the outer stem volume does not exceed the inner one |
| Bark.Calc | arb_carbon/equations/bark_biomass.py:34-51 | bark biomass is never negative; it is the equation's value when that is non-negative, and 0 otherwise |
| Bark.InterceptEquationsAre | arb_carbon/equations/bark_biomass.py:54-273 | the listed equations are exactly the linear ones with a positive intercept |
| Bark.InterceptUnclipped | arb_carbon/equations/bark_biomass.py:59-61 | for those equations the clip never fires, and the result is at least the intercept |
| Bark.NegativeInterceptZero | arb_carbon/equations/bark_biomass.py:179-186 | BB_26, BB_27 and BB_39 give 0 exactly when the size term does not exceed the intercept's magnitude |
| Bark.NoBark | arb_carbon/equations/bark_biomass.py:144-146 | BB_19 gives no bark to any tree |
| Bark.ShellBark | arb_carbon/equations/bark_biomass.py:194-263 | BB_29 to BB_37 give the outer minus the inner stem volume in kilograms, clipped; with a positive density they give 0 exactly when the outer volume does not exceed the inner |
| Branch.Calc | arb_carbon/equations/live_branch_biomass.py:34-50 | branch biomass is never negative; it is the equation's value when that is non-negative, and 0 otherwise |
| Branch.NoBranches | arb_carbon/equations/live_branch_biomass.py:53-55 | BLB_None gives no branches to any tree |
| Branch.InterceptEquationsAre | arb_carbon/equations/live_branch_biomass.py:58-205 | the listed equations are exactly the linear ones with a positive intercept |
| Branch.InterceptUnclipped | arb_carbon/equations/live_branch_biomass.py:58-60 | for those equations the clip never fires, and the result is at least the intercept |
| Branch.NegativeInterceptZero | arb_carbon/equations/live_branch_biomass.py:180-182 | BLB_25 gives 0 exactly when 45.1 (dbh/100)^2 ht does not exceed 0.6 |
| Branch.RatioWithinAllometric | arb_carbon/equations/live_branch_biomass.py:133-137 | for dbh > 0, BLB_16 lies strictly between 0 and its allometric core, so the clip never fires |
| Branch.SnellWithinAllometric | arb_carbon/equations/live_branch_biomass.py:190-205 | for dbh > 0, BLB_27 to BLB_29 lie strictly between 0 and their allometric core divided by 1000 |
| ScriptBiomass.CheckBark | scripts/ARB_Biomass_Equations.py:336-343 | check_BB returns 0 for a non-positive diameter or height, and the unclipped equation otherwise |
| ScriptBiomass.CheckBranch | scripts/ARB_Biomass_Equations.py:346-353 | check_BLB returns 0 for a non-positive diameter or height, and the unclipped equation otherwise |
| ScriptBiomass.Cairns | scripts/ARB_Biomass_Equations.py:357-367 | belowground biomass is 0 for a non-positive aboveground biomass |
| ScriptBiomass.CairnsPositive | scripts/ARB_Biomass_Equations.py:364-367 | belowground biomass is positive exactly when aboveground biomass is |
| ScriptBiomass.Unassigned | scripts/ARB_Biomass_Equations.py:19-20 | BB_None, BB_19 and BLB_None give 0 for every tree |
| ScriptBiomass.PackageClipsBark | scripts/ARB_Biomass_Equations.py:336-343 | on a real tree, the package's bark value is the function version's clipped at 0, except for BB_12 |
| ScriptBiomass.ScaledBark | scripts/ARB_Biomass_Equations.py:67-68 | the function version's BB_12 is 1000 times the package's, and positive |
| ScriptBiomass.PackageClipsBranch | scripts/ARB_Biomass_Equations.py:346-353 | on a real tree, the package's branch value is the function version's clipped at 0 |
| ScriptBiomass.NegativeOnSmallTrees | scripts/ARB_Biomass_Equations.py:123-128 | without the clip, BB_26, BB_27, BB_39 and BLB_25 are negative exactly when the size term is below the intercept's magnitude, as for a tree of diameter 1 and height 1 |
| Assignments.RemoveDots | ARB_Equation_Assignments.py:16-17 | removing dots leaves no dot, never lengthens the code, and keeps the count of every other character |
| Assignments.RemoveDotsIdentity | ARB_Equation_Assignments.py:18-19 | a dot-free code is unchanged |
| Assignments.RemoveDotsAppend | ARB_Equation_Assignments.py:16-17 | dots are removed piecewise, so the remaining characters keep their order |
| Assignments.CheckForNone | ARB_Equation_Assignments.py:12-19 | check_for_None gives no equation exactly for "--", and otherwise the dot-free code, which is the code itself when it has no dot |
| Assignments.EquationName | ARB_Equation_Assignments.py:32-40 | the name looked up is the table's prefix, '_', and "None" for "--" or the dot-free code otherwise |
| Assignments.SecondField | ARB_Equation_Assignments.py:152-154 | `split('_')[1]` raises IndexError exactly for a name without '_'; otherwise it gives a field without '_' |
| Assignments.Display | ARB_Equation_Assignments.py:149-158 | replace_func_with_name shows "--" for the None equations and the second name field otherwise |
| Assignments.DisplayRoundTrip | ARB_Equation_Assignments.py:149-158 | displaying a built name gives "--" back for "--", the dot-free code otherwise, and the code itself for a dot-free code other than "None" |

## Left out

- **Floating point.** Values are exact reals, so float rounding, overflow,
  `inf` and `nan` are not modelled. numpy turns division by zero and the
  logarithm of 0 into `inf`/`nan`, which are then masked; plain Python raises
  `ZeroDivisionError` or a math domain error. Here `Div(a, 0) = 0`, and a
  failing logarithm is an error result only where the boardfoot conversions
  and the class version reach it.
- **Transcendental functions.** They are parameters of type `Math`, not
  definitions. Lemmas that need their values assume only the `Lawful` facts.
- **Arrays.** numpy vectorisation (`np.atleast_1d`, `np.where`, `np.piecewise`,
  element-wise masks) is modelled one tree at a time.
- **Python 2 integer division.** In `DBH/100`, `HT/DBH`, `DRC**2*HT/1000` and
  similar divisions, the inputs are assumed to be floats, so every division is
  exact. The one integer division that matters regardless of input, `1/3`, is
  under "## Findings".
- **I/O and the assignment table.** `FPS2ARB.py`, the Excel and CSV loading,
  the printed tables and the plots are not modelled. The assignment model
  takes the text of a table cell as its input.
- **Name lookup.** `eval` of a built name is not modelled. A name that denotes
  no equation (a `NameError` in the code) is outside the model, and
  `EquationName` only builds the name.
- **Species attributes.** `add_wood_specs` only stores its two inputs.
- **Stale attributes.** The class version reuses one object per equation, so
  a later call can read attributes left over from an earlier one. Each call
  is modelled on a fresh object.
- **Eq_None.** The volume placeholder `Eq_None` returns 0 and takes no metric.
  It is not modelled; the biomass placeholders are.
- **Equation 25 in the function version.** Its coefficients are modelled as
  written: the 1.051 in its tarif divisor and the `BA*0.087266` in its CVTS.
  No lemma claims it agrees with the other versions beyond CVT and HT.
- **Equation 19's CF4.** The package and class versions floor equation 19's
  CF4 at 0.27; the function version clamps it into [0.3, 0.4]. Both are
  modelled (`Taper.Cf4`, `Taper.FunctionCf4`), and no lemma equates them.
- `belowground_biomass.py`: it computes the same Cairns equation as
  `cairns`, which is modelled.
- `setup.py` and the test modules: they are packaging and test harnesses.
- **Coefficients.** Coefficients are transcribed as written. Whether they
  match the published equations is not checked.
- Metrics.Upper: each character maps to one character. Python's `str.upper`
  also turns some characters into several (`ß` into `SS`; the ligatures `ﬀ`
  to `ﬆ` into `FF`, `FI`, `FL`, `FFI`, `FFL` and `ST`) and upper-cases other
  non-ASCII letters (`é` into `É`); the model keeps those characters. This
  does not change which names are recognised. A non-ASCII result cannot be
  part of a metric name, and none of `SS`, `FF`, `FI`, `FL` and `ST` occurs
  in one.
- PackageVolume.Calc: its contract states only which metrics raise
  `NotImplementedError`. The boardfoot methods `SoftCv6` to `HardXint8`
  state on their own only that their value is not negative and where it is
  0. Their values are tied to the class version's conversions by other
  lemmas: the softwood ones to `SoftConvert` by
  `ScriptVolume.PackageXint6Unfloored` and `SoftLayerAgainstConversion`, the
  hardwood ones to the table `HardConvert` builds (`BoardFoot.HardTable`) by
  `ScriptVolume.PackageHardAgainstConversion` and `HardLayerAgainstConversion`.
  The hardwood lemmas compare with the table built from the package's own
  CV4X and TARIFX; that is `HardConvert`'s table only where the two versions'
  CV4X and TARIFX agree, since they apply the polynomial to different
  equations (`HardwoodXRuleReversed`).
  About `Calc` itself there are `CalcCv6Capped`, `CalcMasked`,
  `BoardfootNonNegative`, `EngelmannOakCv8` and `AlderHeightFloor`.
- Bark.Calc: the wood density is always a number. In the package it defaults
  to `None`, and then BB_29 to BB_37 raise `TypeError` where they multiply by
  it; that failure is not modelled.
- Branch.Calc: at dbh = 0, numpy's `log(0)` is `-inf` and `exp` of it is 0,
  so the log-based equations (BLB_16 and BLB_27 to BLB_29 among them) give 0.
  Here `ln(0)` is an unconstrained real, so that value is not modelled, and
  `Allometry.RatioBounds`, `Allometry.SnellBounds`,
  `Branch.RatioWithinAllometric` and `Branch.SnellWithinAllometric` are
  stated only for dbh > 0.
- ScriptVolume.Calc: its contract covers only the guard and the unrecognised
  metric. The values of recognised metrics are stated by
  `ScriptVolume.CalcAnswers` and the lemmas built on it.
- PackageVolume.DrcCvts: its contract gives only the bounds. How the value
  depends on height and stems is stated by `SmallCollarIgnoresHeight`,
  `MesquiteStems` and `RockyMountainJuniperIgnoresStems`.
- ScriptBiomass.Cairns: its contract covers only the zero branch. The
  positive branch is stated by `ScriptBiomass.CairnsPositive` under `Lawful`.
- RootVolume.Volume: for an equation measured at breast height, a diameter
  or height of at most 0 is answered like any other. The function version
  raises there instead: `math.log10`/`math.log` of DBH or HT raises
  `ValueError`, and `HT/DBH` at DBH = 0 raises `ZeroDivisionError`. That
  failure is not modelled, so `TotalCubicIsCvt`, `TarifServed` and
  `SoftTarifReads` are stated only for a positive diameter and height.

## Findings

| source | as written | input that shows it | evidently intended | confidence | as-written member | corrected member |
|---|---|---|---|---|---|---|
| ARB_Volume_Equations.py:709 | `Factor**(1/3)` in a Python 2 module: `1/3` is integer division, so the exponent is 0 and the cube root of the size factor is always 1 (also at lines 756, 799, 2663 and 2665) | equation 14 with DRC = 10, HT = 10, one stem: the code gives (-0.13386 + 0.133726 + 0.036329)^3 = 0.036195^3, the same for every tree | the cube root `Factor**(1./3.)`, as the class version writes it; this gives 1.239729^3 for that tree | not executed | RootVolume.DrcCvtsAsWritten (shown by RootVolume.AsWrittenIgnoresSize and RootVolume.CubeRootCounterexample) | RootVolume.DrcCvts (RootVolume.CubedVolumeGrows, RootVolume.DrcMatchesClass) |
