/** The volume metrics `VolumeEquation.calc_vol` accepts, the upper-casing it
    applies to the requested name, and the diameter limits below which each
    metric is reported as zero. */
module Metrics {
  import opened Wrappers

  /** The eleven metrics of `calc_vol`: cubic volumes (total with stump, above
      stump, to 4-, 6- and 8-inch tops), the tarif number, and the Scribner and
      International boardfoot volumes. */
  datatype Metric = CVTS | TARIF | CVT | CV4 | CV6 | CV8 | SV616 | SV816 | SV632 | XINT6 | XINT8

  /** The accepted names, in the order the code lists them. */
  const Available: seq<Metric> := [CVTS, TARIF, CVT, CV4, CV6, CV8, SV616, SV816, SV632, XINT6, XINT8]

  function Name(k: Metric): string {
    match k
    case CVTS => "CVTS"
    case TARIF => "TARIF"
    case CVT => "CVT"
    case CV4 => "CV4"
    case CV6 => "CV6"
    case CV8 => "CV8"
    case SV616 => "SV616"
    case SV816 => "SV816"
    case SV632 => "SV632"
    case XINT6 => "XINT6"
    case XINT8 => "XINT8"
  }

  /** The two non-ASCII letters whose upper case is an ASCII capital: the
      dotless i (U+0131) and the long s (U+017F). */
  const DotlessI: char := '\U{0131}'
  const LongS: char := '\U{017F}'

  /** Python's `str.upper` on one character, as far as it can matter for a
      metric name: a lower-case ASCII letter, the dotless i and the long s
      become their ASCII capitals, and every other character is kept. */
  function UpperChar(c: char): (r: char)
    ensures !('a' <= r <= 'z')
    ensures 'A' <= r <= 'Z' <==> 'A' <= c <= 'Z' || 'a' <= c <= 'z' || c == DotlessI || c == LongS
    ensures 'a' <= c <= 'z' ==> r as int == c as int - 32
    ensures c == DotlessI ==> r == 'I'
    ensures c == LongS ==> r == 'S'
    ensures !('a' <= c <= 'z' || c == DotlessI || c == LongS) ==> r == c
  {
    if 'a' <= c <= 'z' then (c as int - 32) as char
    else if c == DotlessI then 'I'
    else if c == LongS then 'S'
    else c
  }

  function Upper(s: string): (r: string)
    ensures |r| == |s|
    ensures forall i :: 0 <= i < |s| ==> r[i] == UpperChar(s[i])
  {
    if s == [] then [] else [UpperChar(s[0])] + Upper(s[1..])
  }

  /** The first metric of `ks` whose name is `u`. */
  function Find(u: string, ks: seq<Metric>): (r: Option<Metric>)
    ensures r.Some? ==> r.value in ks && Name(r.value) == u
    ensures r.None? ==> forall k :: k in ks ==> Name(k) != u
  {
    if ks == [] then None
    else if Name(ks[0]) == u then Some(ks[0])
    else Find(u, ks[1..])
  }

  /** The metric a user-supplied name selects, or None when `calc_vol` would
      raise ValueError. */
  function Parse(s: string): (r: Option<Metric>)
    ensures r.Some? ==> Name(r.value) == Upper(s)
    ensures r.None? ==> forall k: Metric :: k in Available ==> Name(k) != Upper(s)
  {
    Find(Upper(s), Available)
  }

  /** Diameter (inches) below which a metric is zeroed; TARIF is instead
      zeroed at a diameter of at most 0. */
  function MinDbh(k: Metric): real {
    match k
    case CVTS | CVT => 1.0
    case TARIF => 0.0
    case CV4 => 5.0
    case CV6 | SV616 | SV632 | XINT6 => 9.0
    case CV8 | SV816 | XINT8 => 11.0
  }

  /** True when the code overwrites metric `k` of a tree with 0. */
  predicate Masked(k: Metric, dbh: real, ht: real) {
    ht <= 0.0 || (if k == TARIF then dbh <= 0.0 else dbh < MinDbh(k))
  }

  /** The boolean-mask assignment `x[dbh < limit | ht <= 0] = 0` for one tree. */
  function Mask(k: Metric, dbh: real, ht: real, x: real): (r: real)
    ensures Masked(k, dbh, ht) ==> r == 0.0
    ensures !Masked(k, dbh, ht) ==> r == x
  {
    if Masked(k, dbh, ht) then 0.0 else x
  }

  /** The diameter limits per metric: every metric is 0 for a height of at
      most 0; TARIF for a diameter of at most 0; CVTS and CVT below 1 inch; CV4
      below 5; CV6, SV616, SV632 and XINT6 below 9; CV8, SV816 and XINT8 below
      11. From those limits on, a tree of positive height keeps its value. */
  lemma MaskThresholds(k: Metric, dbh: real, ht: real, x: real)
    ensures var r := Mask(k, dbh, ht, x);
      && (r == 0.0 || r == x)
      && (ht <= 0.0 ==> r == 0.0)
      && (k == TARIF ==> (r == 0.0 <== dbh <= 0.0) && (dbh > 0.0 && ht > 0.0 ==> r == x))
      && (k in {CVTS, CVT} ==> (dbh < 1.0 ==> r == 0.0) && (dbh >= 1.0 && ht > 0.0 ==> r == x))
      && (k == CV4 ==> (dbh < 5.0 ==> r == 0.0) && (dbh >= 5.0 && ht > 0.0 ==> r == x))
      && (k in {CV6, SV616, SV632, XINT6} ==> (dbh < 9.0 ==> r == 0.0) && (dbh >= 9.0 && ht > 0.0 ==> r == x))
      && (k in {CV8, SV816, XINT8} ==> (dbh < 11.0 ==> r == 0.0) && (dbh >= 11.0 && ht > 0.0 ==> r == x))
  {
  }

  /** A metric kept at one diameter is kept at every larger one. */
  lemma MaskMonotone(k: Metric, dbh: real, dbh': real, ht: real)
    requires dbh <= dbh'
    ensures !Masked(k, dbh, ht) ==> !Masked(k, dbh', ht)
  {
  }

  lemma NamesDistinct(j: Metric, k: Metric)
    ensures Name(j) == Name(k) ==> j == k
  {
  }

  lemma {:induction false} UpperIdempotent(s: string)
    ensures Upper(Upper(s)) == Upper(s)
  {
    var u := Upper(s);
    assert forall i :: 0 <= i < |u| ==> Upper(u)[i] == u[i];
  }

  lemma AvailableIsComplete(k: Metric)
    ensures k in Available
  {
  }

  /** The metric names are already upper case. */
  lemma {:induction false} NameIsUpper(k: Metric)
    ensures Upper(Name(k)) == Name(k)
  {
    var n := Name(k);
    assert forall i :: 0 <= i < |n| ==> 'A' <= n[i] <= 'Z' || '0' <= n[i] <= '9';
    assert forall i :: 0 <= i < |n| ==> Upper(n)[i] == n[i];
  }

  /** `calc_vol` accepts a name exactly when its upper-cased form is one of the
      eleven metric names, and then selects that metric. */
  lemma {:induction false} ParseIff(s: string, k: Metric)
    ensures Parse(s) == Some(k) <==> Upper(s) == Name(k)
  {
    AvailableIsComplete(k);
    if Parse(s).Some? {
      NamesDistinct(Parse(s).value, k);
    }
  }

  /** Every metric name, in any letter case, selects its own metric. */
  lemma {:induction false} ParseName(k: Metric)
    ensures Parse(Name(k)) == Some(k)
  {
    NameIsUpper(k);
    ParseIff(Name(k), k);
  }

  /** Parsing ignores letter case. */
  lemma {:induction false} ParseIgnoresCase(s: string)
    ensures Parse(Upper(s)) == Parse(s)
  {
    UpperIdempotent(s);
  }
}
