/**
  The yearly band-stack script: for every archive, for every calendar year in
  its timestamps, one GeoTIFF whose bands are the monthly refractive-index
  grids of that year, labelled "YYYY_Mon", and, when the in-year counter
  reaches 12, an average band 13 ("YYYY_AVG") and a range band 14
  ("YYYY_RANGE").

  The model follows the code as written, including two quirks:
  - the grid written for the k-th timestamp of a year is read from file time
    index k - 1, because the enumerate counter restarts every year;
  - the summary bands are written when the counter reaches 12, whatever the
    declared band count, so a 13-timestamp year writes band 14 of a 13-band
    file and raises.
 */
module MonthlyRaster {
  import opened Text
  import opened Calendar
  import opened Grid

  // ---------------------------------------------------------------------
  // The archive and the order in which its years are visited
  // ---------------------------------------------------------------------

  /** What the script reads from one netCDF archive, at the surface layer. */
  datatype Archive = Archive(
    path: string,
    lat: seq<real>,
    lon: seq<real>,
    dates: seq<Date>,
    so: seq<Field>,
    to: seq<Field>)

  function CellCount(a: Archive): nat {
    |a.lat| * |a.lon|
  }

  predicate WellFormed(a: Archive) {
    && |a.lat| >= 1
    && |a.dates| == |a.so| == |a.to|
    && (forall k :: 0 <= k < |a.dates| ==> ValidDate(a.dates[k]))
    && SameWidth(a.so, CellCount(a))
    && SameWidth(a.to, CellCount(a))
  }

  /**
    The script's refractive index at 532 nm from salinity s and temperature t,
    in exact arithmetic. The operations below take the formula as a parameter;
    ScriptOutput is the script's own run, with this formula.
   */
  function Ri532(s: real, t: real): real {
    s * (0.000000016 * t * t - 0.00000105 * t + 0.000199611) - 0.00000202 * t * t - 0.00000795113 * t + 1.336
  }

  /** The refractive-index grid of every file time index (the formula, cell by cell). */
  function Fields(a: Archive, formula: (real, real) -> real): (fs: seq<Field>)
    requires WellFormed(a)
    ensures |fs| == |a.dates| && SameWidth(fs, CellCount(a))
    ensures forall k :: 0 <= k < |fs| ==> fs[k] == RiField(formula, a.so[k], a.to[k])
  {
    seq(|a.dates|, k requires 0 <= k < |a.dates| => RiField(formula, a.so[k], a.to[k]))
  }

  function FirstIndex(xs: seq<nat>, x: nat): (k: nat)
    requires x in xs
    ensures k < |xs| && xs[k] == x
    ensures forall m :: 0 <= m < k ==> xs[m] != x
  {
    if xs[0] == x then 0 else 1 + FirstIndex(xs[1..], x)
  }

  /** pandas' Series.unique(): distinct values in order of first appearance. */
  function Unique(xs: seq<nat>): (r: seq<nat>)
    ensures forall x :: x in r <==> x in xs
    ensures forall i, j :: 0 <= i < j < |r| ==> r[i] != r[j]
  {
    if xs == [] then []
    else
      var r0 := Unique(xs[..|xs| - 1]);
      var x := xs[|xs| - 1];
      assert forall y :: y in xs <==> y in xs[..|xs| - 1] || y == x;
      if x in r0 then r0 else r0 + [x]
  }

  lemma FirstIndexPrefix(xs: seq<nat>, x: nat)
    requires xs != [] && x in xs[..|xs| - 1]
    ensures FirstIndex(xs, x) == FirstIndex(xs[..|xs| - 1], x)
  {
    var p := xs[..|xs| - 1];
    var k := FirstIndex(p, x);
    assert xs[k] == x;
    var m := FirstIndex(xs, x);
    assert m <= k && p[m] == x;
  }

  /** The years come out in the order in which they first appear among the timestamps. */
  lemma {:induction false} UniqueFirstAppearance(xs: seq<nat>, i: nat, j: nat)
    requires i < j < |Unique(xs)|
    ensures Unique(xs)[i] in xs && Unique(xs)[j] in xs
    ensures FirstIndex(xs, Unique(xs)[i]) < FirstIndex(xs, Unique(xs)[j])
  {
    var p := xs[..|xs| - 1];
    var r0 := Unique(p);
    var x := xs[|xs| - 1];
    var r := Unique(xs);
    assert r[i] in r && r[j] in r;
    if x in r0 {
      assert r == r0;
      UniqueFirstAppearance(p, i, j);
      FirstIndexPrefix(xs, r[i]);
      FirstIndexPrefix(xs, r[j]);
    } else {
      assert r == r0 + [x];
      assert r[i] == r0[i] && r0[i] in r0;
      FirstIndexPrefix(xs, r[i]);
      if j < |r0| {
        assert r[j] == r0[j] && r0[j] in r0;
        UniqueFirstAppearance(p, i, j);
        FirstIndexPrefix(xs, r[j]);
      } else {
        assert r[j] == x && x !in p;
        assert forall m :: 0 <= m < |p| ==> xs[m] == p[m];
        assert FirstIndex(xs, x) == |xs| - 1;
      }
    }
  }

  function YearsOf(ds: seq<Date>): (ys: seq<nat>)
    ensures |ys| == |ds| && forall k :: 0 <= k < |ds| ==> ys[k] == ds[k].year
  {
    seq(|ds|, k requires 0 <= k < |ds| => ds[k].year)
  }

  /** ncf_dates.date.dt.year.unique(). */
  function Years(ds: seq<Date>): seq<nat> {
    Unique(YearsOf(ds))
  }

  /**
    The file positions of the timestamps of year y, in file order
    (ncf_dates.date[ncf_dates.date.dt.year == year]).
   */
  function YearIndices(ds: seq<Date>, y: nat): (idx: seq<nat>)
    ensures |idx| <= |ds|
    ensures forall k :: 0 <= k < |idx| ==> idx[k] < |ds| && ds[idx[k]].year == y
    ensures forall k, m :: 0 <= k < m < |idx| ==> idx[k] < idx[m]
  {
    if ds == [] then []
    else
      var p := YearIndices(ds[..|ds| - 1], y);
      if ds[|ds| - 1].year == y then p + [|ds| - 1] else p
  }

  /** No timestamp of year y is left out. */
  lemma {:induction false} YearIndicesComplete(ds: seq<Date>, y: nat, j: nat)
    requires j < |ds| && ds[j].year == y
    ensures j in YearIndices(ds, y)
  {
    var n := |ds| - 1;
    if j < n {
      YearIndicesComplete(ds[..n], y, j);
    }
  }

  /** The timestamps of year y, in file order, contiguous or not. */
  function OfYear(ds: seq<Date>, y: nat): (r: seq<Date>)
    ensures |r| == |YearIndices(ds, y)| && |r| <= |ds|
    ensures forall k :: 0 <= k < |r| ==> r[k] == ds[YearIndices(ds, y)[k]] && r[k].year == y
  {
    var idx := YearIndices(ds, y);
    seq(|idx|, k requires 0 <= k < |idx| => ds[idx[k]])
  }

  /** A year interrupted by another one still collects all of its timestamps. */
  lemma NonContiguousYear()
    ensures OfYear([Date(2020, 1, 1), Date(2021, 1, 1), Date(2020, 2, 1)], 2020) == [Date(2020, 1, 1), Date(2020, 2, 1)]
  {
    var ds := [Date(2020, 1, 1), Date(2021, 1, 1), Date(2020, 2, 1)];
    var d1, d2 := ds[..1], ds[..2];
    assert d1[..0] == [] && d2[..1] == d1 && ds[..2] == d2;
    assert YearIndices(d1, 2020) == [0];
    assert YearIndices(d2, 2020) == [0];
    assert YearIndices(ds, 2020) == [0, 2];
  }

  /** ... and that year is still processed once, before the year that interrupted it. */
  lemma NonContiguousYearOrder()
    ensures Years([Date(2020, 1, 1), Date(2021, 1, 1), Date(2020, 2, 1)]) == [2020, 2021]
  {
    var ys := YearsOf([Date(2020, 1, 1), Date(2021, 1, 1), Date(2020, 2, 1)]);
    assert ys == [2020, 2021, 2020];
    var y1, y2 := ys[..1], ys[..2];
    assert y1[..0] == [] && y2[..1] == y1 && ys[..2] == y2;
    assert Unique(y1) == [2020];
    assert Unique(y2) == [2020, 2021];
  }

  /** month_in_ncf, with its 12 -> 14 bump: the band count declared for a year of n timestamps. */
  function DeclaredCount(n: nat): (c: nat)
    ensures n != 12 ==> c == n
    ensures n == 12 ==> c == n + 2
  {
    if n == 12 then 14 else n
  }

  // ---------------------------------------------------------------------
  // Geometry and names
  // ---------------------------------------------------------------------

  /** An affine geotransform x = a*col + b*row + c, y = d*col + e*row + f. */
  datatype Affine = Affine(a: real, b: real, c: real, d: real, e: real, f: real)

  const RESOLUTION: real := 0.25

  /** Affine.translation(-180, lat[0] - 0.125) * Affine.scale(0.25, 0.25). */
  function YearTransform(lat0: real): Affine {
    Affine(RESOLUTION, 0.0, -180.0, 0.0, RESOLUTION, lat0 - 0.125)
  }

  function PixelCentre(t: Affine, col: nat, row: nat): (real, real) {
    var x := col as real + 0.5;
    var y := row as real + 0.5;
    (t.a * x + t.b * y + t.c, t.d * x + t.e * y + t.f)
  }

  /**
    Row r's cell centres sit at lat[0] + 0.25 r, so the first row is centred on
    the first latitude; column c's centres sit at -179.875 + 0.25 c whatever
    the archive's longitudes are.
   */
  lemma PixelCentreOnGrid(lat0: real, col: nat, row: nat)
    ensures PixelCentre(YearTransform(lat0), col, row)
      == (-179.875 + 0.25 * col as real, lat0 + 0.25 * row as real)
  {
  }

  /** ncf.split("-")[-2]: raises when the path holds no '-'. */
  function SourcePrefix(path: string): Option<string> {
    var parts := Split(path, '-');
    if |parts| >= 2 then Some(parts[|parts| - 2]) else None
  }

  /**
    The prefix exists iff the path contains a '-', and it is then the dash-free
    text between the last two dashes (or between the start and the only dash).
   */
  lemma SourcePrefixSpec(path: string)
    ensures SourcePrefix(path).Some? <==> '-' in path
    ensures SourcePrefix(path).Some? ==>
      var x := SourcePrefix(path).value;
      '-' !in x && exists u, v :: path == u + x + "-" + v && '-' !in v && (u == [] || u[|u| - 1] == '-')
  {
    SplitHasTwoParts(path, '-');
    var parts := Split(path, '-');
    SplitJoin(path, '-');
    if |parts| >= 2 {
      var u := JoinLastTwo(parts, '-');
      assert path == u + parts[|parts| - 2] + "-" + parts[|parts| - 1];
    }
  }


  /** os.path.split(ncf)[0] + "/monthly_rasters". */
  function OutputDir(ncf: string): string {
    DirName(ncf) + "/monthly_rasters"
  }

  /** '%s/armor3d_nw532_%s_monthly_%s.tif' % (out_path, year, prefix). */
  function OutputPath(ncf: string, year: nat, prefix: string): string {
    OutputDir(ncf) + "/armor3d_nw532_" + NatToString(year) + "_monthly_" + prefix + ".tif"
  }

  function AvgLabel(year: nat): string {
    NatToString(year) + "_AVG"
  }

  function RangeLabel(year: nat): string {
    NatToString(year) + "_RANGE"
  }

  // Band writes and the state of one year's raster
  // ---------------------------------------------------------------------

  /** The bands and band descriptions written so far. */
  datatype Stack = Stack(bands: map<int, Field>, labels: map<int, string>)

  /** write_band(b, g) followed by set_band_description(b, t). */
  function Put(s: Stack, b: int, g: Field, t: string): Stack {
    Stack(s.bands[b := g], s.labels[b := t])
  }

  /** The summary grids ri_avg / 12.0 and ri_max - ri_min. */
  function AvgField(acc: Acc): Field {
    Div(acc.sum, 12.0)
  }

  function RangeField(acc: Acc): Field
    requires |acc.hi| == |acc.lo|
  {
    Diff(acc.hi, acc.lo)
  }

  /** months_in_year, the three accumulators, and the raster's contents. */
  datatype YearState = YearState(months: nat, acc: Acc, stack: Stack)

  /** A state, and whether the raster calls so far all succeeded. */
  datatype Step = Step(state: YearState, ok: bool)

  /**
    One pass of the in-year loop (months_in_year += 1 through the band-14 description). Every raster call on a band
    outside 1..count raises (rasterio's IndexError), which ends the pass.
   */
  function MonthStep(count: nat, year: nat, st: YearState, d: Date, ri: Field): Step
    requires ValidDate(d)
    requires st.months >= 1 ==> AccWidth(st.acc, |ri|)
  {
    var k := st.months + 1;
    var acc := if k == 1 then Acc(ri, ri, ri) else Fold(st.acc, ri);
    var s1 := Put(st.stack, k, ri, YearMonthLabel(d));
    var s2 := Put(s1, 13, AvgField(acc), AvgLabel(year));
    if count < k then Step(YearState(k, acc, st.stack), false)
    else if k != 12 then Step(YearState(k, acc, s1), true)
    else if count < 13 then Step(YearState(k, acc, s1), false)
    else if count < 14 then Step(YearState(k, acc, s2), false)
    else Step(YearState(k, acc, Put(s2, 14, RangeField(acc), RangeLabel(year))), true)
  }

  predicate Uniform(fs: seq<Field>) {
    fs == [] || SameWidth(fs, |fs[0]|)
  }

  /** A freshly opened year: counter 0, nothing written. */
  predicate Fresh(st: YearState) {
    st.months == 0 && st.stack == Stack(map[], map[])
  }

  /** The in-year loop over the year's timestamps ds and the grids fs read for them. */
  function YearRun(count: nat, year: nat, start: YearState, ds: seq<Date>, fs: seq<Field>): (r: Step)
    requires |ds| == |fs| && AllValid(ds) && Uniform(fs) && start.months == 0
    ensures r.state.months <= |ds|
    ensures r.ok ==> r.state.months == |ds|
    ensures r.state.months >= 1 ==> AccWidth(r.state.acc, |fs[0]|)
  {
    if ds == [] then Step(start, true)
    else
      var n := |ds| - 1;
      var p := YearRun(count, year, start, ds[..n], fs[..n]);
      if !p.ok then p else MonthStep(count, year, p.state, ds[n], fs[n])
  }

  /** After a run of i timestamps that has not raised, timestamp i is one more pass of the loop. */
  lemma YearRunStep(count: nat, year: nat, start: YearState, ds: seq<Date>, fs: seq<Field>, i: nat)
    requires |ds| == |fs| && AllValid(ds) && Uniform(fs) && start.months == 0 && i < |ds|
    requires YearRun(count, year, start, ds[..i], fs[..i]).ok
    ensures var p := YearRun(count, year, start, ds[..i], fs[..i]);
      p.state.months >= 1 ==> AccWidth(p.state.acc, |fs[i]|)
    ensures YearRun(count, year, start, ds[..i + 1], fs[..i + 1])
      == MonthStep(count, year, YearRun(count, year, start, ds[..i], fs[..i]).state, ds[i], fs[i])
  {
    assert ds[..i + 1][..i] == ds[..i] && fs[..i + 1][..i] == fs[..i];
  }

  /** Once a call has raised, the remaining timestamps change nothing. */
  lemma {:induction false} YearRunStaysFailed(count: nat, year: nat, start: YearState, ds: seq<Date>, fs: seq<Field>, k: nat)
    requires |ds| == |fs| && AllValid(ds) && Uniform(fs) && start.months == 0 && k <= |ds|
    requires !YearRun(count, year, start, ds[..k], fs[..k]).ok
    ensures YearRun(count, year, start, ds, fs) == YearRun(count, year, start, ds[..k], fs[..k])
    decreases |ds| - k
  {
    if k < |ds| {
      assert ds[..k + 1][..k] == ds[..k] && fs[..k + 1][..k] == fs[..k];
      YearRunStaysFailed(count, year, start, ds, fs, k + 1);
    } else {
      assert ds[..k] == ds && fs[..k] == fs;
    }
  }

  /** The highest band written once k timestamps have been processed. */
  function Top(k: nat): nat {
    if k == 12 || k == 13 then 14 else k
  }

  /** Band b after k timestamps: the b-th grid, or a summary of the first twelve. */
  function ExpectedBand(fs: seq<Field>, k: nat, b: int): Field
    requires k <= |fs| && Uniform(fs) && 1 <= b <= Top(k)
  {
    if b <= k then fs[b - 1]
    else if b == 13 then AvgField(Accumulate(fs[..12]))
    else RangeField(Accumulate(fs[..12]))
  }

  /** The band descriptions of the monthly bands, one per timestamp. */
  function MonthLabels(ds: seq<Date>): (ls: seq<string>)
    requires AllValid(ds)
    ensures |ls| == |ds| && forall i :: 0 <= i < |ds| ==> ls[i] == YearMonthLabel(ds[i])
  {
    seq(|ds|, i requires 0 <= i < |ds| => YearMonthLabel(ds[i]))
  }

  /** Description of band b after k timestamps whose monthly labels are ls. */
  function ExpectedLabel(year: nat, ls: seq<string>, k: nat, b: int): string
    requires k <= |ls| && 1 <= b <= Top(k)
  {
    if b <= k then ls[b - 1]
    else if b == 13 then AvgLabel(year)
    else RangeLabel(year)
  }

  /** The bands are exactly 1..Top(k), each holding its expected grid. */
  ghost predicate BandsMatch(fs: seq<Field>, k: nat, bands: map<int, Field>)
    requires k <= |fs| && Uniform(fs)
  {
    && (forall b :: b in bands <==> 1 <= b <= Top(k))
    && (forall b :: 1 <= b <= Top(k) ==> bands[b] == ExpectedBand(fs, k, b))
  }

  /** The band descriptions are exactly those of bands 1..Top(k), each the expected label. */
  ghost predicate LabelsMatch(year: nat, ls: seq<string>, k: nat, labels: map<int, string>)
    requires k <= |ls|
  {
    && (forall b :: b in labels <==> 1 <= b <= Top(k))
    && (forall b :: 1 <= b <= Top(k) ==> labels[b] == ExpectedLabel(year, ls, k, b))
  }

  /** The raster holds exactly bands 1..Top(k), each with its expected grid and label. */
  ghost predicate Matches(year: nat, ds: seq<Date>, fs: seq<Field>, k: nat, s: Stack)
    requires |ds| == |fs| && k <= |ds| && AllValid(ds) && Uniform(fs)
  {
    BandsMatch(fs, k, s.bands) && LabelsMatch(year, MonthLabels(ds), k, s.labels)
  }

  lemma PutBandMatches(fs: seq<Field>, k: nat, bands: map<int, Field>)
    requires k < |fs| && k + 1 != 12 && Uniform(fs)
    requires BandsMatch(fs, k, bands)
    ensures BandsMatch(fs, k + 1, bands[k + 1 := fs[k]])
  {
    assert Top(k + 1) == if k + 1 == 13 then 14 else k + 1;
    forall b | 1 <= b <= Top(k + 1) && b != k + 1
      ensures ExpectedBand(fs, k + 1, b) == ExpectedBand(fs, k, b)
    {
    }
  }

  lemma PutLabelMatches(year: nat, ls: seq<string>, k: nat, labels: map<int, string>)
    requires k < |ls| && k + 1 != 12
    requires LabelsMatch(year, ls, k, labels)
    ensures LabelsMatch(year, ls, k + 1, labels[k + 1 := ls[k]])
  {
    assert Top(k + 1) == if k + 1 == 13 then 14 else k + 1;
    forall b | 1 <= b <= Top(k + 1) && b != k + 1
      ensures ExpectedLabel(year, ls, k + 1, b) == ExpectedLabel(year, ls, k, b)
    {
    }
  }

  /** Writing the (k+1)-th grid and label, k + 1 != 12, onto the expected raster of k timestamps. */
  lemma PutMatches(year: nat, ds: seq<Date>, fs: seq<Field>, k: nat, s: Stack)
    requires |ds| == |fs| && k < |ds| && k + 1 != 12 && AllValid(ds) && Uniform(fs)
    requires Matches(year, ds, fs, k, s)
    ensures Matches(year, ds, fs, k + 1, Put(s, k + 1, fs[k], YearMonthLabel(ds[k])))
  {
    PutBandMatches(fs, k, s.bands);
    PutLabelMatches(year, MonthLabels(ds), k, s.labels);
  }

  lemma PutTwelveBands(fs: seq<Field>, bands: map<int, Field>, acc: Acc)
    requires 12 <= |fs| && Uniform(fs)
    requires BandsMatch(fs, 11, bands) && acc == Accumulate(fs[..12])
    ensures BandsMatch(fs, 12, bands[12 := fs[11]][13 := AvgField(acc)][14 := RangeField(acc)])
  {
    assert ExpectedBand(fs, 12, 13) == AvgField(acc) && ExpectedBand(fs, 12, 14) == RangeField(acc);
    forall b | 1 <= b <= 11
      ensures ExpectedBand(fs, 12, b) == ExpectedBand(fs, 11, b)
    {
    }
  }

  lemma PutTwelveLabels(year: nat, ls: seq<string>, labels: map<int, string>)
    requires 12 <= |ls|
    requires LabelsMatch(year, ls, 11, labels)
    ensures LabelsMatch(year, ls, 12, labels[12 := ls[11]][13 := AvgLabel(year)][14 := RangeLabel(year)])
  {
    forall b | 1 <= b <= 11
      ensures ExpectedLabel(year, ls, 12, b) == ExpectedLabel(year, ls, 11, b)
    {
    }
  }

  /** The twelfth timestamp: its own band, then the average and the range. */
  lemma PutTwelveMatches(year: nat, ds: seq<Date>, fs: seq<Field>, s: Stack, acc: Acc)
    requires |ds| == |fs| && 12 <= |ds| && AllValid(ds) && Uniform(fs)
    requires Matches(year, ds, fs, 11, s) && acc == Accumulate(fs[..12])
    ensures Matches(year, ds, fs, 12,
      Put(Put(Put(s, 12, fs[11], YearMonthLabel(ds[11])), 13, AvgField(acc), AvgLabel(year)),
          14, RangeField(acc), RangeLabel(year)))
  {
    PutTwelveBands(fs, s.bands, acc);
    PutTwelveLabels(year, MonthLabels(ds), s.labels);
  }

  /** One in-year step taken from the expected raster of k timestamps gives that of k + 1. */
  lemma StepMatches(count: nat, year: nat, ds: seq<Date>, fs: seq<Field>, k: nat, st: YearState)
    requires |ds| == |fs| && k < |ds| && AllValid(ds) && Uniform(fs)
    requires count >= Top(k + 1)
    requires st.months == k && Matches(year, ds, fs, k, st.stack)
    requires k >= 1 ==> st.acc == Accumulate(fs[..k])
    ensures k >= 1 ==> AccWidth(st.acc, |fs[k]|)
    ensures var r := MonthStep(count, year, st, ds[k], fs[k]);
      r.ok && r.state.months == k + 1 && r.state.acc == Accumulate(fs[..k + 1])
      && Matches(year, ds, fs, k + 1, r.state.stack)
  {
    var acc := StepAcc(fs, k, st.acc);
    var t := YearMonthLabel(ds[k]);
    var s1 := Put(st.stack, k + 1, fs[k], t);
    if k + 1 == 12 {
      var s2 := Put(s1, 13, AvgField(acc), AvgLabel(year));
      assert MonthStep(count, year, st, ds[k], fs[k])
        == Step(YearState(12, acc, Put(s2, 14, RangeField(acc), RangeLabel(year))), true);
      PutTwelveMatches(year, ds, fs, st.stack, acc);
    } else {
      assert MonthStep(count, year, st, ds[k], fs[k]) == Step(YearState(k + 1, acc, s1), true);
      PutMatches(year, ds, fs, k, st.stack);
    }
  }

  /** The running statistics after one more grid are those of the longer prefix. */
  lemma StepAcc(fs: seq<Field>, k: nat, acc: Acc) returns (acc': Acc)
    requires k < |fs| && Uniform(fs)
    requires k >= 1 ==> acc == Accumulate(fs[..k])
    ensures k >= 1 ==> AccWidth(acc, |fs[k]|)
    ensures acc' == (if k == 0 then Acc(fs[k], fs[k], fs[k]) else Fold(acc, fs[k]))
    ensures acc' == Accumulate(fs[..k + 1])
  {
    assert fs[..k + 1][..k] == fs[..k];
    acc' := if k == 0 then Acc(fs[k], fs[k], fs[k]) else Fold(acc, fs[k]);
  }

  /**
    The in-year loop over the first k timestamps, with a declared count of at
    least Top(k), raises nothing: band b <= k holds the b-th grid and is
    labelled with the b-th date, and bands 13 and 14 not overwritten by later
    timestamps hold the average and the range of the first twelve grids.
   */
  lemma {:induction false} YearRunMatches(count: nat, year: nat, start: YearState, ds: seq<Date>, fs: seq<Field>, k: nat)
    requires |ds| == |fs| && k <= |ds| && AllValid(ds) && Uniform(fs) && Fresh(start)
    requires count >= Top(k)
    ensures var r := YearRun(count, year, start, ds[..k], fs[..k]);
      r.ok && r.state.months == k && (k >= 1 ==> r.state.acc == Accumulate(fs[..k]))
      && Matches(year, ds, fs, k, r.state.stack)
  {
    if k == 0 {
      assert ds[..0] == [] && fs[..0] == [];
    } else {
      YearRunMatches(count, year, start, ds, fs, k - 1);
      var p := YearRun(count, year, start, ds[..k - 1], fs[..k - 1]);
      YearRunStep(count, year, start, ds, fs, k - 1);
      StepMatches(count, year, ds, fs, k - 1, p.state);
    }
  }

  lemma ThirteenBands(fs: seq<Field>, bands: map<int, Field>, acc: Acc)
    requires 12 <= |fs| && Uniform(fs) && BandsMatch(fs, 11, bands) && acc == Accumulate(fs[..12])
    ensures var m := bands[12 := fs[11]][13 := AvgField(acc)];
      && (forall b :: b in m <==> 1 <= b <= 13)
      && (forall b :: 1 <= b <= 12 ==> m[b] == fs[b - 1])
      && m[13] == AvgField(acc)
  {
    forall b | 1 <= b <= 11
      ensures bands[b] == fs[b - 1]
    {
      assert ExpectedBand(fs, 11, b) == fs[b - 1];
    }
  }

  lemma ThirteenLabels(year: nat, ls: seq<string>, labels: map<int, string>)
    requires 12 <= |ls| && LabelsMatch(year, ls, 11, labels)
    ensures var m := labels[12 := ls[11]][13 := AvgLabel(year)];
      && (forall b :: b in m <==> 1 <= b <= 13)
      && (forall b :: 1 <= b <= 12 ==> m[b] == ls[b - 1])
      && m[13] == AvgLabel(year)
  {
    forall b | 1 <= b <= 11
      ensures labels[b] == ls[b - 1]
    {
      assert ExpectedLabel(year, ls, 11, b) == ls[b - 1];
    }
  }

  /** The twelfth timestamp of a 13-band raster: band 13 is written, band 14 raises. */
  lemma ThirteenStep(year: nat, ds: seq<Date>, fs: seq<Field>, st: YearState)
    requires |ds| == |fs| == 13 && AllValid(ds) && Uniform(fs)
    requires st.months == 11 && st.acc == Accumulate(fs[..11]) && Matches(year, ds, fs, 11, st.stack)
    ensures AccWidth(st.acc, |fs[11]|)
    ensures var r := MonthStep(13, year, st, ds[11], fs[11]);
      var s := r.state.stack;
      && !r.ok && r.state.months == 12
      && (forall b :: b in s.bands <==> 1 <= b <= 13)
      && (forall b :: b in s.labels <==> 1 <= b <= 13)
      && (forall b :: 1 <= b <= 12 ==> s.bands[b] == fs[b - 1] && s.labels[b] == YearMonthLabel(ds[b - 1]))
      && s.bands[13] == AvgField(Accumulate(fs[..12])) && s.labels[13] == AvgLabel(year)
  {
    var acc := StepAcc(fs, 11, st.acc);
    var s := Put(Put(st.stack, 12, fs[11], YearMonthLabel(ds[11])), 13, AvgField(acc), AvgLabel(year));
    assert MonthStep(13, year, st, ds[11], fs[11]) == Step(YearState(12, acc, s), false);
    ThirteenBands(fs, st.stack.bands, acc);
    ThirteenLabels(year, MonthLabels(ds), st.stack.labels);
  }


  /**
    A year of thirteen timestamps declares 13 bands, but at the twelfth the
    summary writes run: band 13 receives the average, writing band 14 raises,
    and the thirteenth timestamp is never processed.
   */
  lemma ThirteenSliceYearFails(year: nat, start: YearState, ds: seq<Date>, fs: seq<Field>)
    requires |ds| == |fs| == 13 && AllValid(ds) && Uniform(fs) && Fresh(start)
    ensures var r := YearRun(DeclaredCount(13), year, start, ds, fs);
      var s := r.state.stack;
      && !r.ok && r.state.months == 12
      && (forall b :: b in s.bands <==> 1 <= b <= 13)
      && (forall b :: b in s.labels <==> 1 <= b <= 13)
      && (forall b :: 1 <= b <= 12 ==> s.bands[b] == fs[b - 1] && s.labels[b] == YearMonthLabel(ds[b - 1]))
      && s.bands[13] == AvgField(Accumulate(fs[..12])) && s.labels[13] == AvgLabel(year)
  {
    YearRunMatches(13, year, start, ds, fs, 11);
    var p := YearRun(13, year, start, ds[..11], fs[..11]);
    assert ds[..12][..11] == ds[..11] && fs[..12][..11] == fs[..11];
    ThirteenStep(year, ds, fs, p.state);
    YearRunStaysFailed(13, year, start, ds, fs, 12);
  }

  // ---------------------------------------------------------------------
  // One output raster per (archive, year)
  // ---------------------------------------------------------------------

  /** An output GeoTIFF as left on disk. closed is false when a raster call raised. */
  datatype RasterFile = RasterFile(
    path: string,
    height: nat,
    width: nat,
    count: nat,
    transform: Affine,
    stack: Stack,
    closed: bool)

  /** The starter variables: a zero counter and the accumulators np.full(..., nan). */
  function OpenState(a: Archive): (st: YearState)
    ensures Fresh(st)
  {
    YearState(0, Acc(MissingField(|a.lat|), MissingField(|a.lat|), MissingField(|a.lat|)), Stack(map[], map[]))
  }

  /**
    The grids written for year y as the code reads them: the k-th timestamp of
    the year takes file time index k - 1, so every year re-reads the archive's
    first grids.
   */
  function YearFields(a: Archive, formula: (real, real) -> real, y: nat): (fs: seq<Field>)
    requires WellFormed(a)
    ensures |fs| == |OfYear(a.dates, y)| && Uniform(fs) && SameWidth(fs, CellCount(a))
  {
    Fields(a, formula)[..|OfYear(a.dates, y)|]
  }

  /** The grids the script evidently means to write: those of the year's own timestamps. */
  function IntendedYearFields(a: Archive, formula: (real, real) -> real, y: nat): (fs: seq<Field>)
    requires WellFormed(a)
    ensures |fs| == |OfYear(a.dates, y)| && Uniform(fs)
    ensures forall k :: 0 <= k < |fs| ==>
      fs[k] == RiField(formula, a.so[YearIndices(a.dates, y)[k]], a.to[YearIndices(a.dates, y)[k]])
      && a.dates[YearIndices(a.dates, y)[k]] == OfYear(a.dates, y)[k]
  {
    var idx := YearIndices(a.dates, y);
    var all := Fields(a, formula);
    seq(|idx|, k requires 0 <= k < |idx| => all[idx[k]])
  }

  /** The body of the per-year loop for a year whose timestamps get the grids fs: the raster it leaves, and whether the year finished. */
  function YearRaster(a: Archive, prefix: string, y: nat, fs: seq<Field>): (RasterFile, bool)
    requires WellFormed(a) && |fs| == |OfYear(a.dates, y)| && Uniform(fs)
  {
    var ds := OfYear(a.dates, y);
    var count := DeclaredCount(|ds|);
    var r := YearRun(count, y, OpenState(a), ds, fs);
    (RasterFile(OutputPath(a.path, y, prefix), |a.lat|, |a.lon|, count, YearTransform(a.lat[0]),
                r.state.stack, r.ok),
     r.ok)
  }

  /** The raster of year y as the script writes it. */
  function YearOutput(a: Archive, formula: (real, real) -> real, prefix: string, y: nat): (RasterFile, bool)
    requires WellFormed(a)
  {
    YearRaster(a, prefix, y, YearFields(a, formula, y))
  }

  /** The raster of year y as the script evidently means to write it. */
  function IntendedYearOutput(a: Archive, formula: (real, real) -> real, prefix: string, y: nat): (RasterFile, bool)
    requires WellFormed(a)
  {
    YearRaster(a, prefix, y, IntendedYearFields(a, formula, y))
  }

  /** A year of n != 13 timestamps finishes, and its raster is the expected one for all n timestamps. */
  lemma YearRasterMatches(a: Archive, prefix: string, y: nat, fs: seq<Field>)
    requires WellFormed(a) && |fs| == |OfYear(a.dates, y)| && Uniform(fs) && |fs| != 13
    ensures var ds := OfYear(a.dates, y);
      var (file, ok) := YearRaster(a, prefix, y, fs);
      && AllValid(ds)
      && ok && file.closed && file.count == DeclaredCount(|ds|) == Top(|ds|)
      && Matches(y, ds, fs, |ds|, file.stack)
  {
    var ds := OfYear(a.dates, y);
    var n := |ds|;
    assert AllValid(ds);
    YearRunMatches(DeclaredCount(n), y, OpenState(a), ds, fs, n);
    assert ds[..n] == ds && fs[..n] == fs;
  }

  lemma YearOutputMatches(a: Archive, formula: (real, real) -> real, prefix: string, y: nat)
    requires WellFormed(a) && |OfYear(a.dates, y)| != 13
    ensures var ds := OfYear(a.dates, y);
      var (file, ok) := YearOutput(a, formula, prefix, y);
      && AllValid(ds)
      && ok && file.closed && file.count == DeclaredCount(|ds|) == Top(|ds|)
      && Matches(y, ds, YearFields(a, formula, y), |ds|, file.stack)
  {
    YearRasterMatches(a, prefix, y, YearFields(a, formula, y));
  }

  /**
    In the intended raster of a year of n != 13 timestamps, band k holds the
    grid of the very timestamp whose "YYYY_Mon" label it carries.
   */
  lemma IntendedBandsOwnTimestamp(a: Archive, formula: (real, real) -> real, prefix: string, y: nat, k: nat)
    requires WellFormed(a) && |OfYear(a.dates, y)| != 13 && 1 <= k <= |OfYear(a.dates, y)|
    ensures var s := IntendedYearOutput(a, formula, prefix, y).0.stack;
      var j := YearIndices(a.dates, y)[k - 1];
      && k in s.bands && k in s.labels
      && s.bands[k] == RiField(formula, a.so[j], a.to[j])
      && s.labels[k] == YearMonthLabel(a.dates[j])
  {
    var ds := OfYear(a.dates, y);
    var fs := IntendedYearFields(a, formula, y);
    var n := |ds|;
    YearRasterMatches(a, prefix, y, fs);
    assert ExpectedBand(fs, n, k) == fs[k - 1];
    assert ExpectedLabel(y, MonthLabels(ds), n, k) == YearMonthLabel(ds[k - 1]);
  }

  /**
    What the script promises of a year of n timestamps, n != 13: the raster is
    written and closed and declares n bands, or 14 when n is 12; band k <= n
    holds the grid read for the k-th timestamp and the label "YYYY_Mon" of that
    timestamp; a twelve-timestamp year adds "YYYY_AVG" (the running sum over 12)
    and "YYYY_RANGE" (maximum minus minimum).
   */
  lemma YearOutputSpec(a: Archive, formula: (real, real) -> real, prefix: string, y: nat)
    requires WellFormed(a) && |OfYear(a.dates, y)| != 13
    ensures var ds := OfYear(a.dates, y);
      var fs := YearFields(a, formula, y);
      var (file, ok) := YearOutput(a, formula, prefix, y);
      var n := |ds|;
      var s := file.stack;
      && ok && file.closed
      && file.path == OutputPath(a.path, y, prefix)
      && file.count == DeclaredCount(n)
      && (forall b :: b in s.bands <==> 1 <= b <= file.count)
      && (forall b :: b in s.labels <==> 1 <= b <= file.count)
      && (forall k :: 1 <= k <= n ==> s.bands[k] == fs[k - 1] && s.labels[k] == YearMonthLabel(ds[k - 1]))
      && (n == 12 ==>
            s.bands[13] == AvgField(Accumulate(fs)) && s.labels[13] == AvgLabel(y)
            && s.bands[14] == RangeField(Accumulate(fs)) && s.labels[14] == RangeLabel(y))
  {
    var ds := OfYear(a.dates, y);
    var fs := YearFields(a, formula, y);
    var n := |ds|;
    YearOutputMatches(a, formula, prefix, y);
    var s := YearOutput(a, formula, prefix, y).0.stack;
    forall k | 1 <= k <= n
      ensures s.bands[k] == fs[k - 1] && s.labels[k] == YearMonthLabel(ds[k - 1])
    {
      assert ExpectedBand(fs, n, k) == fs[k - 1];
      assert ExpectedLabel(y, MonthLabels(ds), n, k) == YearMonthLabel(ds[k - 1]);
    }
    if n == 12 {
      assert fs[..12] == fs;
      assert ExpectedBand(fs, n, 13) == AvgField(Accumulate(fs));
      assert ExpectedBand(fs, n, 14) == RangeField(Accumulate(fs));
    }
  }

  /** A year of n != 13 timestamps raises nothing and closes its raster. */
  lemma YearOutputCloses(a: Archive, formula: (real, real) -> real, prefix: string, y: nat)
    requires WellFormed(a) && |OfYear(a.dates, y)| != 13
    ensures YearOutput(a, formula, prefix, y).1 && YearOutput(a, formula, prefix, y).0.closed
  {
    YearOutputMatches(a, formula, prefix, y);
  }

  /**
    The grid behind band k of any year is the archive's grid at time index
    k - 1, whichever year the raster is for.
   */
  lemma BandReadsFileIndex(a: Archive, formula: (real, real) -> real, prefix: string, y: nat, k: nat)
    requires WellFormed(a) && |OfYear(a.dates, y)| != 13 && 1 <= k <= |OfYear(a.dates, y)|
    ensures var s := YearOutput(a, formula, prefix, y).0.stack;
      k in s.bands && s.bands[k] == RiField(formula, a.so[k - 1], a.to[k - 1])
  {
    YearOutputMatches(a, formula, prefix, y);
    var n := |OfYear(a.dates, y)|;
    assert ExpectedBand(YearFields(a, formula, y), n, k) == Fields(a, formula)[k - 1];
  }

  lemma MonthAbbrevNotAvg(m: nat)
    requires 1 <= m <= 12
    ensures MonthAbbrev(m) != "AVG"
  {
  }

  /** The summary label sits on band 13 of a finished raster exactly when its year has twelve timestamps. */
  lemma SummaryIffTwelve(a: Archive, formula: (real, real) -> real, prefix: string, y: nat)
    requires WellFormed(a) && |OfYear(a.dates, y)| != 13
    ensures var s := YearOutput(a, formula, prefix, y).0.stack;
      (13 in s.labels && s.labels[13] == AvgLabel(y)) <==> |OfYear(a.dates, y)| == 12
  {
    var ds := OfYear(a.dates, y);
    var s := YearOutput(a, formula, prefix, y).0.stack;
    YearOutputMatches(a, formula, prefix, y);
    if |ds| > 13 {
      var l := s.labels[13];
      assert l == ExpectedLabel(y, MonthLabels(ds), |ds|, 13) == YearMonthLabel(ds[12]);
      assert l[|l| - 3..] == MonthAbbrev(ds[12].month);
      var avg := AvgLabel(y);
      assert avg[|avg| - 3..] == "AVG";
      MonthAbbrevNotAvg(ds[12].month);
    } else if |ds| == 12 {
      assert s.labels[13] == ExpectedLabel(y, MonthLabels(ds), 12, 13);
    }
  }

  /** A twelve-timestamp year's bands 13 and 14 hold the average and the range of its grids. */
  lemma SummaryBands(a: Archive, formula: (real, real) -> real, prefix: string, y: nat)
    requires WellFormed(a) && |OfYear(a.dates, y)| == 12
    ensures var s := YearOutput(a, formula, prefix, y).0.stack; var acc := Accumulate(YearFields(a, formula, y));
      13 in s.bands && 14 in s.bands && s.bands[13] == AvgField(acc) && s.bands[14] == RangeField(acc)
  {
    YearOutputSpec(a, formula, prefix, y);
  }

  /**
    In the average band of a twelve-timestamp year every cell is present and
    equals the sum of the present monthly values divided by 12: a month with no
    value adds 0 but still counts in the divisor. The range band is never negative.
   */
  lemma TwelveMonthSummary(a: Archive, formula: (real, real) -> real, prefix: string, y: nat, i: nat)
    requires WellFormed(a) && |OfYear(a.dates, y)| == 12 && i < CellCount(a)
    ensures var s := YearOutput(a, formula, prefix, y).0.stack;
      var fs := YearFields(a, formula, y);
      && 13 in s.bands && 14 in s.bands && i < |s.bands[13]| && i < |s.bands[14]|
      && s.bands[13][i] == Some(ColumnSum(fs, i) / 12.0)
      && (s.bands[14][i].Some? ==> s.bands[14][i].value >= 0.0)
  {
    var fs := YearFields(a, formula, y);
    SummaryBands(a, formula, prefix, y);
    var s := YearOutput(a, formula, prefix, y).0.stack;
    var acc := Accumulate(fs);
    AccumulateSum(fs, i);
    assert s.bands[13][i] == DivCell(acc.sum[i], 12.0);
    RangeNonNegative(fs, i);
  }

  /** A one-cell archive holding one January of 2020 and one of 2021, with salinities so0 and so1. */
  function TwoJanuaries(so0: real, so1: real): Archive {
    Archive("d/x-rep-monthly_1.nc", [0.0], [0.0], [Date(2020, 1, 16), Date(2021, 1, 16)],
            [[Some(so0)], [Some(so1)]], [[Some(0.0)], [Some(0.0)]])
  }

  lemma TwoJanuariesShape(so0: real, so1: real)
    ensures var a := TwoJanuaries(so0, so1);
      WellFormed(a) && YearIndices(a.dates, 2021) == [1] && |OfYear(a.dates, 2021)| == 1
  {
    var ds := TwoJanuaries(so0, so1).dates;
    assert ds[..1] == [Date(2020, 1, 16)] && ds[..1][..0] == [];
    assert YearIndices(ds[..1], 2021) == [];
  }

  /**
    With one January in 2020 and one in 2021, the 2021 raster's band 1
    ("2021_Jan") holds the 2020 grid.
   */
  lemma SecondYearRereadsFirstGrid(so0: real, so1: real)
    ensures var a := TwoJanuaries(so0, so1);
      && WellFormed(a)
      && var bands := YearOutput(a, (s: real, t: real) => s, "rep", 2021).0.stack.bands;
      && 1 in bands && bands[1] == [Some(so0)]
  {
    var a := TwoJanuaries(so0, so1);
    var formula := (s: real, t: real) => s;
    TwoJanuariesShape(so0, so1);
    BandReadsFileIndex(a, formula, "rep", 2021, 1);
    assert RiField(formula, a.so[0], a.to[0]) == [Some(so0)];
  }

  /** On the same archive the intended 2021 raster's band 1 holds the 2021 grid. */
  lemma SecondYearIntendedGrid(so0: real, so1: real)
    ensures var a := TwoJanuaries(so0, so1);
      && WellFormed(a)
      && var bands := IntendedYearOutput(a, (s: real, t: real) => s, "rep", 2021).0.stack.bands;
      && 1 in bands && bands[1] == [Some(so1)]
  {
    var a := TwoJanuaries(so0, so1);
    var formula := (s: real, t: real) => s;
    TwoJanuariesShape(so0, so1);
    IntendedBandsOwnTimestamp(a, formula, "rep", 2021, 1);
    assert RiField(formula, a.so[1], a.to[1]) == [Some(so1)];
  }

  /** The rasters of one archive, and whether the script got past it without an exception. */
  datatype Outcome = Outcome(files: seq<RasterFile>, ok: bool)

  /** The per-year results in order; the first raster call that raises stops the script. */
  function UntilFailure(rs: seq<(RasterFile, bool)>): Outcome {
    if rs == [] then Outcome([], true)
    else
      var p := UntilFailure(rs[..|rs| - 1]);
      if !p.ok then p
      else Outcome(p.files + [rs[|rs| - 1].0], rs[|rs| - 1].1)
  }

  function Firsts(rs: seq<(RasterFile, bool)>): (fs: seq<RasterFile>)
    ensures |fs| == |rs| && forall k :: 0 <= k < |rs| ==> fs[k] == rs[k].0
  {
    seq(|rs|, k requires 0 <= k < |rs| => rs[k].0)
  }

  /** One more year, after years that all finished, adds its raster and its verdict. */
  lemma UntilFailureStep(rs: seq<(RasterFile, bool)>, j: nat)
    requires j < |rs| && UntilFailure(rs[..j]).ok
    ensures UntilFailure(rs[..j + 1]) == Outcome(UntilFailure(rs[..j]).files + [rs[j].0], rs[j].1)
  {
    assert rs[..j + 1][..j] == rs[..j];
  }

  lemma {:induction false} UntilFailureStaysFailed(rs: seq<(RasterFile, bool)>, k: nat)
    requires k <= |rs| && !UntilFailure(rs[..k]).ok
    ensures UntilFailure(rs) == UntilFailure(rs[..k])
    decreases |rs| - k
  {
    if k < |rs| {
      assert rs[..k + 1][..k] == rs[..k];
      UntilFailureStaysFailed(rs, k + 1);
    } else {
      assert rs[..k] == rs;
    }
  }

  /** While every result is ok, every raster is kept, in order. */
  lemma {:induction false} UntilFailureAllOk(rs: seq<(RasterFile, bool)>, n: nat)
    requires n <= |rs| && forall k :: 0 <= k < n ==> rs[k].1
    ensures UntilFailure(rs[..n]) == Outcome(Firsts(rs[..n]), true)
  {
    if n > 0 {
      UntilFailureAllOk(rs, n - 1);
      assert rs[..n][..n - 1] == rs[..n - 1];
      assert Firsts(rs[..n]) == Firsts(rs[..n - 1]) + [rs[n - 1].0];
    }
  }

  /** The first result that is not ok ends the outcome: its raster is the last one kept. */
  lemma {:induction false} UntilFailureStops(rs: seq<(RasterFile, bool)>, n: nat)
    requires n < |rs| && !rs[n].1 && forall k :: 0 <= k < n ==> rs[k].1
    ensures !UntilFailure(rs).ok && |UntilFailure(rs).files| == n + 1
    ensures forall k :: 0 <= k <= n ==> UntilFailure(rs).files[k] == rs[k].0
  {
    UntilFailureAllOk(rs, n);
    assert rs[..n + 1][..n] == rs[..n];
    var fs := Firsts(rs[..n]) + [rs[n].0];
    assert UntilFailure(rs[..n + 1]) == Outcome(fs, false);
    UntilFailureStaysFailed(rs, n + 1);
    forall k | 0 <= k <= n
      ensures fs[k] == rs[k].0
    {
      if k < n {
        assert fs[k] == Firsts(rs[..n])[k];
      }
    }
  }

  /** What the years ys of an archive yield, one by one. */
  function YearResults(a: Archive, formula: (real, real) -> real, prefix: string, ys: seq<nat>): (rs: seq<(RasterFile, bool)>)
    requires WellFormed(a)
    ensures |rs| == |ys| && forall k :: 0 <= k < |ys| ==> rs[k] == YearOutput(a, formula, prefix, ys[k])
  {
    seq(|ys|, k requires 0 <= k < |ys| => YearOutput(a, formula, prefix, ys[k]))
  }

  /** The years of one archive in order; the first raster call that raises stops the script. */
  function YearsOutput(a: Archive, formula: (real, real) -> real, prefix: string, ys: seq<nat>): Outcome
    requires WellFormed(a)
  {
    UntilFailure(YearResults(a, formula, prefix, ys))
  }

  /** One archive: a failed ncf.split("-")[-2] raises before any raster. */
  function ArchiveOutput(a: Archive, formula: (real, real) -> real): Outcome
    requires WellFormed(a)
  {
    match SourcePrefix(a.path)
    case None => Outcome([], false)
    case Some(prefix) => YearsOutput(a, formula, prefix, Years(a.dates))
  }

  /**
    When no year of the archive has thirteen timestamps, it yields one closed
    raster per year, in the given order.
   */
  lemma YearsOutputSpec(a: Archive, formula: (real, real) -> real, prefix: string, ys: seq<nat>)
    requires WellFormed(a)
    requires forall j :: 0 <= j < |ys| ==> |OfYear(a.dates, ys[j])| != 13
    ensures var o := YearsOutput(a, formula, prefix, ys);
      o.ok && |o.files| == |ys|
      && forall j :: 0 <= j < |ys| ==>
           o.files[j] == YearOutput(a, formula, prefix, ys[j]).0 && o.files[j].closed
  {
    var rs := YearResults(a, formula, prefix, ys);
    forall j | 0 <= j < |ys|
      ensures rs[j].1 && rs[j].0.closed
    {
      YearOutputCloses(a, formula, prefix, ys[j]);
    }
    UntilFailureAllOk(rs, |rs|);
    assert rs[..|rs|] == rs;
  }

  /**
    A year of thirteen timestamps after years that all finished stops the
    archive at that year, leaving its raster unclosed as the last one.
   */
  lemma ThirteenStopsArchive(a: Archive, formula: (real, real) -> real, prefix: string, ys: seq<nat>, n: nat)
    requires WellFormed(a) && n < |ys| && |OfYear(a.dates, ys[n])| == 13
    requires forall j :: 0 <= j < n ==> |OfYear(a.dates, ys[j])| != 13
    ensures var o := YearsOutput(a, formula, prefix, ys);
      !o.ok && |o.files| == n + 1 && !o.files[n].closed
  {
    var rs := YearResults(a, formula, prefix, ys);
    forall j | 0 <= j < n
      ensures rs[j].1
    {
      YearOutputCloses(a, formula, prefix, ys[j]);
    }
    var y := ys[n];
    assert AllValid(OfYear(a.dates, y));
    ThirteenSliceYearFails(y, OpenState(a), OfYear(a.dates, y), YearFields(a, formula, y));
    UntilFailureStops(rs, n);
  }

  /** Per-archive outcomes in order; the first one that is not ok stops the script. */
  function Chain(os: seq<Outcome>): Outcome {
    if os == [] then Outcome([], true)
    else
      var p := Chain(os[..|os| - 1]);
      if !p.ok then p
      else Outcome(p.files + os[|os| - 1].files, os[|os| - 1].ok)
  }

  /** One more archive, after a run that has not failed, adds its rasters and its verdict. */
  lemma ChainStep(os: seq<Outcome>, j: nat)
    requires j < |os| && Chain(os[..j]).ok
    ensures Chain(os[..j + 1]) == Outcome(Chain(os[..j]).files + os[j].files, os[j].ok)
  {
    assert os[..j + 1][..j] == os[..j];
  }

  lemma {:induction false} ChainStaysFailed(os: seq<Outcome>, k: nat)
    requires k <= |os| && !Chain(os[..k]).ok
    ensures Chain(os) == Chain(os[..k])
    decreases |os| - k
  {
    if k < |os| {
      assert os[..k + 1][..k] == os[..k];
      ChainStaysFailed(os, k + 1);
    } else {
      assert os[..k] == os;
    }
  }

  /** What each archive yields on its own. */
  function ArchiveOutputs(archives: seq<Archive>, formula: (real, real) -> real): (os: seq<Outcome>)
    requires forall j :: 0 <= j < |archives| ==> WellFormed(archives[j])
    ensures |os| == |archives|
  {
    seq(|archives|, k requires 0 <= k < |archives| => ArchiveOutput(archives[k], formula))
  }

  /** The loop over nc_files: the archives in list order, stopping at the first exception. */
  function AllOutput(archives: seq<Archive>, formula: (real, real) -> real): Outcome
    requires forall j :: 0 <= j < |archives| ==> WellFormed(archives[j])
  {
    Chain(ArchiveOutputs(archives, formula))
  }

  /** What the script leaves for the archives nc_files, with its own 532 nm formula. */
  function ScriptOutput(archives: seq<Archive>): Outcome
    requires forall j :: 0 <= j < |archives| ==> WellFormed(archives[j])
  {
    AllOutput(archives, Ri532)
  }

  // ---------------------------------------------------------------------
  // The imperative script
  // ---------------------------------------------------------------------

  /**
    One year's open output raster (dst) together with the loop's counter and
    its running statistics. riAvg keeps the source's name although it holds
    the running sum until it is divided by 12.
   */
  class AnnualRaster {
    const path: string
    const year: nat
    const height: nat
    const width: nat
    const count: nat
    const transform: Affine
    var monthsInYear: nat
    var riAvg: Field
    var riMin: Field
    var riMax: Field
    var bands: map<int, Field>
    var labels: map<int, string>
    var closed: bool

    function State(): YearState
      reads this
    {
      YearState(monthsInYear, Acc(riAvg, riMin, riMax), Stack(bands, labels))
    }

    function File(): RasterFile
      reads this
    {
      RasterFile(path, height, width, count, transform, Stack(bands, labels), closed)
    }

    /** The starter variables and rio.open(..., 'w', count=count): fresh accumulators and an empty open raster. */
    constructor Open(path: string, year: nat, height: nat, width: nat, count: nat, transform: Affine, start: YearState)
      requires Fresh(start)
      ensures this.path == path && this.year == year && this.height == height && this.width == width
      ensures this.count == count && this.transform == transform
      ensures State() == start && !closed
    {
      this.path := path;
      this.year := year;
      this.height := height;
      this.width := width;
      this.count := count;
      this.transform := transform;
      monthsInYear := start.months;
      riAvg, riMin, riMax := start.acc.sum, start.acc.lo, start.acc.hi;
      bands, labels := start.stack.bands, start.stack.labels;
      closed := false;
    }

    /** dst.write_band(b, data): raises unless 1 <= b <= count. */
    method WriteBand(b: int, data: Field) returns (ok: bool)
      modifies this
      ensures ok <==> 1 <= b <= count
      ensures bands == if ok then old(bands)[b := data] else old(bands)
      ensures labels == old(labels) && closed == old(closed)
      ensures monthsInYear == old(monthsInYear) && riAvg == old(riAvg) && riMin == old(riMin) && riMax == old(riMax)
    {
      ok := 1 <= b <= count;
      if ok {
        bands := bands[b := data];
      }
    }

    /** dst.set_band_description(b, text): raises unless 1 <= b <= count. */
    method SetBandDescription(b: int, text: string) returns (ok: bool)
      modifies this
      ensures ok <==> 1 <= b <= count
      ensures labels == if ok then old(labels)[b := text] else old(labels)
      ensures bands == old(bands) && closed == old(closed)
      ensures monthsInYear == old(monthsInYear) && riAvg == old(riAvg) && riMin == old(riMin) && riMax == old(riMax)
    {
      ok := 1 <= b <= count;
      if ok {
        labels := labels[b := text];
      }
    }

    /** One pass of the in-year loop: count the timestamp, update the statistics, write its band and, at 12, the summaries. */
    method AddMonth(date: Date, ri: Field) returns (ok: bool)
      requires ValidDate(date)
      requires monthsInYear >= 1 ==> AccWidth(Acc(riAvg, riMin, riMax), |ri|)
      modifies this
      ensures Step(State(), ok) == MonthStep(count, year, old(State()), date, ri)
      ensures closed == old(closed)
    {
      monthsInYear := monthsInYear + 1;
      if monthsInYear == 1 {
        riAvg, riMin, riMax := ri, ri, ri;
      } else {
        riAvg, riMin, riMax := NanSum(riAvg, ri), FMin(riMin, ri), FMax(riMax, ri);
      }
      var k := monthsInYear;
      ok := WriteBand(k, ri);
      if ok {
        ok := SetBandDescription(k, YearMonthLabel(date));
      }
      if ok && k == 12 {
        var avg := Div(riAvg, 12.0);
        var range := Diff(riMax, riMin);
        ok := WriteBand(13, avg);
        if ok {
          ok := SetBandDescription(13, AvgLabel(year));
        }
        if ok {
          ok := WriteBand(14, range);
        }
        if ok {
          ok := SetBandDescription(14, RangeLabel(year));
        }
      }
    }

    /** dst.close(). */
    method Close()
      modifies this
      ensures State() == old(State()) && closed
    {
      closed := true;
    }
  }

  /** One pass of the in-year loop, on timestamp i after i passes that did not raise. */
  method RunMonth(dst: AnnualRaster, ghost start: YearState, ds: seq<Date>, fs: seq<Field>, i: nat) returns (ok: bool)
    requires |ds| == |fs| && AllValid(ds) && Uniform(fs) && start.months == 0 && i < |ds|
    requires YearRun(dst.count, dst.year, start, ds[..i], fs[..i]) == Step(dst.State(), true)
    modifies dst
    ensures Step(dst.State(), ok) == YearRun(dst.count, dst.year, start, ds[..i + 1], fs[..i + 1])
    ensures dst.closed == old(dst.closed)
  {
    YearRunStep(dst.count, dst.year, start, ds, fs, i);
    ok := dst.AddMonth(ds[i], fs[i]);
  }

  /** The in-year loop over the timestamps ds and their grids fs, stopping at the first exception. */
  method RunMonths(dst: AnnualRaster, ds: seq<Date>, fs: seq<Field>) returns (ok: bool)
    requires |ds| == |fs| && AllValid(ds) && Uniform(fs) && dst.monthsInYear == 0
    modifies dst
    ensures Step(dst.State(), ok) == YearRun(dst.count, dst.year, old(dst.State()), ds, fs)
    ensures dst.closed == old(dst.closed)
  {
    ghost var start := dst.State();
    var i := 0;
    ok := true;
    assert ds[..0] == [] && fs[..0] == [];
    while i < |ds| && ok
      invariant 0 <= i <= |ds|
      invariant Step(dst.State(), ok) == YearRun(dst.count, dst.year, start, ds[..i], fs[..i])
      invariant dst.closed == old(dst.closed)
    {
      ok := RunMonth(dst, start, ds, fs, i);
      i := i + 1;
    }
    if ok {
      assert ds[..i] == ds && fs[..i] == fs;
    } else {
      YearRunStaysFailed(dst.count, dst.year, start, ds, fs, i);
    }
  }

  /** The body of the per-year loop: open the raster, run the in-year loop, close it unless a call raised. */
  method ConvertYear(a: Archive, formula: (real, real) -> real, prefix: string, y: nat)
    returns (file: RasterFile, ok: bool)
    requires WellFormed(a)
    ensures (file, ok) == YearOutput(a, formula, prefix, y)
  {
    var ds := OfYear(a.dates, y);
    var fs := YearFields(a, formula, y);
    var count := DeclaredCount(|ds|);
    var start := OpenState(a);
    var dst := new AnnualRaster.Open(OutputPath(a.path, y, prefix), y, |a.lat|, |a.lon|, count,
                                     YearTransform(a.lat[0]), start);
    assert AllValid(ds);
    ok := RunMonths(dst, ds, fs);
    if ok {
      dst.Close();
    }
    file := dst.File();
  }

  /** One archive: its prefix, then its years in order of first appearance. */
  method ConvertArchive(a: Archive, formula: (real, real) -> real) returns (files: seq<RasterFile>, ok: bool)
    requires WellFormed(a)
    ensures Outcome(files, ok) == ArchiveOutput(a, formula)
  {
    var parts := Split(a.path, '-');
    if |parts| < 2 {
      return [], false;
    }
    var prefix := parts[|parts| - 2];
    var ys := Years(a.dates);
    ghost var rs := YearResults(a, formula, prefix, ys);
    files, ok := [], true;
    var j := 0;
    assert rs[..0] == [];
    while j < |ys| && ok
      invariant 0 <= j <= |ys|
      invariant Outcome(files, ok) == UntilFailure(rs[..j])
    {
      var file, yearOk := ConvertYear(a, formula, prefix, ys[j]);
      UntilFailureStep(rs, j);
      files, ok := files + [file], yearOk;
      j := j + 1;
    }
    if ok {
      assert rs[..j] == rs;
    } else {
      UntilFailureStaysFailed(rs, j);
    }
  }

  /**
    The loop over nc_files: every archive of the list in order; an exception
    ends the script. Called with Ri532 it yields ScriptOutput(archives).
   */
  method ConvertAll(archives: seq<Archive>, formula: (real, real) -> real) returns (files: seq<RasterFile>, ok: bool)
    requires forall j :: 0 <= j < |archives| ==> WellFormed(archives[j])
    ensures Outcome(files, ok) == AllOutput(archives, formula)
  {
    ghost var os := ArchiveOutputs(archives, formula);
    files, ok := [], true;
    var j := 0;
    while j < |archives| && ok
      invariant 0 <= j <= |archives|
      invariant Outcome(files, ok) == Chain(os[..j])
    {
      var more, archiveOk := ConvertArchive(archives[j], formula);
      ChainStep(os, j);
      files, ok := files + more, archiveOk;
      j := j + 1;
    }
    if ok {
      assert os[..j] == os;
    } else {
      ChainStaysFailed(os, j);
    }
  }
}
