/**
  What the two dynamic-AOI scripts share: the in-place clamp of the area of
  interest [min longitude, max longitude, min latitude, max latitude] to the
  ARMOR3D grid, the ordering check of the function version, the project-name
  rewrite re.sub(r'(\. )|( )|(-)', '_', name), the choice of the Copernicus
  dataset id, and the names of the per-slice PNG and GeoTIFF outputs.

  Network, filesystem and plotting calls are recorded as effects, in order;
  the queried cube is a parameter.
 */
module DynamicAoi {
  import opened Text
  import opened Calendar
  import opened Grid

  // ---------------------------------------------------------------------
  // Area of interest
  // ---------------------------------------------------------------------

  /** The interior values an out-of-range bound is replaced by. */
  const WEST_LIMIT: real := -179.875
  const EAST_LIMIT: real := 179.875
  const SOUTH_LIMIT: real := -82.125
  const NORTH_LIMIT: real := 89.875

  /** The rule for entry k of the list; entries past index 3 are never touched. */
  function ClampEntry(k: nat, v: real): real {
    if k == 0 && v <= -180.0 then WEST_LIMIT
    else if k == 1 && v >= 180.0 then EAST_LIMIT
    else if k == 2 && v <= -90.0 then SOUTH_LIMIT
    else if k == 3 && v >= 90.0 then NORTH_LIMIT
    else v
  }

  /**
    The list after the four guarded assignments: every bound ends strictly
    inside its world limit, a bound already inside is unchanged, one outside
    takes the fixed interior value.
   */
  function Clamped(aoi: seq<real>): (r: seq<real>)
    ensures |r| == |aoi|
    ensures forall k :: 4 <= k < |aoi| ==> r[k] == aoi[k]
    ensures |aoi| > 0 ==> -180.0 < r[0] && r[0] == (if aoi[0] <= -180.0 then WEST_LIMIT else aoi[0])
    ensures |aoi| > 1 ==> r[1] < 180.0 && r[1] == (if aoi[1] >= 180.0 then EAST_LIMIT else aoi[1])
    ensures |aoi| > 2 ==> -90.0 < r[2] && r[2] == (if aoi[2] <= -90.0 then SOUTH_LIMIT else aoi[2])
    ensures |aoi| > 3 ==> r[3] < 90.0 && r[3] == (if aoi[3] >= 90.0 then NORTH_LIMIT else aoi[3])
  {
    seq(|aoi|, k requires 0 <= k < |aoi| => ClampEntry(k, aoi[k]))
  }

  /** Clamping an already clamped list changes nothing (the caller's list may be passed again). */
  lemma ClampIdempotent(aoi: seq<real>)
    ensures Clamped(Clamped(aoi)) == Clamped(aoi)
  {
  }

  /**
    The clamp on the caller's list. A list shorter than four raises IndexError
    at the first missing index, after the entries before it were clamped.
   */
  method Clamp(aoi: array<real>) returns (complete: bool)
    modifies aoi
    ensures complete <==> aoi.Length >= 4
    ensures aoi[..] == Clamped(old(aoi[..]))
  {
    if aoi.Length < 1 {
      return false;
    }
    if aoi[0] <= -180.0 {
      aoi[0] := WEST_LIMIT;
    }
    if aoi.Length < 2 {
      return false;
    }
    if aoi[1] >= 180.0 {
      aoi[1] := EAST_LIMIT;
    }
    if aoi.Length < 3 {
      return false;
    }
    if aoi[2] <= -90.0 {
      aoi[2] := SOUTH_LIMIT;
    }
    if aoi.Length < 4 {
      return false;
    }
    if aoi[3] >= 90.0 {
      aoi[3] := NORTH_LIMIT;
    }
    return true;
  }

  /** The exceptions the scripts can raise before or while writing outputs. */
  datatype Failure =
    | IndexError        // the AOI list has fewer than four entries
    | LongitudeOrder    // "Longitude values made invalid or reversed"
    | LatitudeOrder     // "Latitude values made invalid or reversed"
    | NoLength          // len() of an int wavelength
    | ZeroDivision      // quanfry_ri's -4382/wl**2 on a Python number with wl == 0
    | NameConflict(name: string)  // renaming 'ri' onto an existing ref_idx variable

  /** The ordering check of the function version: longitude first, then latitude. */
  function OrderCheck(a: seq<real>): (f: Option<Failure>)
    requires |a| >= 4
    ensures f == None <==> a[0] < a[1] && a[2] < a[3]
    ensures f == Some(LongitudeOrder) <==> a[0] >= a[1]
    ensures f == Some(LatitudeOrder) <==> a[0] < a[1] && a[2] >= a[3]
  {
    if a[0] >= a[1] then Some(LongitudeOrder)
    else if a[2] >= a[3] then Some(LatitudeOrder)
    else None
  }

  /** An AOI that passes clamp and check is a non-empty box strictly inside the world. */
  lemma AcceptedAoiInsideWorld(aoi: seq<real>)
    requires |aoi| >= 4 && OrderCheck(Clamped(aoi)) == None
    ensures var r := Clamped(aoi);
      -180.0 < r[0] < r[1] < 180.0 && -90.0 < r[2] < r[3] < 90.0
  {
  }

  /**
    A box south of the dataset's southern limit is rejected: its lower bound
    -90 is raised to -82.125, above its upper bound.
   */
  lemma SouthernAoiRejected()
    ensures OrderCheck(Clamped([-10.0, 10.0, -90.0, -85.0])) == Some(LatitudeOrder)
  {
  }

  // ---------------------------------------------------------------------
  // Project name and dataset
  // ---------------------------------------------------------------------

  /**
    re.sub(r'(\. )|( )|(-)', '_', s): scanning left to right, a ". " pair, a
    space or a dash becomes one '_'; every other character, a lone '.'
    included, is copied.
   */
  function Sanitize(s: string): string
    decreases |s|
  {
    if s == [] then [] else Rewritten(s) + Sanitize(s[Consumed(s)..])
  }

  /** Whether s starts with the two-character match ". ". */
  predicate StartsDotSpace(s: string) {
    |s| >= 2 && s[0] == '.' && s[1] == ' '
  }

  /** How many characters the match (or the copied character) at the head of s takes. */
  function Consumed(s: string): (n: nat)
    requires s != []
    ensures 1 <= n <= |s|
    ensures n == 2 <==> StartsDotSpace(s)
  {
    if StartsDotSpace(s) then 2 else 1
  }

  /** What the head of s becomes: '_' for a match, the character itself otherwise. */
  function Rewritten(s: string): (r: string)
    requires s != []
    ensures |r| == 1
    ensures r[0] == (if StartsDotSpace(s) || s[0] == ' ' || s[0] == '-' then '_' else s[0])
  {
    if StartsDotSpace(s) || s[0] == ' ' || s[0] == '-' then "_" else [s[0]]
  }

  /** No character of s is a space or a dash. */
  predicate NoSpaceOrDash(s: string) {
    forall k :: 0 <= k < |s| ==> s[k] != ' ' && s[k] != '-'
  }

  /** The rewritten name holds no space and no dash, and is never longer. */
  lemma {:induction false} SanitizeClean(s: string)
    ensures |Sanitize(s)| <= |s|
    ensures NoSpaceOrDash(Sanitize(s))
    decreases |s|
  {
    if s != [] {
      SanitizeClean(s[Consumed(s)..]);
    }
  }

  /** A name with no space and no dash is kept as it is. */
  lemma {:induction false} SanitizeIdentity(s: string)
    requires NoSpaceOrDash(s)
    ensures Sanitize(s) == s
    decreases |s|
  {
    if s != [] {
      assert s[0] != ' ' && s[0] != '-';
      assert !StartsDotSpace(s);
      var t := s[1..];
      assert NoSpaceOrDash(t) by {
        forall k | 0 <= k < |t| ensures t[k] != ' ' && t[k] != '-' {
          assert t[k] == s[k + 1];
        }
      }
      SanitizeIdentity(t);
      assert s == [s[0]] + t;
    }
  }

  lemma SanitizeIdempotent(s: string)
    ensures Sanitize(Sanitize(s)) == Sanitize(s)
  {
    SanitizeClean(s);
    SanitizeIdentity(Sanitize(s));
  }

  /** A text that does not end in '.' keeps its head match when more text follows. */
  lemma HeadKept(a: string, b: string)
    requires a != [] && a[|a| - 1] != '.'
    ensures Consumed(a + b) == Consumed(a) && Rewritten(a + b) == Rewritten(a)
    ensures (a + b)[Consumed(a)..] == a[Consumed(a)..] + b
  {
    assert (a + b)[0] == a[0];
    assert |a| >= 2 ==> (a + b)[1] == a[1];
  }

  /**
    The rewrite works piece by piece: a text that does not end in '.' can be
    rewritten on its own and the rest after it, since no ". " pair straddles
    the cut.
   */
  lemma {:induction false} SanitizeAppend(a: string, b: string)
    requires a == [] || a[|a| - 1] != '.'
    ensures Sanitize(a + b) == Sanitize(a) + Sanitize(b)
    decreases |a|
  {
    if a == [] {
      assert a + b == b;
    } else {
      var n := Consumed(a);
      HeadKept(a, b);
      assert a[n..] == [] || a[n..][|a[n..]| - 1] == a[|a| - 1];
      SanitizeAppend(a[n..], b);
      calc {
        Sanitize(a + b);
        Rewritten(a) + Sanitize(a[n..] + b);
        Rewritten(a) + (Sanitize(a[n..]) + Sanitize(b));
        (Rewritten(a) + Sanitize(a[n..])) + Sanitize(b);
      }
    }
  }

  /** The rewrite of a single character, and of the ". " pair. */
  lemma SanitizePieces(c: char)
    ensures Sanitize([c]) == (if c == ' ' || c == '-' then "_" else [c])
    ensures Sanitize(". ") == "_"
  {
    assert [c][1..] == [];
    assert ". "[2..] == [];
  }

  /** A ". " pair becomes a single '_', while a '.' not followed by a space survives. */
  lemma SanitizeDot(t: string)
    ensures Sanitize(". " + t) == "_" + Sanitize(t)
    ensures t == [] || t[0] != ' ' ==> Sanitize("." + t) == "." + Sanitize(t)
  {
    assert (". " + t)[2..] == t;
    assert ("." + t)[1..] == t;
  }

  /** A space or a dash becomes '_' whatever follows it, a '.' included. */
  lemma SanitizeSpaceDash(c: char, t: string)
    requires c == ' ' || c == '-'
    ensures Sanitize([c] + t) == "_" + Sanitize(t)
  {
    assert ([c] + t)[1..] == t;
  }

  /** The dataset of the function version, chosen from (weekly, nrt). */
  function DatasetId(weekly: bool, nrt: bool): (id: string)
    ensures id == "dataset-armor-3d-" + (if nrt then "nrt" else "rep") + "-" + (if weekly then "weekly" else "monthly")
  {
    if weekly then
      if !nrt then "dataset-armor-3d-rep-weekly" else "dataset-armor-3d-nrt-weekly"
    else
      if !nrt then "dataset-armor-3d-rep-monthly" else "dataset-armor-3d-nrt-monthly"
  }

  /** The four choices name four different datasets. */
  lemma DatasetIdInjective(w1: bool, n1: bool, w2: bool, n2: bool)
    requires DatasetId(w1, n1) == DatasetId(w2, n2)
    ensures w1 == w2 && n1 == n2
  {
    var a, b := DatasetId(w1, n1), DatasetId(w2, n2);
    assert a[17] == b[17];
    assert |a| == |b|;
  }

  // ---------------------------------------------------------------------
  // Output names and effects
  // ---------------------------------------------------------------------

  /** "%sT00:00:00" % date: the query bound for a "yyyy-mm-dd" text. */
  function QueryTime(date: string): string {
    date + "T00:00:00"
  }

  /** "%s/%s" % (out_path, project_name_fix). */
  function ProjectFolder(outPath: string, projectName: string): string {
    outPath + "/" + Sanitize(projectName)
  }

  /** The "%Y%m%d_%Y%m%d" span of a weekly slice: its date and the date six days later. */
  function DateString(d: Date): (s: string)
    requires ValidDate(d)
    ensures '_' in s
  {
    var s := Ymd(d) + "_" + Ymd(AddDays(d, 6));
    assert s[|Ymd(d)|] == '_';
    s
  }

  /** The part of an output name after the wavelength label and its '_'. */
  function NameTail(fix: string, d: Date, ext: string): string
    requires ValidDate(d)
  {
    fix + "_" + DateString(d) + ext
  }

  /** '%s/armor3d_nw%s_%s_%s<ext>' % (folder, wavelength label, fixed name, date span). */
  function OutputName(folder: string, wlLabel: string, fix: string, d: Date, ext: string): string
    requires ValidDate(d)
  {
    (folder + "/armor3d_nw") + (wlLabel + "_" + NameTail(fix, d, ext))
  }

  /** Cutting two texts at their first occurrence of c gives the same two pieces. */
  lemma SplitAtSeparator(a1: string, b1: string, a2: string, b2: string, c: char)
    requires c !in a1 && c !in a2 && a1 + [c] + b1 == a2 + [c] + b2
    ensures a1 == a2 && b1 == b2
  {
    var s := a1 + [c] + b1;
    assert s[..|a1|] == a1 && s[|a1|] == c;
    assert s[..|a2|] == a2 && s[|a2|] == c;
    assert b1 == s[|a1| + 1..];
    assert b2 == s[|a2| + 1..];
  }

  lemma DropCommonPrefix(p: string, x: string, y: string)
    requires p + x == p + y
    ensures x == y
  {
    assert x == (p + x)[|p|..];
    assert y == (p + y)[|p|..];
  }

  lemma DropCommonSuffix(x: string, y: string, p: string)
    requires x + p == y + p
    ensures x == y
  {
    assert x == (x + p)[..|x|];
    assert y == (y + p)[..|y|];
  }

  /** A date span names its week: different start dates give different spans. */
  lemma DateStringInjective(d1: Date, d2: Date)
    requires ValidDate(d1) && ValidDate(d2) && DateString(d1) == DateString(d2)
    ensures d1 == d2
  {
    var y1, y2 := Ymd(d1), Ymd(d2);
    assert '_' !in y1 && '_' !in y2;
    SplitAtSeparator(y1, Ymd(AddDays(d1, 6)), y2, Ymd(AddDays(d2, 6)), '_');
    YmdInjective(d1, d2);
  }

  lemma NameTailInjective(fix: string, d1: Date, d2: Date, ext: string)
    requires ValidDate(d1) && ValidDate(d2) && NameTail(fix, d1, ext) == NameTail(fix, d2, ext)
    ensures d1 == d2
  {
    var s1, s2 := DateString(d1), DateString(d2);
    assert NameTail(fix, d1, ext) == (fix + "_") + s1 + ext;
    assert NameTail(fix, d2, ext) == (fix + "_") + s2 + ext;
    DropCommonSuffix((fix + "_") + s1, (fix + "_") + s2, ext);
    DropCommonPrefix(fix + "_", s1, s2);
    DateStringInjective(d1, d2);
  }

  /**
    In one folder and for one project, an output name determines its
    wavelength label and its slice date: two slices never share a file.
   */
  lemma OutputNameInjective(folder: string, w1: string, w2: string, fix: string, d1: Date, d2: Date, ext: string)
    requires '_' !in w1 && '_' !in w2 && ValidDate(d1) && ValidDate(d2)
    requires OutputName(folder, w1, fix, d1, ext) == OutputName(folder, w2, fix, d2, ext)
    ensures w1 == w2 && d1 == d2
  {
    var t1, t2 := NameTail(fix, d1, ext), NameTail(fix, d2, ext);
    DropCommonPrefix(folder + "/armor3d_nw", w1 + "_" + t1, w2 + "_" + t2);
    SplitAtSeparator(w1, t1, w2, t2, '_');
    NameTailInjective(fix, d1, d2, ext);
  }

  /** A file of the slice loop, by the parts its name is made of. */
  datatype OutputFile = OutputFile(folder: string, wlLabel: string, fix: string, start: Date, ext: string)

  /** The path the file is written to. */
  function Path(f: OutputFile): string
    requires ValidDate(f.start)
  {
    OutputName(f.folder, f.wlLabel, f.fix, f.start, f.ext)
  }

  /**
    Files of one folder, project and extension whose wavelength labels hold
    no '_' have the same path only when they are the same file.
   */
  lemma PathInjective(f1: OutputFile, f2: OutputFile)
    requires ValidDate(f1.start) && ValidDate(f2.start)
    requires f1.folder == f2.folder && f1.fix == f2.fix && f1.ext == f2.ext
    requires '_' !in f1.wlLabel && '_' !in f2.wlLabel
    ensures Path(f1) == Path(f2) <==> f1 == f2
  {
    if Path(f1) == Path(f2) {
      OutputNameInjective(f1.folder, f1.wlLabel, f2.wlLabel, f1.fix, f1.start, f2.start, f1.ext);
    }
  }

  /** The calls the scripts make on the outside world, in order. */
  datatype Effect =
    | MakeDir(path: string)
    | Query(dataset: string, minLon: real, maxLon: real, minLat: real, maxLat: real, start: string, end: string)
    | SavePng(file: OutputFile)
    | WriteTiff(file: OutputFile, data: Field)

  /** The queried cube: slice timestamps and the surface salinity and temperature grids. */
  datatype Cube = Cube(times: seq<Date>, so: seq<Field>, to: seq<Field>)

  predicate CubeOk(c: Cube) {
    && |c.times| == |c.so| == |c.to|
    && AllValid(c.times)
    && forall j :: 0 <= j < |c.so| ==> |c.so[j]| == |c.to[j]|
  }

  /** quanfry_ri(wl, S, T) with the wavelength fixed. */
  function AtWavelength(formula: (real, real, real) -> real, wl: real): (real, real) -> real {
    (s: real, t: real) => formula(wl, s, t)
  }

  /** Slice j of the refractive-index variable for wavelength wl. */
  function SliceData(formula: (real, real, real) -> real, wl: real, c: Cube, j: nat): (f: Field)
    requires CubeOk(c) && j < |c.times|
    ensures |f| == |c.so[j]|
  {
    RiField(AtWavelength(formula, wl), c.so[j], c.to[j])
  }

  /** The file of slice j with extension ext. */
  function SliceFile(folder: string, wlLabel: string, fix: string, c: Cube, j: nat, ext: string): (f: OutputFile)
    requires CubeOk(c) && j < |c.times|
    ensures ValidDate(f.start)
  {
    OutputFile(folder, wlLabel, fix, c.times[j], ext)
  }

  /** What pass j of the slice loop emits: the PNG if plotting, then the GeoTIFF if exporting. */
  function SliceEffects(folder: string, wlLabel: string, fix: string, formula: (real, real, real) -> real, wl: real,
                        c: Cube, j: nat, plot: bool, exportTiff: bool): seq<Effect>
    requires CubeOk(c) && j < |c.times|
  {
    (if plot then [SavePng(SliceFile(folder, wlLabel, fix, c, j, ".png"))] else [])
    + (if exportTiff then [WriteTiff(SliceFile(folder, wlLabel, fix, c, j, ".tif"), SliceData(formula, wl, c, j))] else [])
  }

  /** The slice loop over the first n slices of the cube. */
  function SliceRun(folder: string, wlLabel: string, fix: string, formula: (real, real, real) -> real, wl: real,
                    c: Cube, n: nat, plot: bool, exportTiff: bool): seq<Effect>
    requires CubeOk(c) && n <= |c.times|
  {
    if n == 0 then []
    else SliceRun(folder, wlLabel, fix, formula, wl, c, n - 1, plot, exportTiff)
         + SliceEffects(folder, wlLabel, fix, formula, wl, c, n - 1, plot, exportTiff)
  }

  /** Every GeoTIFF of the slice loop belongs to one slice: named after its date, holding its grid. */
  lemma {:induction false} SliceRunTiffSound(folder: string, wlLabel: string, fix: string, formula: (real, real, real) -> real, wl: real,
                                             c: Cube, n: nat, plot: bool, exportTiff: bool, e: Effect)
    requires CubeOk(c) && n <= |c.times|
    requires e in SliceRun(folder, wlLabel, fix, formula, wl, c, n, plot, exportTiff) && e.WriteTiff?
    ensures exportTiff
    ensures exists j :: 0 <= j < n && e == WriteTiff(SliceFile(folder, wlLabel, fix, c, j, ".tif"), SliceData(formula, wl, c, j))
  {
    var prev := SliceRun(folder, wlLabel, fix, formula, wl, c, n - 1, plot, exportTiff);
    var last := SliceEffects(folder, wlLabel, fix, formula, wl, c, n - 1, plot, exportTiff);
    if e in prev {
      SliceRunTiffSound(folder, wlLabel, fix, formula, wl, c, n - 1, plot, exportTiff, e);
    } else {
      assert e in last;
    }
  }

  /** When exporting, every slice of the loop has its GeoTIFF. */
  lemma {:induction false} SliceRunTiffComplete(folder: string, wlLabel: string, fix: string, formula: (real, real, real) -> real, wl: real,
                                                c: Cube, n: nat, plot: bool, exportTiff: bool, j: nat)
    requires CubeOk(c) && n <= |c.times| && exportTiff && j < n
    ensures WriteTiff(SliceFile(folder, wlLabel, fix, c, j, ".tif"), SliceData(formula, wl, c, j))
      in SliceRun(folder, wlLabel, fix, formula, wl, c, n, plot, exportTiff)
  {
    var last := SliceEffects(folder, wlLabel, fix, formula, wl, c, n - 1, plot, exportTiff);
    if j < n - 1 {
      SliceRunTiffComplete(folder, wlLabel, fix, formula, wl, c, n - 1, plot, exportTiff, j);
    } else {
      assert last[|last| - 1] == WriteTiff(SliceFile(folder, wlLabel, fix, c, j, ".tif"), SliceData(formula, wl, c, j));
    }
  }

  /** Every PNG of the slice loop is named after one of its slices, and only when plotting. */
  lemma {:induction false} SliceRunPngSound(folder: string, wlLabel: string, fix: string, formula: (real, real, real) -> real, wl: real,
                                            c: Cube, n: nat, plot: bool, exportTiff: bool, e: Effect)
    requires CubeOk(c) && n <= |c.times|
    requires e in SliceRun(folder, wlLabel, fix, formula, wl, c, n, plot, exportTiff) && e.SavePng?
    ensures plot
    ensures exists j :: 0 <= j < n && e == SavePng(SliceFile(folder, wlLabel, fix, c, j, ".png"))
  {
    var prev := SliceRun(folder, wlLabel, fix, formula, wl, c, n - 1, plot, exportTiff);
    var last := SliceEffects(folder, wlLabel, fix, formula, wl, c, n - 1, plot, exportTiff);
    if e in prev {
      SliceRunPngSound(folder, wlLabel, fix, formula, wl, c, n - 1, plot, exportTiff, e);
    } else {
      assert e in last;
    }
  }

  /** When plotting, every slice of the loop has its PNG. */
  lemma {:induction false} SliceRunPngComplete(folder: string, wlLabel: string, fix: string, formula: (real, real, real) -> real, wl: real,
                                               c: Cube, n: nat, plot: bool, exportTiff: bool, j: nat)
    requires CubeOk(c) && n <= |c.times| && plot && j < n
    ensures SavePng(SliceFile(folder, wlLabel, fix, c, j, ".png"))
      in SliceRun(folder, wlLabel, fix, formula, wl, c, n, plot, exportTiff)
  {
    var last := SliceEffects(folder, wlLabel, fix, formula, wl, c, n - 1, plot, exportTiff);
    if j < n - 1 {
      SliceRunPngComplete(folder, wlLabel, fix, formula, wl, c, n - 1, plot, exportTiff, j);
    } else {
      assert last[0] == SavePng(SliceFile(folder, wlLabel, fix, c, j, ".png"));
    }
  }

  /** The slice loop neither creates folders nor queries. */
  lemma {:induction false} SliceRunOnlyOutputs(folder: string, wlLabel: string, fix: string, formula: (real, real, real) -> real, wl: real,
                                               c: Cube, n: nat, plot: bool, exportTiff: bool)
    requires CubeOk(c) && n <= |c.times|
    ensures forall e :: e in SliceRun(folder, wlLabel, fix, formula, wl, c, n, plot, exportTiff) ==> e.SavePng? || e.WriteTiff?
  {
    if n > 0 {
      SliceRunOnlyOutputs(folder, wlLabel, fix, formula, wl, c, n - 1, plot, exportTiff);
    }
  }

  /**
    The slice loop of the scripts: for each slice in order, the PNG and/or
    GeoTIFF named after the slice's week. effects is extended, never rewritten.
   */
  method WriteSlices(folder: string, wlLabel: string, fix: string, formula: (real, real, real) -> real, wl: real,
                     c: Cube, plot: bool, exportTiff: bool, before: seq<Effect>) returns (effects: seq<Effect>)
    requires CubeOk(c)
    ensures effects == before + SliceRun(folder, wlLabel, fix, formula, wl, c, |c.times|, plot, exportTiff)
  {
    effects := before;
    var j := 0;
    while j < |c.times|
      invariant 0 <= j <= |c.times|
      invariant effects == before + SliceRun(folder, wlLabel, fix, formula, wl, c, j, plot, exportTiff)
    {
      var data := RiField(AtWavelength(formula, wl), c.so[j], c.to[j]);
      var out: seq<Effect> := [];
      if plot {
        out := out + [SavePng(OutputFile(folder, wlLabel, fix, c.times[j], ".png"))];
      }
      if exportTiff {
        out := out + [WriteTiff(OutputFile(folder, wlLabel, fix, c.times[j], ".tif"), data)];
      }
      assert out == SliceEffects(folder, wlLabel, fix, formula, wl, c, j, plot, exportTiff);
      effects := effects + out;
      j := j + 1;
    }
  }
}
