/**
  The first, top-level version of the dynamic-AOI script. Unlike the
  function version it makes the project folder before it looks at the AOI,
  picks a dataset from (weekly, rep) but then always queries the near-real-
  time weekly product, never checks the order of the clamped bounds, and
  names every output "nw532" whatever the wavelength.
  The settings block becomes a Settings value, the module-level aoi list an
  array; the queried cube and whether the folder exists are parameters.
 */
module DynamicAoiV1 {
  import opened Text
  import opened Calendar
  import opened Grid
  import opened DynamicAoi

  /** The dataset id the query actually uses. */
  const QUERIED_DATASET: string := "dataset-armor-3d-nrt-weekly"

  /** The label every output name carries in place of the wavelength. */
  const FIXED_LABEL: string := "532"

  /** The setup block at the top of the script. */
  datatype Settings = Settings(weekly: bool, rep: bool, plot: bool, exportTiff: bool, wl: real,
                               projectName: string, outPath: string, startDate: string, endDate: string)

  /** The dataset id the script computes, keyed on (weekly, rep). */
  function DatasetIdV1(weekly: bool, rep: bool): string {
    if weekly then
      if rep then "dataset-armor-3d-rep-weekly" else "dataset-armor-3d-nrt-weekly"
    else
      if rep then "dataset-armor-3d-rep-monthly" else "dataset-armor-3d-nrt-monthly"
  }

  /** rep is the negation of the function version's nrt: the same four ids. */
  lemma DatasetIdV1IsRepKeyed(weekly: bool, rep: bool)
    ensures DatasetIdV1(weekly, rep) == DatasetId(weekly, !rep)
    ensures DatasetIdV1(weekly, rep) == QUERIED_DATASET <==> weekly && !rep
  {
    if DatasetIdV1(weekly, rep) == QUERIED_DATASET {
      DatasetIdInjective(weekly, !rep, true, true);
    }
  }

  /** The script's end state: its effects, the computed dataset id, its variable, and an exception if one was raised. */
  datatype Run = Run(effects: seq<Effect>, dataset: string, variable: Option<string>, failure: Option<Failure>)

  /** What the script does with the settings s on the list aoi. */
  function ScriptSpec(s: Settings, aoi: seq<real>, folderExists: bool, c: Cube, formula: (real, real, real) -> real): Run
    requires CubeOk(c)
  {
    var fix := Sanitize(s.projectName);
    var folder := ProjectFolder(s.outPath, s.projectName);
    var made := if folderExists then [] else [MakeDir(folder)];
    var dataset := DatasetIdV1(s.weekly, s.rep);
    if |aoi| < 4 then Run(made, dataset, None, Some(IndexError))
    else
      var box := Clamped(aoi);
      var query := Query(QUERIED_DATASET, box[0], box[1], box[2], box[3], QueryTime(s.startDate), QueryTime(s.endDate));
      if s.wl == 0.0 then Run(made + [query], dataset, None, Some(ZeroDivision))
      else Run(made + [query] + SliceRun(folder, FIXED_LABEL, fix, formula, s.wl, c, |c.times|, s.plot, s.exportTiff),
          dataset, Some("ref_idx_" + IntToString(Trunc(s.wl))), None)
  }

  /** The folder is made first: even a too-short AOI leaves it behind before the IndexError. */
  lemma FolderBeforeClamp(s: Settings, aoi: seq<real>, c: Cube, formula: (real, real, real) -> real)
    requires CubeOk(c) && |aoi| < 4
    ensures var r := ScriptSpec(s, aoi, false, c, formula);
      r.effects == [MakeDir(s.outPath + "/" + Sanitize(s.projectName))] && r.failure == Some(IndexError)
  {
  }

  /**
    Every AOI of four or more entries is queried, clamped but unchecked, and
    always from the near-real-time weekly dataset, whatever was computed; the
    only exception after the query is the assign's division by a zero wl.
   */
  lemma QueryUnchecked(s: Settings, aoi: seq<real>, folderExists: bool, c: Cube, formula: (real, real, real) -> real)
    requires CubeOk(c) && |aoi| >= 4
    ensures var r := ScriptSpec(s, aoi, folderExists, c, formula); var box := Clamped(aoi);
      var k := if folderExists then 0 else 1;
      && r.failure == (if s.wl == 0.0 then Some(ZeroDivision) else None)
      && r.dataset == DatasetIdV1(s.weekly, s.rep)
      && |r.effects| > k
      && r.effects[k] == Query("dataset-armor-3d-nrt-weekly", box[0], box[1], box[2], box[3],
                               s.startDate + "T00:00:00", s.endDate + "T00:00:00")
  {
  }

  /** A reversed box goes to the query as it is; the function version would raise instead. */
  lemma ReversedAoiQueried(s: Settings, c: Cube, formula: (real, real, real) -> real)
    requires CubeOk(c)
    ensures var r := ScriptSpec(s, [10.0, -10.0, 5.0, -5.0], true, c, formula);
      r.failure == (if s.wl == 0.0 then Some(ZeroDivision) else None)
      && r.effects[0] == Query(QUERIED_DATASET, 10.0, -10.0, 5.0, -5.0, QueryTime(s.startDate), QueryTime(s.endDate))
    ensures OrderCheck(Clamped([10.0, -10.0, 5.0, -5.0])) == Some(LongitudeOrder)
  {
  }

  /**
    Every output file carries the label "532" and the slice's date, whatever
    the wavelength, while the variable is named after the truncated wavelength.
   */
  lemma {:induction false} OutputsLabelled532(s: Settings, aoi: seq<real>, folderExists: bool, c: Cube,
                                              formula: (real, real, real) -> real, e: Effect)
    requires CubeOk(c)
    requires e in ScriptSpec(s, aoi, folderExists, c, formula).effects && (e.SavePng? || e.WriteTiff?)
    ensures e.file.wlLabel == "532"
    ensures exists j :: 0 <= j < |c.times| && e.file == SliceFile(ProjectFolder(s.outPath, s.projectName), "532", Sanitize(s.projectName), c, j, e.file.ext)
    ensures ScriptSpec(s, aoi, folderExists, c, formula).variable == Some("ref_idx_" + IntToString(Trunc(s.wl)))
  {
    var folder := ProjectFolder(s.outPath, s.projectName);
    var fix := Sanitize(s.projectName);
    var run := SliceRun(folder, FIXED_LABEL, fix, formula, s.wl, c, |c.times|, s.plot, s.exportTiff);
    var made := if folderExists then [] else [MakeDir(folder)];
    var box := Clamped(aoi);
    var query := Query(QUERIED_DATASET, box[0], box[1], box[2], box[3], QueryTime(s.startDate), QueryTime(s.endDate));
    assert s.wl != 0.0;
    assert ScriptSpec(s, aoi, folderExists, c, formula).effects == made + [query] + run;
    assert e in run;
    if e.SavePng? {
      SliceRunPngSound(folder, FIXED_LABEL, fix, formula, s.wl, c, |c.times|, s.plot, s.exportTiff, e);
    } else {
      SliceRunTiffSound(folder, FIXED_LABEL, fix, formula, s.wl, c, |c.times|, s.plot, s.exportTiff, e);
    }
  }

  /**
    When exporting, every slice has its "nw532" GeoTIFF holding that slice's
    grid, unless the wavelength is zero and the assign raised first.
   */
  lemma EveryTiffWritten(s: Settings, aoi: seq<real>, folderExists: bool, c: Cube, formula: (real, real, real) -> real, j: nat)
    requires CubeOk(c) && |aoi| >= 4 && s.exportTiff && j < |c.times|
    ensures s.wl != 0.0 <==>
      WriteTiff(SliceFile(ProjectFolder(s.outPath, s.projectName), "532", Sanitize(s.projectName), c, j, ".tif"),
                SliceData(formula, s.wl, c, j))
      in ScriptSpec(s, aoi, folderExists, c, formula).effects
  {
    SliceRunTiffComplete(ProjectFolder(s.outPath, s.projectName), FIXED_LABEL, Sanitize(s.projectName), formula, s.wl, c,
                         |c.times|, s.plot, s.exportTiff, j);
  }

  /**
    The script run on the module-level list aoi: the list is clamped in
    place, and the effects, the computed dataset id, the variable name and
    the exception are those of ScriptSpec on the list as it was.
   */
  method RunScript(aoi: array<real>, s: Settings, folderExists: bool, c: Cube, formula: (real, real, real) -> real)
    returns (effects: seq<Effect>, dataset: string, variable: Option<string>, failure: Option<Failure>)
    requires CubeOk(c)
    modifies aoi
    ensures aoi[..] == Clamped(old(aoi[..]))
    ensures Run(effects, dataset, variable, failure) == ScriptSpec(s, old(aoi[..]), folderExists, c, formula)
  {
    var fix := Sanitize(s.projectName);
    var folder := s.outPath + "/" + fix;
    effects := [];
    if !folderExists {
      effects := effects + [MakeDir(folder)];
    }
    dataset := DatasetIdV1(s.weekly, s.rep);
    var complete := Clamp(aoi);
    if !complete {
      return effects, dataset, None, Some(IndexError);
    }
    effects := effects + [Query(QUERIED_DATASET, aoi[0], aoi[1], aoi[2], aoi[3], QueryTime(s.startDate), QueryTime(s.endDate))];
    if s.wl == 0.0 {
      return effects, dataset, None, Some(ZeroDivision);
    }
    variable := Some("ref_idx_" + IntToString(Trunc(s.wl)));
    effects := WriteSlices(folder, FIXED_LABEL, fix, formula, s.wl, c, s.plot, s.exportTiff, effects);
    failure := None;
  }
}
