/**
  cop_ref_idx of the function version of the dynamic-AOI script: wrap a
  single float wavelength, clamp and check the caller's AOI list, build the
  project folder, choose the dataset, query it, and for every wavelength in
  order add a ref_idx_<int(wl)> variable and write the per-slice outputs.
  The queried cube, whether the folder already exists and the absolute form
  of out_path are parameters; the formula quanfry_ri is a parameter too.
 */
module DynamicAoiV2 {
  import opened Text
  import opened Calendar
  import opened Grid
  import opened DynamicAoi

  /** The wave_len argument: a float, an int, or a list of wavelengths. */
  datatype WaveLen = FloatArg(value: real) | IntArg(n: int) | ListArg(values: seq<real>)

  /** type(wave_len) == float: only a float is wrapped into a one-element list. */
  function Wrapped(w: WaveLen): (r: WaveLen)
    ensures w.FloatArg? ==> r == ListArg([w.value])
    ensures !w.FloatArg? ==> r == w
  {
    if w.FloatArg? then ListArg([w.value]) else w
  }

  /** '%i' % wl: the wavelength truncated toward zero, in decimal. */
  function WlLabel(wl: real): string {
    IntToString(Trunc(wl))
  }

  /** "ref_idx_%i" % int(wl). */
  function VarName(wl: real): string {
    "ref_idx_" + WlLabel(wl)
  }

  /** A wavelength label has no '_', so it cannot run into the rest of an output name. */
  lemma WlLabelHasNoUnderscore(wl: real)
    ensures '_' !in WlLabel(wl)
  {
    var t := Trunc(wl);
    var d := NatToString(if t < 0 then -t else t);
    assert '_' !in d by {
      forall k | 0 <= k < |d|
        ensures d[k] != '_'
      {
        assert IsDigit(d[k]);
      }
    }
    if t < 0 {
      assert WlLabel(wl) == "-" + d;
    }
  }

  /** Two wavelengths get the same label, and the same variable name, exactly when they truncate alike. */
  lemma WlLabelInjective(w1: real, w2: real)
    ensures WlLabel(w1) == WlLabel(w2) <==> Trunc(w1) == Trunc(w2)
    ensures VarName(w1) == VarName(w2) <==> Trunc(w1) == Trunc(w2)
  {
    IntToStringRoundTrip(Trunc(w1));
    IntToStringRoundTrip(Trunc(w2));
    if VarName(w1) == VarName(w2) {
      DropCommonPrefix("ref_idx_", WlLabel(w1), WlLabel(w2));
    }
  }

  /** A data variable of the returned dataset: its name and its slices. */
  datatype RiVar = RiVar(name: string, slices: seq<Field>)

  predicate HasVar(vars: seq<RiVar>, name: string) {
    exists k :: 0 <= k < |vars| && vars[k].name == name
  }

  /** The variable assign() adds for wavelength wl: the formula on every slice of the cube. */
  function AllSlices(formula: (real, real, real) -> real, wl: real, c: Cube): (r: seq<Field>)
    requires CubeOk(c)
    ensures |r| == |c.times|
    ensures forall j :: 0 <= j < |r| ==> r[j] == SliceData(formula, wl, c, j)
  {
    seq(|c.times|, j requires 0 <= j < |c.times| => SliceData(formula, wl, c, j))
  }

  /** Effects emitted, variables added, and the exception if one was raised. */
  datatype Progress = Progress(effects: seq<Effect>, vars: seq<RiVar>, failure: Option<Failure>)

  /**
    What one wavelength adds when its assign and rename succeed: the slice
    loop's effects and the new variable. wl is kept because the assign
    divides by it.
   */
  datatype Added = Added(wl: real, effects: seq<Effect>, variable: RiVar)

  function AddedFor(folder: string, fix: string, formula: (real, real, real) -> real, wl: real,
                    c: Cube, plot: bool, exportTiff: bool): Added
    requires CubeOk(c)
  {
    Added(wl, SliceRun(folder, WlLabel(wl), fix, formula, wl, c, |c.times|, plot, exportTiff),
          RiVar(VarName(wl), AllSlices(formula, wl, c)))
  }

  /** What each wavelength of ws would add, in order. */
  function AddedAll(folder: string, fix: string, formula: (real, real, real) -> real, ws: seq<real>,
                    c: Cube, plot: bool, exportTiff: bool): (r: seq<Added>)
    requires CubeOk(c)
    ensures |r| == |ws| && forall k :: 0 <= k < |ws| ==> r[k] == AddedFor(folder, fix, formula, ws[k], c, plot, exportTiff)
  {
    seq(|ws|, k requires 0 <= k < |ws| => AddedFor(folder, fix, formula, ws[k], c, plot, exportTiff))
  }

  /**
    The loop over the first n wavelengths, given what each would add: the
    assign raises ZeroDivisionError at a zero wavelength, the rename onto a
    name that is already a variable raises, otherwise the variable is added
    and its effects happen.
   */
  function Loop(adds: seq<Added>, n: nat): Progress
    requires n <= |adds|
  {
    if n == 0 then Progress([], [], None)
    else
      var p := Loop(adds, n - 1);
      var a := adds[n - 1];
      if p.failure.Some? then p
      else if a.wl == 0.0 then Progress(p.effects, p.vars, Some(ZeroDivision))
      else if HasVar(p.vars, a.variable.name) then Progress(p.effects, p.vars, Some(NameConflict(a.variable.name)))
      else Progress(p.effects + a.effects, p.vars + [a.variable], None)
  }

  lemma {:induction false} LoopStaysFailed(adds: seq<Added>, k: nat, m: nat)
    requires k <= m <= |adds| && Loop(adds, k).failure.Some?
    ensures Loop(adds, m) == Loop(adds, k)
    decreases m
  {
    if m > k {
      LoopStaysFailed(adds, k, m - 1);
    }
  }

  lemma {:induction false} LoopVars(adds: seq<Added>, n: nat)
    requires n <= |adds|
    ensures var p := Loop(adds, n);
      p.failure == None ==> |p.vars| == n && forall k :: 0 <= k < n ==> p.vars[k] == adds[k].variable
  {
    if n > 0 {
      LoopVars(adds, n - 1);
    }
  }

  lemma {:induction false} LoopFailure(adds: seq<Added>, n: nat)
    requires n <= |adds|
    ensures var p := Loop(adds, n);
      p.failure.Some? ==> exists k :: (0 <= k < n
        && ((p.failure == Some(ZeroDivision) && adds[k].wl == 0.0) || p.failure == Some(NameConflict(adds[k].variable.name))))
  {
    if n > 0 {
      LoopFailure(adds, n - 1);
    }
  }

  lemma {:induction false} LoopNoConflict(adds: seq<Added>, n: nat)
    requires n <= |adds|
    ensures Loop(adds, n).failure == None <==>
      (forall k :: 0 <= k < n ==> adds[k].wl != 0.0)
      && forall i, j :: 0 <= i < j < n ==> adds[i].variable.name != adds[j].variable.name
  {
    if n > 0 {
      LoopNoConflict(adds, n - 1);
      var p := Loop(adds, n - 1);
      if p.failure == None {
        LoopVars(adds, n - 1);
        var name := adds[n - 1].variable.name;
        if HasVar(p.vars, name) {
          var k :| 0 <= k < |p.vars| && p.vars[k].name == name;
          assert adds[k].variable.name == name;
        }
      }
    }
  }

  lemma {:induction false} LoopEffectsSound(adds: seq<Added>, n: nat, e: Effect)
    requires n <= |adds| && e in Loop(adds, n).effects
    ensures exists i :: 0 <= i < n && e in adds[i].effects
  {
    if n > 0 {
      var p := Loop(adds, n - 1);
      if e in p.effects {
        LoopEffectsSound(adds, n - 1, e);
        var i :| 0 <= i < n - 1 && e in adds[i].effects;
      } else {
        assert e in adds[n - 1].effects;
      }
    }
  }

  lemma {:induction false} LoopEffectsComplete(adds: seq<Added>, n: nat, i: nat, e: Effect)
    requires i < n <= |adds| && Loop(adds, n).failure == None && e in adds[i].effects
    ensures e in Loop(adds, n).effects
  {
    var p := Loop(adds, n - 1);
    assert p.failure == None;
    assert Loop(adds, n).effects == p.effects + adds[n - 1].effects;
    if i < n - 1 {
      LoopEffectsComplete(adds, n - 1, i, e);
    }
  }

  /**
    The wavelength loop over ws[..n]. For each wavelength: the assign
    raises if the wavelength is zero; the rename onto its variable name
    raises if a variable of that name already exists; otherwise the variable
    is added and the slice loop writes its files.
   */
  function WavelengthRun(folder: string, fix: string, formula: (real, real, real) -> real, ws: seq<real>,
                         c: Cube, n: nat, plot: bool, exportTiff: bool): Progress
    requires CubeOk(c) && n <= |ws|
  {
    Loop(AddedAll(folder, fix, formula, ws, c, plot, exportTiff), n)
  }

  /** Without a conflict, variable k is named after wavelength k and holds its slices. */
  lemma WavelengthRunVars(folder: string, fix: string, formula: (real, real, real) -> real, ws: seq<real>,
                          c: Cube, n: nat, plot: bool, exportTiff: bool)
    requires CubeOk(c) && n <= |ws|
    ensures var p := WavelengthRun(folder, fix, formula, ws, c, n, plot, exportTiff);
      p.failure == None ==>
        |p.vars| == n && forall k :: 0 <= k < n ==> p.vars[k] == RiVar(VarName(ws[k]), AllSlices(formula, ws[k], c))
  {
    LoopVars(AddedAll(folder, fix, formula, ws, c, plot, exportTiff), n);
  }

  /** The loop raises only at a zero wavelength or on a name conflict, which names the offending variable. */
  lemma WavelengthRunFailure(folder: string, fix: string, formula: (real, real, real) -> real, ws: seq<real>,
                             c: Cube, n: nat, plot: bool, exportTiff: bool)
    requires CubeOk(c) && n <= |ws|
    ensures var p := WavelengthRun(folder, fix, formula, ws, c, n, plot, exportTiff);
      p.failure.Some? ==> exists k :: (0 <= k < n
        && ((p.failure == Some(ZeroDivision) && ws[k] == 0.0) || p.failure == Some(NameConflict(VarName(ws[k])))))
  {
    var adds := AddedAll(folder, fix, formula, ws, c, plot, exportTiff);
    LoopFailure(adds, n);
    var f := Loop(adds, n).failure;
    if f.Some? {
      var k :| 0 <= k < n &&
        ((f == Some(ZeroDivision) && adds[k].wl == 0.0) || f == Some(NameConflict(adds[k].variable.name)));
      assert adds[k].wl == ws[k] && adds[k].variable.name == VarName(ws[k]);
    }
  }

  /** All wavelengths are processed exactly when none is zero and no two of them truncate to the same integer. */
  lemma RunCompletesIff(folder: string, fix: string, formula: (real, real, real) -> real, ws: seq<real>,
                              c: Cube, n: nat, plot: bool, exportTiff: bool)
    requires CubeOk(c) && n <= |ws|
    ensures WavelengthRun(folder, fix, formula, ws, c, n, plot, exportTiff).failure == None <==>
      (forall k :: 0 <= k < n ==> ws[k] != 0.0)
      && forall i, j :: 0 <= i < j < n ==> Trunc(ws[i]) != Trunc(ws[j])
  {
    var adds := AddedAll(folder, fix, formula, ws, c, plot, exportTiff);
    LoopNoConflict(adds, n);
    assert forall k :: 0 <= k < n ==> adds[k].wl == ws[k];
    forall i, j | 0 <= i < j < n
      ensures adds[i].variable.name != adds[j].variable.name <==> Trunc(ws[i]) != Trunc(ws[j])
    {
      WlLabelInjective(ws[i], ws[j]);
    }
  }

  /** Every GeoTIFF the loop writes belongs to one (wavelength, slice) pair: its name and its grid. */
  lemma WavelengthRunTiffSound(folder: string, fix: string, formula: (real, real, real) -> real, ws: seq<real>,
                               c: Cube, n: nat, plot: bool, exportTiff: bool, e: Effect)
    requires CubeOk(c) && n <= |ws|
    requires e in WavelengthRun(folder, fix, formula, ws, c, n, plot, exportTiff).effects && e.WriteTiff?
    ensures exportTiff
    ensures exists i, j :: (0 <= i < n && 0 <= j < |c.times|
      && e == WriteTiff(SliceFile(folder, WlLabel(ws[i]), fix, c, j, ".tif"), SliceData(formula, ws[i], c, j)))
  {
    var adds := AddedAll(folder, fix, formula, ws, c, plot, exportTiff);
    LoopEffectsSound(adds, n, e);
    var i :| 0 <= i < n && e in adds[i].effects;
    SliceRunTiffSound(folder, WlLabel(ws[i]), fix, formula, ws[i], c, |c.times|, plot, exportTiff, e);
    var j :| 0 <= j < |c.times| && e == WriteTiff(SliceFile(folder, WlLabel(ws[i]), fix, c, j, ".tif"), SliceData(formula, ws[i], c, j));
  }

  /** When exporting and no rename raised, every (wavelength, slice) pair has its GeoTIFF. */
  lemma WavelengthRunTiffComplete(folder: string, fix: string, formula: (real, real, real) -> real, ws: seq<real>,
                                  c: Cube, n: nat, plot: bool, exportTiff: bool, i: nat, j: nat)
    requires CubeOk(c) && n <= |ws| && exportTiff && i < n && j < |c.times|
    requires WavelengthRun(folder, fix, formula, ws, c, n, plot, exportTiff).failure == None
    ensures WriteTiff(SliceFile(folder, WlLabel(ws[i]), fix, c, j, ".tif"), SliceData(formula, ws[i], c, j))
      in WavelengthRun(folder, fix, formula, ws, c, n, plot, exportTiff).effects
  {
    var adds := AddedAll(folder, fix, formula, ws, c, plot, exportTiff);
    SliceRunTiffComplete(folder, WlLabel(ws[i]), fix, formula, ws[i], c, |c.times|, plot, exportTiff, j);
    LoopEffectsComplete(adds, n, i, WriteTiff(SliceFile(folder, WlLabel(ws[i]), fix, c, j, ".tif"), SliceData(formula, ws[i], c, j)));
  }

  /**
    Different (wavelength, slice) pairs write to different paths when the
    wavelengths truncate to different integers and the slice dates differ:
    no output overwrites another.
   */
  lemma DistinctOutputPaths(folder: string, fix: string, ws: seq<real>, c: Cube, i1: nat, j1: nat, i2: nat, j2: nat, ext: string)
    requires CubeOk(c) && i1 < |ws| && i2 < |ws| && j1 < |c.times| && j2 < |c.times|
    requires i1 != i2 ==> Trunc(ws[i1]) != Trunc(ws[i2])
    requires j1 != j2 ==> c.times[j1] != c.times[j2]
    requires i1 != i2 || j1 != j2
    ensures Path(OutputFile(folder, WlLabel(ws[i1]), fix, c.times[j1], ext))
         != Path(OutputFile(folder, WlLabel(ws[i2]), fix, c.times[j2], ext))
  {
    WlLabelHasNoUnderscore(ws[i1]);
    WlLabelHasNoUnderscore(ws[i2]);
    WlLabelInjective(ws[i1], ws[i2]);
    PathInjective(OutputFile(folder, WlLabel(ws[i1]), fix, c.times[j1], ext),
                  OutputFile(folder, WlLabel(ws[i2]), fix, c.times[j2], ext));
  }

  /** The call's arguments other than the AOI list (out_path already made absolute). */
  datatype Request = Request(startDate: string, endDate: string, waveLen: WaveLen, projectName: string,
                             outPath: string, weekly: bool, nrt: bool, plot: bool, exportTiff: bool)

  /** The two return shapes: the dataset alone, or the dataset and the output folder. */
  datatype Returned = CubeOnly(vars: seq<RiVar>) | CubeAndFolder(vars: seq<RiVar>, folder: string)

  datatype Result = Return(value: Returned) | Raise(failure: Failure)

  datatype Outcome = Outcome(effects: seq<Effect>, result: Result)

  /** The effects before the wavelength loop: the folder if it is missing, then the query. */
  function Setup(q: Request, box: seq<real>, folderExists: bool): seq<Effect>
    requires |box| >= 4
  {
    (if folderExists then [] else [MakeDir(ProjectFolder(q.outPath, q.projectName))])
    + [Query(DatasetId(q.weekly, q.nrt), box[0], box[1], box[2], box[3], QueryTime(q.startDate), QueryTime(q.endDate))]
  }

  /**
    What cop_ref_idx does on the AOI list aoi: the effects it has, in order,
    and what it returns or raises.
   */
  function CopRefIdxSpec(aoi: seq<real>, q: Request, folderExists: bool, c: Cube, formula: (real, real, real) -> real): Outcome
    requires CubeOk(c)
  {
    if |aoi| < 4 then Outcome([], Raise(IndexError))
    else
      var box := Clamped(aoi);
      if OrderCheck(box).Some? then Outcome([], Raise(OrderCheck(box).value))
      else
        var setup := Setup(q, box, folderExists);
        var w := Wrapped(q.waveLen);
        if w.IntArg? then Outcome(setup, Raise(NoLength))
        else
          var folder := ProjectFolder(q.outPath, q.projectName);
          var p := WavelengthRun(folder, Sanitize(q.projectName), formula, w.values, c, |w.values|, q.plot, q.exportTiff);
          if p.failure.Some? then Outcome(setup + p.effects, Raise(p.failure.value))
          else if q.plot || q.exportTiff then Outcome(setup + p.effects, Return(CubeAndFolder(p.vars, folder)))
          else Outcome(setup + p.effects, Return(CubeOnly(p.vars)))
  }

  /**
    An AOI that is too short or that the check rejects raises before any
    folder is made or any query sent; every accepted AOI is queried.
   */
  lemma InvalidAoiHasNoEffects(aoi: seq<real>, q: Request, folderExists: bool, c: Cube, formula: (real, real, real) -> real)
    requires CubeOk(c)
    ensures var o := CopRefIdxSpec(aoi, q, folderExists, c, formula);
      (o.effects == [] <==> |aoi| < 4 || OrderCheck(Clamped(aoi)) != None)
      && (o.effects == [] ==> o.result.Raise?)
  {
  }

  /** An accepted AOI is queried once, clamped, inside the world, after the folder if that was missing. */
  lemma AcceptedAoiQueried(aoi: seq<real>, q: Request, folderExists: bool, c: Cube, formula: (real, real, real) -> real)
    requires CubeOk(c) && |aoi| >= 4 && OrderCheck(Clamped(aoi)) == None
    ensures var o := CopRefIdxSpec(aoi, q, folderExists, c, formula); var box := Clamped(aoi);
      var k := if folderExists then 0 else 1;
      && |o.effects| > k
      && (!folderExists ==> o.effects[0] == MakeDir(q.outPath + "/" + Sanitize(q.projectName)))
      && o.effects[k] == Query(DatasetId(q.weekly, q.nrt), box[0], box[1], box[2], box[3],
                               q.startDate + "T00:00:00", q.endDate + "T00:00:00")
      && -180.0 < box[0] < box[1] < 180.0 && -90.0 < box[2] < box[3] < 90.0
  {
    AcceptedAoiInsideWorld(aoi);
  }

  /** An int wavelength is not wrapped: len() raises after the folder and the query, and nothing is written. */
  lemma IntWavelengthRaisesAfterQuery(aoi: seq<real>, q: Request, folderExists: bool, c: Cube, formula: (real, real, real) -> real)
    requires CubeOk(c) && |aoi| >= 4 && OrderCheck(Clamped(aoi)) == None && q.waveLen.IntArg?
    ensures var o := CopRefIdxSpec(aoi, q, folderExists, c, formula);
      o.result == Raise(NoLength) && o.effects == Setup(q, Clamped(aoi), folderExists)
      && forall e :: e in o.effects ==> e.MakeDir? || e.Query?
  {
  }

  /** A float wavelength behaves exactly like the one-element list holding it. */
  lemma FloatWavelengthIsSingleton(aoi: seq<real>, q: Request, folderExists: bool, c: Cube, formula: (real, real, real) -> real, wl: real)
    requires CubeOk(c) && q.waveLen == FloatArg(wl)
    ensures CopRefIdxSpec(aoi, q, folderExists, c, formula)
         == CopRefIdxSpec(aoi, q.(waveLen := ListArg([wl])), folderExists, c, formula)
  {
  }

  /**
    The call returns (dataset, folder) exactly when it plots or exports, and
    the dataset alone otherwise; it returns at all exactly when the AOI is
    accepted, the wavelength is not an int, none of the wavelengths is
    zero, and no two of them truncate alike.
   */
  lemma ReturnShape(aoi: seq<real>, q: Request, folderExists: bool, c: Cube, formula: (real, real, real) -> real)
    requires CubeOk(c)
    ensures var o := CopRefIdxSpec(aoi, q, folderExists, c, formula); var ws := Wrapped(q.waveLen);
      && (o.result.Return? <==>
           |aoi| >= 4 && OrderCheck(Clamped(aoi)) == None && ws.ListArg?
           && (forall k :: 0 <= k < |ws.values| ==> ws.values[k] != 0.0)
           && forall i, j :: 0 <= i < j < |ws.values| ==> Trunc(ws.values[i]) != Trunc(ws.values[j]))
      && (o.result.Return? ==>
           (o.result.value.CubeAndFolder? <==> q.plot || q.exportTiff)
           && |o.result.value.vars| == |ws.values|
           && (o.result.value.CubeAndFolder? ==> o.result.value.folder == q.outPath + "/" + Sanitize(q.projectName)))
  {
    if |aoi| >= 4 && OrderCheck(Clamped(aoi)) == None && Wrapped(q.waveLen).ListArg? {
      var ws := Wrapped(q.waveLen).values;
      var folder := ProjectFolder(q.outPath, q.projectName);
      RunCompletesIff(folder, Sanitize(q.projectName), formula, ws, c, |ws|, q.plot, q.exportTiff);
      WavelengthRunVars(folder, Sanitize(q.projectName), formula, ws, c, |ws|, q.plot, q.exportTiff);
    }
  }

  /**
    The loop over the wavelengths: assign and rename the variable, stop at
    the first zero wavelength or name conflict, otherwise run the slice loop.
   */
  method ProcessWavelengths(folder: string, fix: string, formula: (real, real, real) -> real, ws: seq<real>,
                            c: Cube, plot: bool, exportTiff: bool)
    returns (effects: seq<Effect>, vars: seq<RiVar>, failure: Option<Failure>)
    requires CubeOk(c)
    ensures Progress(effects, vars, failure) == WavelengthRun(folder, fix, formula, ws, c, |ws|, plot, exportTiff)
  {
    ghost var adds := AddedAll(folder, fix, formula, ws, c, plot, exportTiff);
    effects, vars, failure := [], [], None;
    var i := 0;
    while i < |ws| && failure == None
      invariant 0 <= i <= |ws|
      invariant Loop(adds, i) == Progress(effects, vars, failure)
    {
      var wl := ws[i];
      var name := VarName(wl);
      if wl == 0.0 {
        failure := Some(ZeroDivision);
      } else if HasVar(vars, name) {
        failure := Some(NameConflict(name));
      } else {
        effects := WriteSlices(folder, WlLabel(wl), fix, formula, wl, c, plot, exportTiff, effects);
        vars := vars + [RiVar(name, AllSlices(formula, wl, c))];
      }
      i := i + 1;
    }
    if failure.Some? {
      LoopStaysFailed(adds, i, |ws|);
    }
  }

  /**
    cop_ref_idx on the caller's AOI list: the list is clamped in place (also
    when the call then raises), and the effects and the result are those of
    CopRefIdxSpec on the list as it was passed.
   */
  method CopRefIdx(aoi: array<real>, q: Request, folderExists: bool, c: Cube, formula: (real, real, real) -> real)
    returns (effects: seq<Effect>, result: Result)
    requires CubeOk(c)
    modifies aoi
    ensures aoi[..] == Clamped(old(aoi[..]))
    ensures Outcome(effects, result) == CopRefIdxSpec(old(aoi[..]), q, folderExists, c, formula)
  {
    var waveLen := q.waveLen;
    if waveLen.FloatArg? {
      waveLen := ListArg([waveLen.value]);
    }
    var complete := Clamp(aoi);
    if !complete {
      return [], Raise(IndexError);
    }
    if aoi[0] >= aoi[1] {
      return [], Raise(LongitudeOrder);
    }
    if aoi[2] >= aoi[3] {
      return [], Raise(LatitudeOrder);
    }
    var fix := Sanitize(q.projectName);
    var folder := q.outPath + "/" + fix;
    effects := [];
    if !folderExists {
      effects := effects + [MakeDir(folder)];
    }
    var dataset := DatasetId(q.weekly, q.nrt);
    effects := effects + [Query(dataset, aoi[0], aoi[1], aoi[2], aoi[3], QueryTime(q.startDate), QueryTime(q.endDate))];
    assert effects == Setup(q, aoi[..], folderExists);
    if waveLen.IntArg? {
      return effects, Raise(NoLength);
    }
    var ws := waveLen.values;
    var loopEffects, vars, failure := ProcessWavelengths(folder, fix, formula, ws, c, q.plot, q.exportTiff);
    effects := effects + loopEffects;
    if failure.Some? {
      return effects, Raise(failure.value);
    }
    if q.plot || q.exportTiff {
      result := Return(CubeAndFolder(vars, folder));
    } else {
      result := Return(CubeOnly(vars));
    }
  }
}
