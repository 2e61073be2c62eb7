/**
 * The three NDVI scripts as runs over the disk:
 * - process_aligned_ndvi (src/vegetation-ortho-aligned.py) aligns B5 onto
 *   B4, copies B4, and writes `ndvi_aligned_{scene}.tif` with zero-sum pixels
 *   set to 0;
 * - src/vegetation-ortho.py picks the aligned or the original bands, marks
 *   zero-sum pixels NaN, asserts the range and writes `data/ndvi_{j}.tif`;
 * - vegetation-ortho.py marks zero-sum pixels NaN, clips to [-1, 1] and
 *   writes `data/ndvi_{j}.tif`.
 * A script that raises stops there; what it wrote so far stays on disk.
 */
module NdviScripts {
  import opened Wrappers
  import opened Text
  import opened Rasters
  import opened Ndvi
  import opened Naming

  datatype Failure = IOFailure(path: string) | ShapeMismatch | RangeViolation

  datatype Status = Completed | Aborted(failure: Failure)

  datatype ScriptRun = ScriptRun(disk: Disk, status: Status)

  /** The names of a directory listing that contain B4 and end in .TIF, in listing order. */
  function RedNames(listing: seq<string>): (names: seq<string>)
    ensures forall f :: f in names <==> f in listing && IsRedCandidate(f)
    decreases |listing|
  {
    if listing == [] then []
    else
      var names := RedNames(listing[..|listing| - 1]);
      var f := listing[|listing| - 1];
      assert listing == listing[..|listing| - 1] + [f];
      if IsRedCandidate(f) then names + [f] else names
  }

  /** Filtering a listing piece by piece gives the same list: the B4 names keep their listing order. */
  lemma {:induction false} RedNamesAppend(a: seq<string>, b: seq<string>)
    ensures RedNames(a + b) == RedNames(a) + RedNames(b)
    decreases |b|
  {
    if b == [] {
      assert a + b == a;
    } else {
      var b', f := b[..|b| - 1], b[|b| - 1];
      assert (a + b)[..|a + b| - 1] == a + b' && (a + b)[|a + b| - 1] == f;
      RedNamesAppend(a, b');
    }
  }

  /** `[Path(dir) / f for f in names]`. */
  function PathsIn(dir: string, names: seq<string>): (paths: seq<string>)
    ensures |paths| == |names| && forall k :: 0 <= k < |names| ==> paths[k] == Join(dir, names[k])
  {
    seq(|names|, (k: int) requires 0 <= k < |names| => Join(dir, names[k]))
  }

  /** `[os.path.join(dir, f) for f in names]`. */
  function OsPathsIn(dir: string, names: seq<string>): (paths: seq<string>)
    ensures |paths| == |names| && forall k :: 0 <= k < |names| ==> paths[k] == OsPathJoin(dir, names[k])
  {
    seq(|names|, (k: int) requires 0 <= k < |names| => OsPathJoin(dir, names[k]))
  }

  /**
   * `red_path.name` of each listed path is the listed name, so the scene of a
   * path is the scene of its directory entry.
   */
  lemma PathsInNames(dir: string, names: seq<string>)
    requires forall k :: 0 <= k < |names| ==> '/' !in names[k]
    ensures forall k :: 0 <= k < |names| ==>
      BaseName(PathsIn(dir, names)[k]) == names[k] && SceneName(BaseName(PathsIn(dir, names)[k])) == SceneName(names[k])
  {
    forall k | 0 <= k < |names|
      ensures BaseName(PathsIn(dir, names)[k]) == names[k]
    {
      BaseNameOfJoin(dir, names[k]);
    }
  }

  // ---- process_aligned_ndvi ----

  /** The directories process_aligned_ndvi works in. */
  datatype AlignedDirs = AlignedDirs(dataDir: string, outputDir: string, alignedDir: string)

  /** The script's own align_band_to_reference: a GTiff on the reference grid with the source's sample type. */
  function PlainAligned(resample: Resampler, reference: Raster, src: Raster): Raster {
    Raster(reference.grid, Profile("GTiff", src.profile.dtype, None), Resampled(resample, src, reference.grid))
  }

  /** The NDVI output of a pair of aligned bands read back from disk. */
  function NdviOutput(policy: ZeroSumPolicy, red: Raster, nir: Raster): File
    requires WellFormed(red) && WellFormed(nir)
    requires red.grid.height == nir.grid.height && red.grid.width == nir.grid.width
  {
    NdviFile(red.grid, red.profile.(dtype := "float32"), NdviImage(policy, nir.data, red.data))
  }

  /** The last part of a scene of process_aligned_ndvi: reopen both aligned bands and write the NDVI. */
  function AlignedNdviWrite(dirs: AlignedDirs, disk: Disk, scene: string): ScriptRun {
    var alignedRed := Join(dirs.alignedDir, AlignedName(scene, "B4"));
    var alignedNir := Join(dirs.alignedDir, AlignedName(scene, "B5"));
    match (Open(disk, alignedRed), Open(disk, alignedNir))
    case (None, _) => ScriptRun(disk, Aborted(IOFailure(alignedRed)))
    case (_, None) => ScriptRun(disk, Aborted(IOFailure(alignedNir)))
    case (Some(red), Some(nir)) =>
      if red.grid.height != nir.grid.height || red.grid.width != nir.grid.width then ScriptRun(disk, Aborted(ShapeMismatch))
      else ScriptRun(disk[Join(dirs.outputDir, NdviAlignedName(scene)) := NdviOutput(FillZero, red, nir)], Completed)
  }

  /** One pass of the scene loop of process_aligned_ndvi; Completed means the loop goes on. */
  function AlignedNdviStep(resample: Resampler, dirs: AlignedDirs, disk: Disk, redPath: string): ScriptRun {
    var scene := SceneName(BaseName(redPath));
    var nirPath := NirName(redPath);
    if nirPath !in disk then ScriptRun(disk, Completed)
    else
      var alignedRed := Join(dirs.alignedDir, AlignedName(scene, "B4"));
      var alignedNir := Join(dirs.alignedDir, AlignedName(scene, "B5"));
      match (Open(disk, redPath), Open(disk, nirPath))
      case (None, _) => ScriptRun(disk, Aborted(IOFailure(redPath)))
      case (_, None) => ScriptRun(disk, Aborted(IOFailure(nirPath)))
      case (Some(reference), Some(src)) =>
        var d1 := disk[alignedNir := RasterFile(PlainAligned(resample, reference, src))];
        match Open(d1, redPath)
        case None => ScriptRun(d1, Aborted(IOFailure(redPath)))
        case Some(redBand) => AlignedNdviWrite(dirs, d1[alignedRed := RasterFile(redBand)], scene)
  }

  function AlignedNdviRun(resample: Resampler, dirs: AlignedDirs, disk: Disk, reds: seq<string>): ScriptRun
    decreases |reds|
  {
    if reds == [] then ScriptRun(disk, Completed)
    else
      var prev := AlignedNdviRun(resample, dirs, disk, reds[..|reds| - 1]);
      if prev.status.Aborted? then prev else AlignedNdviStep(resample, dirs, prev.disk, reds[|reds| - 1])
  }

  /** The NDVI part of one scene, as the script runs it. */
  method WriteAlignedNdvi(dirs: AlignedDirs, disk0: Disk, sceneName: string) returns (run: ScriptRun)
    ensures run == AlignedNdviWrite(dirs, disk0, sceneName)
  {
    var alignedRed := Join(dirs.alignedDir, AlignedName(sceneName, "B4"));
    var alignedNir := Join(dirs.alignedDir, AlignedName(sceneName, "B5"));
    var red := Open(disk0, alignedRed);
    if red.None? {
      return ScriptRun(disk0, Aborted(IOFailure(alignedRed)));
    }
    var nir := Open(disk0, alignedNir);
    if nir.None? {
      return ScriptRun(disk0, Aborted(IOFailure(alignedNir)));
    }
    if red.value.grid.height != nir.value.grid.height || red.value.grid.width != nir.value.grid.width {
      return ScriptRun(disk0, Aborted(ShapeMismatch));
    }
    var ndviOutput := Join(dirs.outputDir, NdviAlignedName(sceneName));
    run := ScriptRun(disk0[ndviOutput := NdviOutput(FillZero, red.value, nir.value)], Completed);
  }

  /** One scene of process_aligned_ndvi, as the script runs it. */
  method AlignedNdviScene(resample: Resampler, dirs: AlignedDirs, disk0: Disk, redPath: string) returns (run: ScriptRun)
    ensures run == AlignedNdviStep(resample, dirs, disk0, redPath)
  {
    var sceneName := SceneName(BaseName(redPath));
    var nirPath := ReplaceAll(redPath, "B4.TIF", "B5.TIF");
    if nirPath !in disk0 {
      return ScriptRun(disk0, Completed);
    }
    var alignedRed := Join(dirs.alignedDir, AlignedName(sceneName, "B4"));
    var alignedNir := Join(dirs.alignedDir, AlignedName(sceneName, "B5"));
    var reference := Open(disk0, redPath);
    if reference.None? {
      return ScriptRun(disk0, Aborted(IOFailure(redPath)));
    }
    var src := Open(disk0, nirPath);
    if src.None? {
      return ScriptRun(disk0, Aborted(IOFailure(nirPath)));
    }
    var disk := disk0[alignedNir := RasterFile(PlainAligned(resample, reference.value, src.value))];
    var redBand := Open(disk, redPath);
    if redBand.None? {
      return ScriptRun(disk, Aborted(IOFailure(redPath)));
    }
    disk := disk[alignedRed := RasterFile(redBand.value)];
    run := WriteAlignedNdvi(dirs, disk, sceneName);
  }

  /** `process_aligned_ndvi()` over a data directory whose names are `listing`. */
  method ProcessAlignedNdvi(resample: Resampler, dirs: AlignedDirs, listing: seq<string>, disk0: Disk) returns (run: ScriptRun)
    ensures run == AlignedNdviRun(resample, dirs, disk0, PathsIn(dirs.dataDir, RedNames(listing)))
  {
    var b4Files := PathsIn(dirs.dataDir, RedNames(listing));
    var disk := disk0;
    var i := 0;
    while i < |b4Files|
      invariant 0 <= i <= |b4Files|
      invariant AlignedNdviRun(resample, dirs, disk0, b4Files[..i]) == ScriptRun(disk, Completed)
    {
      AlignedNdviRunSnoc(resample, dirs, disk0, b4Files, i);
      var step := AlignedNdviScene(resample, dirs, disk, b4Files[i]);
      if step.status.Aborted? {
        AlignedNdviAbortStays(resample, dirs, disk0, b4Files, i + 1);
        return step;
      }
      disk := step.disk;
      i := i + 1;
    }
    assert b4Files[..|b4Files|] == b4Files;
    run := ScriptRun(disk, Completed);
  }

  /** The run over one more red file is the run so far followed by one more step, unless it has raised. */
  lemma AlignedNdviRunSnoc(resample: Resampler, dirs: AlignedDirs, disk: Disk, reds: seq<string>, i: nat)
    requires i < |reds|
    ensures var prev := AlignedNdviRun(resample, dirs, disk, reds[..i]);
      AlignedNdviRun(resample, dirs, disk, reds[..i + 1]) ==
        if prev.status.Aborted? then prev else AlignedNdviStep(resample, dirs, prev.disk, reds[i])
  {
    assert reds[..i + 1][..i] == reds[..i];
  }

  /** After a scene raises, the later scenes are not processed. */
  lemma {:induction false} AlignedNdviAbortStays(resample: Resampler, dirs: AlignedDirs, disk: Disk, reds: seq<string>, i: int)
    requires 0 <= i <= |reds| && AlignedNdviRun(resample, dirs, disk, reds[..i]).status.Aborted?
    ensures AlignedNdviRun(resample, dirs, disk, reds) == AlignedNdviRun(resample, dirs, disk, reds[..i])
    decreases |reds|
  {
    if i < |reds| {
      assert reds[..|reds| - 1][..i] == reds[..i];
      AlignedNdviAbortStays(resample, dirs, disk, reds[..|reds| - 1], i);
    } else {
      assert reds[..i] == reds;
    }
  }

  /** A red band without its B5 counterpart is skipped: nothing is written for it. */
  lemma AlignedNdviSkipsUnpaired(resample: Resampler, dirs: AlignedDirs, disk: Disk, redPath: string)
    requires NirName(redPath) !in disk
    ensures AlignedNdviStep(resample, dirs, disk, redPath) == ScriptRun(disk, Completed)
  {
  }

  /**
   * A scene whose red and NIR bands open writes three files: the NIR band
   * resampled onto the red grid, a verbatim copy of the red band, and the
   * zero-filled NDVI on the red grid with the red profile as float32. The
   * shapes always agree, so the step never raises.
   */
  lemma AlignedNdviStepWrites(resample: Resampler, dirs: AlignedDirs, disk: Disk, redPath: string)
    requires NirName(redPath) in disk
    requires Open(disk, redPath).Some? && Open(disk, NirName(redPath)).Some?
    requires Join(dirs.alignedDir, AlignedName(SceneName(BaseName(redPath)), "B5")) != redPath
    ensures var scene := SceneName(BaseName(redPath));
      var reference, src := Open(disk, redPath).value, Open(disk, NirName(redPath)).value;
      var alignedNir := PlainAligned(resample, reference, src);
      && alignedNir.grid == reference.grid
      && AlignedNdviStep(resample, dirs, disk, redPath) == ScriptRun(
        disk[Join(dirs.alignedDir, AlignedName(scene, "B5")) := RasterFile(alignedNir)]
            [Join(dirs.alignedDir, AlignedName(scene, "B4")) := RasterFile(reference)]
            [Join(dirs.outputDir, NdviAlignedName(scene)) := NdviOutput(FillZero, reference, alignedNir)],
        Completed)
  {
    var scene := SceneName(BaseName(redPath));
    var alignedRed, alignedNir := Join(dirs.alignedDir, AlignedName(scene, "B4")), Join(dirs.alignedDir, AlignedName(scene, "B5"));
    if alignedRed == alignedNir {
      AlignedPathInjective(dirs.alignedDir, scene, "B4", "B5");
    }
  }

  /** With non-negative samples, every pixel of a zero-filled NDVI output is a number in [-1, 1]. */
  lemma AlignedNdviInRange(red: Raster, nir: Raster)
    requires WellFormed(red) && WellFormed(nir)
    requires red.grid.height == nir.grid.height && red.grid.width == nir.grid.width
    requires forall i, j :: 0 <= i < red.grid.height && 0 <= j < red.grid.width ==> red.data[i][j] >= 0.0 && nir.data[i][j] >= 0.0
    ensures var out := NdviOutput(FillZero, red, nir);
      HasShape(out.ndvi, red.grid.height, red.grid.width) &&
      forall i, j :: 0 <= i < red.grid.height && 0 <= j < red.grid.width ==> InUnit(out.ndvi[i][j])
  {
    forall i, j | 0 <= i < red.grid.height && 0 <= j < red.grid.width
      ensures InUnit(NdviOutput(FillZero, red, nir).ndvi[i][j])
    {
      FillZeroIsFinite(nir.data[i][j], red.data[i][j]);
    }
  }

  // ---- the numbered-output scripts ----

  /** `use_aligned`: the aligned directory exists (its listing is given) and holds some `*_aligned.TIF`. */
  predicate UseAligned(alignedListing: Option<seq<string>>) {
    alignedListing.Some? && exists k :: 0 <= k < |alignedListing.value| && EndsWith(alignedListing.value[k], AlignedTif)
  }

  /** The paths kept or dropped by the mode filter of src/vegetation-ortho.py. */
  function ModeFilter(keepAligned: bool, paths: seq<string>): (kept: seq<string>)
    ensures forall p :: p in kept <==> p in paths && (Contains(p, AlignedTif) <==> keepAligned)
    decreases |paths|
  {
    if paths == [] then []
    else
      var kept := ModeFilter(keepAligned, paths[..|paths| - 1]);
      var p := paths[|paths| - 1];
      assert paths == paths[..|paths| - 1] + [p];
      if Contains(p, AlignedTif) == keepAligned then kept + [p] else kept
  }

  /** Filtering the B4 list piece by piece gives the same list: the kept paths keep their order. */
  lemma {:induction false} ModeFilterAppend(keepAligned: bool, a: seq<string>, b: seq<string>)
    ensures ModeFilter(keepAligned, a + b) == ModeFilter(keepAligned, a) + ModeFilter(keepAligned, b)
    decreases |b|
  {
    if b == [] {
      assert a + b == a;
    } else {
      var b', p := b[..|b| - 1], b[|b| - 1];
      assert (a + b)[..|a + b| - 1] == a + b' && (a + b)[|a + b| - 1] == p;
      ModeFilterAppend(keepAligned, a, b');
    }
  }

  /** The two modes split the B4 list: each path is kept by exactly one of them. */
  lemma {:induction false} ModeFilterPartition(paths: seq<string>)
    ensures |ModeFilter(true, paths)| + |ModeFilter(false, paths)| == |paths|
    ensures forall p :: p in paths <==> (p in ModeFilter(true, paths) || p in ModeFilter(false, paths))
    ensures forall p :: !(p in ModeFilter(true, paths) && p in ModeFilter(false, paths))
    decreases |paths|
  {
    if paths != [] {
      ModeFilterPartition(paths[..|paths| - 1]);
    }
  }

  /** How a script derives the NIR path from the red path. */
  datatype NirRule = SwapB4Tif | SwapAlignedB4

  function NirPathOf(rule: NirRule, redPath: string): string {
    match rule
    case SwapB4Tif => NirName(redPath)
    case SwapAlignedB4 => ReplaceAll(redPath, "_B4_aligned.TIF", "_B5_aligned.TIF")
  }

  /** Which check guards the write: the range assertion (as written, or as intended), or none after a clip. */
  datatype RangeCheck = AsWritten | Intended

  datatype Treatment = AssertRange(check: RangeCheck) | ClipRange

  datatype NumberedScript = NumberedScript(rule: NirRule, treatment: Treatment)

  /** The raster src/vegetation-ortho.py (assert) or vegetation-ortho.py (clip) computes for one scene. */
  function TreatedNdvi(treatment: Treatment, nir: Matrix, red: Matrix): seq<seq<Float>>
    requires SameShape(nir, red)
  {
    match treatment
    case AssertRange(_) => NdviImage(MarkMissing, nir, red)
    case ClipRange => ClipImage(NdviImage(MarkMissing, nir, red))
  }

  function Passes(check: RangeCheck, ndvi: seq<seq<Float>>): bool {
    match check
    case AsWritten => RangeAssertionAsWritten(ndvi)
    case Intended => RangeAssertion(ndvi)
  }

  /** What one scene yields: the file to write, or the reason the script raises. */
  datatype SceneResult = Write(file: File) | Fail(failure: Failure)

  function NumberedScene(script: NumberedScript, disk: Disk, redPath: string): SceneResult {
    var nirPath := NirPathOf(script.rule, redPath);
    match (Open(disk, redPath), Open(disk, nirPath))
    case (None, _) => Fail(IOFailure(redPath))
    case (_, None) => Fail(IOFailure(nirPath))
    case (Some(red), Some(nir)) =>
      if red.grid.height != nir.grid.height || red.grid.width != nir.grid.width then Fail(ShapeMismatch)
      else
        var ndvi := TreatedNdvi(script.treatment, nir.data, red.data);
        if script.treatment.AssertRange? && !Passes(script.treatment.check, ndvi) then Fail(RangeViolation)
        else Write(NdviFile(red.grid, red.profile.(dtype := "float32"), ndvi))
  }

  /** What each scene yields when run on the original disk. */
  function SceneResults(script: NumberedScript, disk: Disk, reds: seq<string>): (results: seq<SceneResult>)
    ensures |results| == |reds| && forall k :: 0 <= k < |reds| ==> results[k] == NumberedScene(script, disk, reds[k])
  {
    seq(|reds|, (k: int) requires 0 <= k < |reds| => NumberedScene(script, disk, reds[k]))
  }

  /** The scene loop; the j-th scene (from 1) writes `data/ndvi_{j}.tif`. */
  function NumberedRun(script: NumberedScript, disk: Disk, reds: seq<string>): ScriptRun
    decreases |reds|
  {
    if reds == [] then ScriptRun(disk, Completed)
    else
      var prev := NumberedRun(script, disk, reds[..|reds| - 1]);
      if prev.status.Aborted? then prev else Filed(prev.disk, NumberedScene(script, prev.disk, reds[|reds| - 1]), |reds|)
  }

  /** Scene j's result: its file written as `data/ndvi_{j}.tif`, or the script raising. */
  function Filed(disk: Disk, result: SceneResult, j: nat): ScriptRun {
    match result
    case Fail(f) => ScriptRun(disk, Aborted(f))
    case Write(file) => ScriptRun(disk[NumberedNdviName(j) := file], Completed)
  }

  lemma {:induction false} NumberedAbortStays(script: NumberedScript, disk: Disk, reds: seq<string>, i: int)
    requires 0 <= i <= |reds| && NumberedRun(script, disk, reds[..i]).status.Aborted?
    ensures NumberedRun(script, disk, reds) == NumberedRun(script, disk, reds[..i])
    decreases |reds|
  {
    if i < |reds| {
      assert reds[..|reds| - 1][..i] == reds[..i];
      NumberedAbortStays(script, disk, reds[..|reds| - 1], i);
    } else {
      assert reds[..i] == reds;
    }
  }

  /** `main` of src/vegetation-ortho.py: mode choice, B4 list, mode filter. */
  function VegetationOrthoReds(alignedDir: string, alignedListing: Option<seq<string>>, dataDir: string, dataListing: seq<string>): seq<string> {
    var useAligned := UseAligned(alignedListing);
    var source := if useAligned then alignedDir else dataDir;
    var listing := if useAligned then alignedListing.value else dataListing;
    ModeFilter(useAligned, OsPathsIn(source, RedNames(listing)))
  }

  function VegetationOrthoScript(alignedListing: Option<seq<string>>): NumberedScript {
    NumberedScript(if UseAligned(alignedListing) then SwapAlignedB4 else SwapB4Tif, AssertRange(AsWritten))
  }

  /** The NDVI with zero-sum pixels marked NaN, computed as the scripts do: divide, then mask in place. */
  method NanNdvi(nir: Raster, red: Raster) returns (ndvi: seq<seq<Float>>)
    requires WellFormed(red) && WellFormed(nir)
    requires red.grid.height == nir.grid.height && red.grid.width == nir.grid.width
    ensures ndvi == NdviImage(MarkMissing, nir.data, red.data)
  {
    var ratio := RatioImage(nir.data, red.data);
    var a := ToArray(ratio, red.grid.height, red.grid.width);
    MaskZeroSum(a, nir.data, red.data);
    ndvi := Snapshot(a);
    MaskedRatioIsNdvi(nir.data, red.data, red.grid.height, red.grid.width, ndvi);
  }

  /** The scene loop of src/vegetation-ortho.py and vegetation-ortho.py, with its counter j. */
  method RunNumbered(script: NumberedScript, reds: seq<string>, disk0: Disk) returns (run: ScriptRun)
    ensures run == NumberedRun(script, disk0, reds)
  {
    var disk := disk0;
    var j := 1;
    var k := 0;
    while k < |reds|
      invariant 0 <= k <= |reds| && j == k + 1
      invariant NumberedRun(script, disk0, reds[..k]) == ScriptRun(disk, Completed)
    {
      assert reds[..k + 1][..k] == reds[..k];
      var result := ComputeScene(script, disk, reds[k]);
      if result.Fail? {
        NumberedAbortStays(script, disk0, reds, k + 1);
        return ScriptRun(disk, Aborted(result.failure));
      }
      disk := disk[NumberedNdviName(j) := result.file];
      j := j + 1;
      k := k + 1;
    }
    assert reds[..|reds|] == reds;
    run := ScriptRun(disk, Completed);
  }

  /** The body of the scene loop: read both bands, compute the NDVI, clip it or check its range. */
  method ComputeScene(script: NumberedScript, disk: Disk, redPath: string) returns (result: SceneResult)
    ensures result == NumberedScene(script, disk, redPath)
  {
    var nirPath := NirPathOf(script.rule, redPath);
    var red := Open(disk, redPath);
    if red.None? {
      return Fail(IOFailure(redPath));
    }
    var nir := Open(disk, nirPath);
    if nir.None? {
      return Fail(IOFailure(nirPath));
    }
    if red.value.grid.height != nir.value.grid.height || red.value.grid.width != nir.value.grid.width {
      return Fail(ShapeMismatch);
    }
    var ndvi := NanNdvi(nir.value, red.value);
    if script.treatment.ClipRange? {
      ndvi := ClipImage(ndvi);
    } else if !Passes(script.treatment.check, ndvi) {
      return Fail(RangeViolation);
    }
    result := Write(NdviFile(red.value.grid, red.value.profile.(dtype := "float32"), ndvi));
  }

  /** src/vegetation-ortho.py run as a whole. */
  method VegetationOrtho(alignedDir: string, alignedListing: Option<seq<string>>, dataDir: string, dataListing: seq<string>, disk0: Disk)
    returns (run: ScriptRun)
    ensures run == NumberedRun(VegetationOrthoScript(alignedListing), disk0, VegetationOrthoReds(alignedDir, alignedListing, dataDir, dataListing))
  {
    var useAligned := alignedListing.Some? && exists k :: 0 <= k < |alignedListing.value| && EndsWith(alignedListing.value[k], AlignedTif);
    var dataSource := if useAligned then alignedDir else dataDir;
    var listing := if useAligned then alignedListing.value else dataListing;
    var b4Files := OsPathsIn(dataSource, RedNames(listing));
    b4Files := ModeFilter(useAligned, b4Files);
    run := RunNumbered(NumberedScript(if useAligned then SwapAlignedB4 else SwapB4Tif, AssertRange(AsWritten)), b4Files, disk0);
  }

  /** vegetation-ortho.py run as a whole. */
  method VegetationOrthoClipped(dataDir: string, listing: seq<string>, disk0: Disk) returns (run: ScriptRun)
    ensures run == NumberedRun(NumberedScript(SwapB4Tif, ClipRange), disk0, OsPathsIn(dataDir, RedNames(listing)))
  {
    var b4Files := OsPathsIn(dataDir, RedNames(listing));
    run := RunNumbered(NumberedScript(SwapB4Tif, ClipRange), b4Files, disk0);
  }

  // ---- the range assertion ----

  /** Both bands open with the same shape. */
  predicate BandsOpen(script: NumberedScript, disk: Disk, redPath: string) {
    var nirPath := NirPathOf(script.rule, redPath);
    && Open(disk, redPath).Some? && Open(disk, nirPath).Some?
    && Open(disk, redPath).value.grid.height == Open(disk, nirPath).value.grid.height
    && Open(disk, redPath).value.grid.width == Open(disk, nirPath).value.grid.width
  }

  /** Every sample of both bands is non-negative, as Landsat surface reflectance counts are. */
  predicate NonNegativeBands(script: NumberedScript, disk: Disk, redPath: string)
    requires BandsOpen(script, disk, redPath)
  {
    var red, nir := Open(disk, redPath).value, Open(disk, NirPathOf(script.rule, redPath)).value;
    forall i, j :: 0 <= i < red.grid.height && 0 <= j < red.grid.width ==> red.data[i][j] >= 0.0 && nir.data[i][j] >= 0.0
  }

  /** Every pixel of the scene has nir + red == 0 (a scene of no-data zeros, say). */
  predicate AllZeroSum(script: NumberedScript, disk: Disk, redPath: string)
    requires BandsOpen(script, disk, redPath)
  {
    var red, nir := Open(disk, redPath).value, Open(disk, NirPathOf(script.rule, redPath)).value;
    forall i, j :: 0 <= i < red.grid.height && 0 <= j < red.grid.width ==> nir.data[i][j] + red.data[i][j] == 0.0
  }

  /**
   * With the intended check, a scene of non-negative bands that open with one
   * shape always yields its file; clipping never raises either.
   */
  lemma IntendedCheckNeverRaises(rule: NirRule, treatment: Treatment, disk: Disk, redPath: string)
    requires treatment != AssertRange(AsWritten)
    requires BandsOpen(NumberedScript(rule, treatment), disk, redPath)
    requires NonNegativeBands(NumberedScript(rule, treatment), disk, redPath)
    ensures NumberedScene(NumberedScript(rule, treatment), disk, redPath).Write?
  {
    var script := NumberedScript(rule, treatment);
    var red, nir := Open(disk, redPath).value, Open(disk, NirPathOf(rule, redPath)).value;
    if treatment.AssertRange? {
      NdviImageInRange(nir.data, red.data);
    }
  }

  /**
   * As written, a scene whose every pixel has nir + red == 0 raises the range
   * assertion, since `np.nanmin` of an all-NaN array is NaN; with the intended
   * check it is written. One such scene is a single zero pixel.
   */
  lemma AsWrittenRaisesOnBlankScene(rule: NirRule, disk: Disk, redPath: string)
    requires BandsOpen(NumberedScript(rule, AssertRange(AsWritten)), disk, redPath)
    requires AllZeroSum(NumberedScript(rule, AssertRange(AsWritten)), disk, redPath)
    ensures NumberedScene(NumberedScript(rule, AssertRange(AsWritten)), disk, redPath) == Fail(RangeViolation)
    ensures NumberedScene(NumberedScript(rule, AssertRange(Intended)), disk, redPath).Write?
  {
    var red, nir := Open(disk, redPath).value, Open(disk, NirPathOf(rule, redPath)).value;
    var ndvi := NdviImage(MarkMissing, nir.data, red.data);
    forall x | x in Flatten(ndvi)
      ensures x.NaN?
    {
      FlattenMembers(ndvi, x);
      var i :| 0 <= i < |ndvi| && x in ndvi[i];
      var j :| 0 <= j < |ndvi[i]| && ndvi[i][j] == x;
    }
    RangeAssertionAgreement(ndvi);
  }

  /** A blank scene exists: a single pixel where both bands read 0. */
  lemma BlankSceneExample(g: Grid, p: Profile)
    requires g.height == 1 && g.width == 1
    ensures var disk := map["B4.TIF" := RasterFile(Raster(g, p, [[0.0]])), "B5.TIF" := RasterFile(Raster(g, p, [[0.0]]))];
      NumberedScene(NumberedScript(SwapB4Tif, AssertRange(AsWritten)), disk, "B4.TIF") == Fail(RangeViolation)
  {
    var disk := map["B4.TIF" := RasterFile(Raster(g, p, [[0.0]])), "B5.TIF" := RasterFile(Raster(g, p, [[0.0]]))];
    assert NirName("B4.TIF") == "B5.TIF" by {
      assert "B4.TIF"[6..] == [];
    }
    assert Open(disk, "B4.TIF").Some? && Open(disk, "B5.TIF").Some?;
    AsWrittenRaisesOnBlankScene(SwapB4Tif, disk, "B4.TIF");
  }

  /** After vegetation-ortho.py's clip, every written pixel that is not missing lies in [-1, 1]. */
  lemma ClippedOutputInRange(disk: Disk, redPath: string)
    requires NumberedScene(NumberedScript(SwapB4Tif, ClipRange), disk, redPath).Write?
    ensures RangeAssertion(NumberedScene(NumberedScript(SwapB4Tif, ClipRange), disk, redPath).file.ndvi)
  {
    var red, nir := Open(disk, redPath).value, Open(disk, NirName(redPath)).value;
    ClipImageInRange(NdviImage(MarkMissing, nir.data, red.data));
  }
}
