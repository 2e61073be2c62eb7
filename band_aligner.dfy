/**
 * `BandAligner` (src/band_aligner.py): finds Landsat scenes by their red-band
 * file, resamples every other band of a scene onto the reference band's grid
 * and writes `{scene}_{band}_aligned.TIF` files to the output directory.
 */
module BandAlignment {
  import opened Wrappers
  import opened Text
  import opened OrderedMaps
  import opened Rasters
  import opened Naming
  import opened Georeference

  /** scene name -> band key ("B4", "B5") -> path of the band's file in the data directory. */
  type Scenes = ODict<string, ODict<string, string>>

  // ---- scene discovery ----

  /** The bands `_find_scenes` records for one `*_SR_B4.TIF` file name. */
  function SceneEntry(dataDir: string, disk: Disk, name: string): ODict<string, string> {
    var entry := [("B4", Join(dataDir, name))];
    var b5File := Join(dataDir, NirName(name));
    if b5File in disk then Put(entry, "B5", b5File) else entry
  }

  /** The scenes found among the names of the data directory, listed in glob order. */
  function FoundScenes(dataDir: string, disk: Disk, listing: seq<string>): Scenes
    decreases |listing|
  {
    if listing == [] then []
    else
      var scenes := FoundScenes(dataDir, disk, listing[..|listing| - 1]);
      var name := listing[|listing| - 1];
      if IsSrB4File(name) then Put(scenes, SceneName(name), SceneEntry(dataDir, disk, name)) else scenes
  }

  /** `_find_scenes`. */
  method FindScenes(dataDir: string, disk: Disk, listing: seq<string>) returns (scenes: Scenes)
    ensures scenes == FoundScenes(dataDir, disk, listing)
  {
    scenes := [];
    var i := 0;
    while i < |listing|
      invariant 0 <= i <= |listing|
      invariant scenes == FoundScenes(dataDir, disk, listing[..i])
    {
      assert listing[..i + 1][..i] == listing[..i];
      var name := listing[i];
      if EndsWith(name, SrB4Tif) {
        var sceneName := ReplaceAll(name, SrB4Tif, "");
        var entry := [("B4", Join(dataDir, name))];
        var b5File := Join(dataDir, ReplaceAll(name, "B4.TIF", "B5.TIF"));
        if b5File in disk {
          entry := Put(entry, "B5", b5File);
        }
        scenes := Put(scenes, sceneName, entry);
      }
      i := i + 1;
    }
    assert listing[..|listing|] == listing;
  }

  /**
   * A scene records its red-band file under B4 and, exactly when the sibling
   * `…B5.TIF` exists, that file under B5; it has no other bands.
   */
  lemma SceneEntryShape(dataDir: string, disk: Disk, name: string)
    ensures var entry := SceneEntry(dataDir, disk, name);
      var b5File := Join(dataDir, NirName(name));
      && Keys(entry) == (if b5File in disk then ["B4", "B5"] else ["B4"])
      && DistinctKeys(entry)
      && Get(entry, "B4") == Some(Join(dataDir, name))
      && Get(entry, "B5") == (if b5File in disk then Some(b5File) else None)
      && forall band :: Get(entry, band).Some? ==> band == "B4" || band == "B5"
  {
    var entry := [("B4", Join(dataDir, name))];
    var b5File := Join(dataDir, NirName(name));
    assert Keys(entry) == ["B4"];
    assert forall band :: Get(entry, band) == if band == "B4" then Some(Join(dataDir, name)) else None;
    if b5File in disk {
      PutKeys(entry, "B5", b5File);
      forall band ensures Get(Put(entry, "B5", b5File), band) == if band == "B5" then Some(b5File) else Get(entry, band) {
        PutGet(entry, "B5", b5File, band);
      }
      DistinctKeysIff(Put(entry, "B5", b5File));
    }
  }

  /** The file name whose scene entry survives for `scene`: the last red-band file naming it. */
  function LastSceneFile(listing: seq<string>, scene: string): Option<string>
    decreases |listing|
  {
    if listing == [] then None
    else
      var name := listing[|listing| - 1];
      if IsSrB4File(name) && SceneName(name) == scene then Some(name)
      else LastSceneFile(listing[..|listing| - 1], scene)
  }

  /** Each scene is the entry of the last red-band file carrying its name, and only such scenes exist. */
  lemma {:induction false} FoundScenesGet(dataDir: string, disk: Disk, listing: seq<string>, scene: string)
    ensures Get(FoundScenes(dataDir, disk, listing), scene) ==
      match LastSceneFile(listing, scene)
      case None => None
      case Some(name) => Some(SceneEntry(dataDir, disk, name))
    decreases |listing|
  {
    if listing != [] {
      var init := listing[..|listing| - 1];
      var name := listing[|listing| - 1];
      FoundScenesGet(dataDir, disk, init, scene);
      if IsSrB4File(name) {
        PutGet(FoundScenes(dataDir, disk, init), SceneName(name), SceneEntry(dataDir, disk, name), scene);
      }
    }
  }

  /** A red-band file names a scene whose file name it reconstructs. */
  lemma LastSceneFileNames(listing: seq<string>, scene: string)
    requires LastSceneFile(listing, scene).Some?
    ensures var name := LastSceneFile(listing, scene).value;
      name in listing && IsSrB4File(name) && SceneName(name) == scene
      && (OnlyAsSuffix(name, SrB4Tif) ==> scene + SrB4Tif == name)
  {
    var name := LastSceneFile(listing, scene).value;
    LastSceneFileIn(listing, scene);
    if OnlyAsSuffix(name, SrB4Tif) {
      SceneNameRoundTrip(name);
    }
  }

  lemma {:induction false} LastSceneFileIn(listing: seq<string>, scene: string)
    requires LastSceneFile(listing, scene).Some?
    ensures var name := LastSceneFile(listing, scene).value;
      name in listing && IsSrB4File(name) && SceneName(name) == scene
    decreases |listing|
  {
    var name := listing[|listing| - 1];
    if !(IsSrB4File(name) && SceneName(name) == scene) {
      LastSceneFileIn(listing[..|listing| - 1], scene);
    }
  }

  /** Every red-band file in the listing gives its scene an entry. */
  lemma {:induction false} EveryRedFileFound(listing: seq<string>, k: int)
    requires 0 <= k < |listing| && IsSrB4File(listing[k])
    ensures LastSceneFile(listing, SceneName(listing[k])).Some?
    decreases |listing|
  {
    if k < |listing| - 1 {
      var name := listing[|listing| - 1];
      if !(IsSrB4File(name) && SceneName(name) == SceneName(listing[k])) {
        assert listing[..|listing| - 1][k] == listing[k];
        EveryRedFileFound(listing[..|listing| - 1], k);
      }
    }
  }

  /** Scene names are distinct, as dict keys are. */
  lemma {:induction false} FoundScenesDistinct(dataDir: string, disk: Disk, listing: seq<string>)
    ensures DistinctKeys(FoundScenes(dataDir, disk, listing))
    decreases |listing|
  {
    if listing != [] {
      var init := listing[..|listing| - 1];
      var name := listing[|listing| - 1];
      FoundScenesDistinct(dataDir, disk, init);
      if IsSrB4File(name) {
        PutDistinct(FoundScenes(dataDir, disk, init), SceneName(name), SceneEntry(dataDir, disk, name));
      }
    }
  }

  // ---- aligning one band ----

  /** `reproject` into the reference grid, written with the reference profile and the source's sample type. */
  function AlignedBand(resample: Resampler, reference: Raster, src: Raster): Raster {
    Raster(reference.grid, reference.profile.(dtype := src.profile.dtype), Resampled(resample, src, reference.grid))
  }

  /** What `align_band_to_reference` writes, or None when opening the reference or the band raises. */
  function ExpectedAligned(resample: Resampler, disk: Disk, bandFile: string, referenceFile: string): Option<Raster> {
    match (Open(disk, referenceFile), Open(disk, bandFile))
    case (Some(reference), Some(src)) => Some(AlignedBand(resample, reference, src))
    case _ => None
  }

  /** `reproject(...)` filling the destination buffer in place, pixel by pixel. */
  method Reproject(resample: Resampler, src: Raster, g: Grid, destination: array2<real>)
    requires destination.Length0 == g.height && destination.Length1 == g.width
    modifies destination
    ensures Snapshot(destination) == Resampled(resample, src, g)
  {
    var i := 0;
    while i < g.height
      invariant 0 <= i <= g.height
      invariant forall i', j' :: 0 <= i' < i && 0 <= j' < g.width ==> destination[i', j'] == resample(src, g, i', j')
    {
      var j := 0;
      while j < g.width
        invariant 0 <= j <= g.width
        invariant forall i', j' :: 0 <= i' < i && 0 <= j' < g.width ==> destination[i', j'] == resample(src, g, i', j')
        invariant forall j' :: 0 <= j' < j ==> destination[i, j'] == resample(src, g, i, j')
      {
        destination[i, j] := resample(src, g, i, j);
        j := j + 1;
      }
      i := i + 1;
    }
    SameMatrix(Snapshot(destination), Resampled(resample, src, g), g.height, g.width);
  }

  // ---- aligning a scene ----

  /** The fixed inputs of one `align_scene` call. */
  datatype Job = Job(resample: Resampler, outputDir: string, scene: string, referenceBand: string, referenceFile: string)

  /** `output_dir / f"{scene_name}_{band_name}_aligned.TIF"`. */
  function OutputPath(job: Job, band: string): string {
    Join(job.outputDir, AlignedName(job.scene, band))
  }

  /** The raster written for one band: a verbatim copy of the reference band, an aligned copy of any other. */
  function ExpectedOutput(job: Job, disk: Disk, band: string, file: string): Option<Raster> {
    if band == job.referenceBand then Open(disk, file)
    else ExpectedAligned(job.resample, disk, file, job.referenceFile)
  }

  /** The disk and the `aligned_files` dict after some bands; files is None once a band has raised. */
  datatype Progress = Progress(disk: Disk, files: Option<ODict<string, string>>)

  /** The band loop of `align_scene`, which stops at the first band that raises. */
  function AlignBands(job: Job, disk: Disk, bands: ODict<string, string>): Progress
    decreases |bands|
  {
    if bands == [] then Progress(disk, Some([]))
    else
      var p := AlignBands(job, disk, bands[..|bands| - 1]);
      var (band, file) := bands[|bands| - 1];
      if p.files.None? then p
      else match ExpectedOutput(job, p.disk, band, file)
        case None => Progress(p.disk, None)
        case Some(r) => Progress(p.disk[OutputPath(job, band) := RasterFile(r)], Some(Put(p.files.value, band, OutputPath(job, band))))
  }

  datatype AlignOutcome = SceneNotFound | ReferenceNotFound | SceneAligned(files: ODict<string, string>) | SceneFailed

  datatype SceneRun = SceneRun(disk: Disk, outcome: AlignOutcome)

  /** `align_scene(scene_name, reference_band)` on the given disk. */
  function AlignSceneOn(resample: Resampler, outputDir: string, scenes: Scenes, disk: Disk, scene: string, referenceBand: string): SceneRun {
    match Get(scenes, scene)
    case None => SceneRun(disk, SceneNotFound)
    case Some(entry) =>
      match Get(entry, referenceBand)
      case None => SceneRun(disk, ReferenceNotFound)
      case Some(referenceFile) =>
        var p := AlignBands(Job(resample, outputDir, scene, referenceBand, referenceFile), disk, entry);
        SceneRun(p.disk, if p.files.Some? then SceneAligned(p.files.value) else SceneFailed)
  }

  /** Once a band has raised, the later bands are not processed. */
  lemma {:induction false} AlignBandsFailureStays(job: Job, disk: Disk, bands: ODict<string, string>, i: int)
    requires 0 <= i <= |bands| && AlignBands(job, disk, bands[..i]).files.None?
    ensures AlignBands(job, disk, bands) == AlignBands(job, disk, bands[..i])
    decreases |bands|
  {
    if i < |bands| {
      assert bands[..|bands| - 1][..i] == bands[..i];
      AlignBandsFailureStays(job, disk, bands[..|bands| - 1], i);
    } else {
      assert bands[..i] == bands;
    }
  }

  /** No output path of the scene is one of the files it reads. */
  predicate OutputsApart(job: Job, bands: ODict<string, string>) {
    forall k :: 0 <= k < |bands| ==>
      && OutputPath(job, bands[k].0) != job.referenceFile
      && forall k' :: 0 <= k' < |bands| ==> OutputPath(job, bands[k].0) != bands[k'].1
  }

  /** The output paths of some bands. */
  ghost function Outputs(job: Job, bands: ODict<string, string>): set<string> {
    set k | 0 <= k < |bands| :: OutputPath(job, bands[k].0)
  }

  /** A completed band loop maps exactly the scene's bands, each to its output path, in the scene's order. */
  lemma {:induction false} AlignBandsFiles(job: Job, disk: Disk, bands: ODict<string, string>)
    requires DistinctKeys(bands)
    ensures var p := AlignBands(job, disk, bands);
      p.files.Some? ==>
        && Keys(p.files.value) == Keys(bands)
        && forall band :: Get(p.files.value, band) == if band in Keys(bands) then Some(OutputPath(job, band)) else None
    decreases |bands|
  {
    if bands != [] {
      var init := bands[..|bands| - 1];
      var (band, file) := bands[|bands| - 1];
      var n := |bands| - 1;
      assert forall k :: 0 <= k < n ==> init[k] == bands[k];
      AlignBandsFiles(job, disk, init);
      var p := AlignBands(job, disk, init);
      KeysIndex(bands);
      KeysIndex(init);
      assert Keys(bands) == Keys(init) + [band];
      if p.files.Some? && ExpectedOutput(job, p.disk, band, file).Some? {
        var files := p.files.value;
        var out := OutputPath(job, band);
        assert band !in Keys(init) by {
          forall k | 0 <= k < n ensures Keys(init)[k] != band {
            assert bands[k].0 != bands[n].0;
          }
        }
        PutKeys(files, band, out);
        forall b ensures Get(Put(files, band, out), b) == if b in Keys(bands) then Some(OutputPath(job, b)) else None {
          PutGet(files, band, out, b);
        }
      }
    }
  }

  /** Distinct bands of a scene have distinct output paths. */
  lemma OutputsDistinct(job: Job, bands: ODict<string, string>, k: int, k': int)
    requires DistinctKeys(bands) && 0 <= k < k' < |bands|
    ensures OutputPath(job, bands[k].0) != OutputPath(job, bands[k'].0)
  {
    if OutputPath(job, bands[k].0) == OutputPath(job, bands[k'].0) {
      AlignedPathInjective(job.outputDir, job.scene, bands[k].0, bands[k'].0);
    }
  }

  /** `path` is not the output path of any of the bands. */
  predicate NotOutput(job: Job, bands: ODict<string, string>, path: string) {
    forall k :: 0 <= k < |bands| ==> path != OutputPath(job, bands[k].0)
  }

  /** Every band yields its output raster on the disk. */
  predicate AllOpen(job: Job, disk: Disk, bands: ODict<string, string>) {
    forall k :: 0 <= k < |bands| ==> ExpectedOutput(job, disk, bands[k].0, bands[k].1).Some?
  }

  /** The disk with each band's expected raster, computed from `disk`, written to its output path in order. */
  function Written(job: Job, disk: Disk, bands: ODict<string, string>): Disk
    decreases |bands|
  {
    if bands == [] then disk
    else
      var (band, file) := bands[|bands| - 1];
      var d := Written(job, disk, bands[..|bands| - 1]);
      match ExpectedOutput(job, disk, band, file)
      case None => d
      case Some(r) => d[OutputPath(job, band) := RasterFile(r)]
  }

  /** Writing the outputs leaves every path that is no output as it was. */
  lemma {:induction false} WrittenElsewhere(job: Job, disk: Disk, bands: ODict<string, string>, path: string)
    requires NotOutput(job, bands, path)
    ensures var d := Written(job, disk, bands);
      (path in d <==> path in disk) && (path in disk ==> d[path] == disk[path])
    decreases |bands|
  {
    if bands != [] {
      var init := bands[..|bands| - 1];
      assert forall k :: 0 <= k < |init| ==> init[k] == bands[k];
      WrittenElsewhere(job, disk, init, path);
    }
  }

  /** Each band's output path holds the band's expected raster. */
  lemma {:induction false} WrittenOutputs(job: Job, disk: Disk, bands: ODict<string, string>, k: int)
    requires DistinctKeys(bands) && AllOpen(job, disk, bands) && 0 <= k < |bands|
    ensures Open(Written(job, disk, bands), OutputPath(job, bands[k].0)) == ExpectedOutput(job, disk, bands[k].0, bands[k].1)
    decreases |bands|
  {
    var n := |bands| - 1;
    if k < n {
      var init := bands[..n];
      assert forall i :: 0 <= i < n ==> init[i] == bands[i];
      OutputsDistinct(job, bands, k, n);
      WrittenOutputs(job, disk, init, k);
    }
  }

  /**
   * When the scene's outputs and inputs are apart, the band loop completes
   * iff every band yields its output on the original disk, and it then
   * leaves exactly the written disk.
   */
  lemma {:induction false} AlignBandsDisk(job: Job, disk: Disk, bands: ODict<string, string>)
    requires OutputsApart(job, bands)
    ensures var p := AlignBands(job, disk, bands);
      && (p.files.Some? <==> AllOpen(job, disk, bands))
      && (p.files.Some? ==> p.disk == Written(job, disk, bands))
    decreases |bands|
  {
    if bands != [] {
      var n := |bands| - 1;
      var init := bands[..n];
      OutputsApartInit(job, bands);
      AlignBandsDisk(job, disk, init);
      if AlignBands(job, disk, init).files.Some? {
        // The band's inputs are not outputs of earlier bands: it reads what the original disk holds.
        ReadsOriginal(job, disk, init, bands[n].0, bands[n].1);
      }
      AllOpenSnoc(job, disk, bands);
    }
  }

  lemma OutputsApartInit(job: Job, bands: ODict<string, string>)
    requires bands != [] && OutputsApart(job, bands)
    ensures var n := |bands| - 1;
      && OutputsApart(job, bands[..n])
      && NotOutput(job, bands[..n], bands[n].1)
      && NotOutput(job, bands[..n], job.referenceFile)
  {
    var n := |bands| - 1;
    assert forall k :: 0 <= k < n ==> bands[..n][k] == bands[k];
  }

  /** A band whose inputs are no earlier output reads the same from the written disk as from the original. */
  lemma ReadsOriginal(job: Job, disk: Disk, bands: ODict<string, string>, band: string, file: string)
    requires NotOutput(job, bands, file) && NotOutput(job, bands, job.referenceFile)
    ensures ExpectedOutput(job, Written(job, disk, bands), band, file) == ExpectedOutput(job, disk, band, file)
  {
    WrittenElsewhere(job, disk, bands, file);
    WrittenElsewhere(job, disk, bands, job.referenceFile);
  }

  lemma AllOpenSnoc(job: Job, disk: Disk, bands: ODict<string, string>)
    requires bands != []
    ensures var n := |bands| - 1;
      AllOpen(job, disk, bands) <==> AllOpen(job, disk, bands[..n]) && ExpectedOutput(job, disk, bands[n].0, bands[n].1).Some?
  {
    var n := |bands| - 1;
    assert forall k :: 0 <= k < n ==> bands[..n][k] == bands[k];
  }

  // ---- the class ----

  /** The default `reference_band` of `align_scene` and `align_all_scenes`. */
  const ReferenceBandDefault := "B4"

  class BandAligner {
    const dataDir: string
    const outputDir: string
    const scenes: Scenes
    /** The file system the aligner reads from and writes to. */
    var disk: Disk

    /** `BandAligner(data_dir, output_dir)` over a data directory whose names are `listing`. */
    constructor(dataDir: string, outputDir: string, listing: seq<string>, disk0: Disk)
      ensures this.dataDir == dataDir && this.outputDir == outputDir && disk == disk0
      ensures scenes == FoundScenes(dataDir, disk0, listing)
    {
      var found := FindScenes(dataDir, disk0, listing);
      this.dataDir := dataDir;
      this.outputDir := outputDir;
      this.scenes := found;
      this.disk := disk0;
    }

    /** `align_band_to_reference`: ok is false when opening either raster raises, and then nothing is written. */
    method AlignBandToReference(resample: Resampler, bandFile: string, referenceFile: string, outputFile: string)
      returns (ok: bool)
      modifies this
      ensures var expected := ExpectedAligned(resample, old(disk), bandFile, referenceFile);
        && ok == expected.Some?
        && disk == if ok then old(disk)[outputFile := RasterFile(expected.value)] else old(disk)
    {
      var reference := Open(disk, referenceFile);
      var src := Open(disk, bandFile);
      if reference.None? || src.None? {
        return false;
      }
      var g := reference.value.grid;
      var alignedData := new real[g.height, g.width]((i, j) => 0.0);
      Reproject(resample, src.value, g, alignedData);
      var profile := reference.value.profile.(dtype := src.value.profile.dtype);
      disk := disk[outputFile := RasterFile(Raster(g, profile, Snapshot(alignedData)))];
      ok := true;
    }

    /** The body of the band loop of `align_scene`: copy the reference band, align any other. */
    method AlignOneBand(resample: Resampler, sceneName: string, bandName: string, bandFile: string, referenceBand: string, referenceFile: string)
      returns (ok: bool)
      modifies this
      ensures var job := Job(resample, outputDir, sceneName, referenceBand, referenceFile);
        var expected := ExpectedOutput(job, old(disk), bandName, bandFile);
        && ok == expected.Some?
        && disk == if ok then old(disk)[OutputPath(job, bandName) := RasterFile(expected.value)] else old(disk)
    {
      var alignedFile := Join(outputDir, AlignedName(sceneName, bandName));
      if bandName == referenceBand {
        var src := Open(disk, bandFile);
        if src.None? {
          return false;
        }
        disk := disk[alignedFile := RasterFile(src.value)];
        ok := true;
      } else {
        ok := AlignBandToReference(resample, bandFile, referenceFile, alignedFile);
      }
    }

    /** `align_scene(scene_name, reference_band)`. */
    method AlignScene(resample: Resampler, sceneName: string, referenceBand: string) returns (outcome: AlignOutcome)
      modifies this
      ensures SceneRun(disk, outcome) == AlignSceneOn(resample, outputDir, scenes, old(disk), sceneName, referenceBand)
    {
      var found := Get(scenes, sceneName);
      if found.None? {
        return SceneNotFound;
      }
      var sceneBands := found.value;
      var reference := Get(sceneBands, referenceBand);
      if reference.None? {
        return ReferenceNotFound;
      }
      var referenceFile := reference.value;
      ghost var job := Job(resample, outputDir, sceneName, referenceBand, referenceFile);
      var alignedFiles: ODict<string, string> := [];
      var i := 0;
      while i < |sceneBands|
        invariant 0 <= i <= |sceneBands|
        invariant AlignBands(job, old(disk), sceneBands[..i]) == Progress(disk, Some(alignedFiles))
      {
        assert sceneBands[..i + 1][..i] == sceneBands[..i];
        var (bandName, bandFile) := sceneBands[i];
        var alignedFile := Join(outputDir, AlignedName(sceneName, bandName));
        var ok := AlignOneBand(resample, sceneName, bandName, bandFile, referenceBand, referenceFile);
        if !ok {
          AlignBandsFailureStays(job, old(disk), sceneBands, i + 1);
          return SceneFailed;
        }
        alignedFiles := Put(alignedFiles, bandName, alignedFile);
        i := i + 1;
      }
      assert sceneBands[..|sceneBands|] == sceneBands;
      outcome := SceneAligned(alignedFiles);
    }

    /** `get_aligned_scene_paths(scene_name)`: the B4 and B5 aligned files that exist. */
    method GetAlignedScenePaths(sceneName: string) returns (alignedPaths: ODict<string, string>)
      ensures alignedPaths == ExistingAligned(outputDir, disk, sceneName, ["B4", "B5"])
    {
      var candidates := ["B4", "B5"];
      alignedPaths := [];
      var k := 0;
      while k < |candidates|
        invariant 0 <= k <= |candidates|
        invariant alignedPaths == ExistingAligned(outputDir, disk, sceneName, candidates[..k])
      {
        assert candidates[..k + 1][..k] == candidates[..k];
        var alignedFile := Join(outputDir, AlignedName(sceneName, candidates[k]));
        if alignedFile in disk {
          alignedPaths := Put(alignedPaths, candidates[k], alignedFile);
        }
        k := k + 1;
      }
      assert candidates[..|candidates|] == candidates;
    }

    /** `align_all_scenes(reference_band)`: a scene that raises is skipped and left out of the result. */
    method AlignAllScenes(resample: Resampler, referenceBand: string) returns (alignedScenes: ODict<string, Option<ODict<string, string>>>)
      modifies this
      ensures var run := AlignAllOn(resample, outputDir, scenes, old(disk), Keys(scenes), referenceBand);
        disk == run.disk && alignedScenes == run.aligned
    {
      alignedScenes := [];
      ghost var d0 := disk;
      ghost var outcomes := [];
      var sceneNames := Keys(scenes);
      var i := 0;
      while i < |sceneNames|
        invariant 0 <= i <= |sceneNames|
        invariant AlignAllOn(resample, outputDir, scenes, d0, sceneNames[..i], referenceBand) == AllRun(disk, alignedScenes, outcomes)
      {
        assert sceneNames[..i + 1][..i] == sceneNames[..i];
        var outcome := AlignScene(resample, sceneNames[i], referenceBand);
        match outcome {
          case SceneFailed =>
          case SceneAligned(files) =>
            alignedScenes := Put(alignedScenes, sceneNames[i], Some(files));
          case _ =>
            alignedScenes := Put(alignedScenes, sceneNames[i], None);
        }
        outcomes := outcomes + [outcome];
        i := i + 1;
      }
      assert sceneNames[..|sceneNames|] == sceneNames;
    }
  }

  // ---- aligned paths and all scenes ----

  /** The candidate bands whose aligned file exists, each mapped to that file. */
  function ExistingAligned(outputDir: string, disk: Disk, scene: string, candidates: seq<string>): ODict<string, string>
    decreases |candidates|
  {
    if candidates == [] then []
    else
      var paths := ExistingAligned(outputDir, disk, scene, candidates[..|candidates| - 1]);
      var band := candidates[|candidates| - 1];
      var file := Join(outputDir, AlignedName(scene, band));
      if file in disk then Put(paths, band, file) else paths
  }

  /** The aligned paths hold B4 and B5 exactly when their files exist, and nothing else. */
  lemma ExistingAlignedSpec(outputDir: string, disk: Disk, scene: string)
    ensures var paths := ExistingAligned(outputDir, disk, scene, ["B4", "B5"]);
      var b4, b5 := Join(outputDir, AlignedName(scene, "B4")), Join(outputDir, AlignedName(scene, "B5"));
      && Keys(paths) == (if b4 in disk then ["B4"] else []) + (if b5 in disk then ["B5"] else [])
      && (forall band :: Get(paths, band) == (
            if band == "B4" && b4 in disk then Some(b4)
            else if band == "B5" && b5 in disk then Some(b5)
            else None))
  {
    var b4, b5 := Join(outputDir, AlignedName(scene, "B4")), Join(outputDir, AlignedName(scene, "B5"));
    var c := ["B4", "B5"];
    assert c[..1] == ["B4"] && c[..1][..0] == [];
    var first := ExistingAligned(outputDir, disk, scene, ["B4"]);
    assert first == if b4 in disk then [("B4", b4)] else [];
    assert forall band :: Get(first, band) == if band == "B4" && b4 in disk then Some(b4) else None;
    if b5 in disk {
      PutKeys(first, "B5", b5);
      forall band ensures Get(Put(first, "B5", b5), band) == if band == "B5" then Some(b5) else Get(first, band) {
        PutGet(first, "B5", b5, band);
      }
    }
  }

  /** The state of `align_all_scenes` after some scenes, with each scene's outcome in order. */
  datatype AllRun = AllRun(disk: Disk, aligned: ODict<string, Option<ODict<string, string>>>, outcomes: seq<AlignOutcome>)

  /** The entry `align_all_scenes` records for a scene's outcome, if any. */
  function Recorded(outcome: AlignOutcome): Option<Option<ODict<string, string>>> {
    match outcome
    case SceneFailed => None
    case SceneAligned(files) => Some(Some(files))
    case _ => Some(None)
  }

  function AlignAllOn(resample: Resampler, outputDir: string, scenes: Scenes, disk: Disk, sceneNames: seq<string>, referenceBand: string): AllRun
    decreases |sceneNames|
  {
    if sceneNames == [] then AllRun(disk, [], [])
    else
      var prev := AlignAllOn(resample, outputDir, scenes, disk, sceneNames[..|sceneNames| - 1], referenceBand);
      var scene := sceneNames[|sceneNames| - 1];
      var run := AlignSceneOn(resample, outputDir, scenes, prev.disk, scene, referenceBand);
      AllRun(run.disk, RecordOutcome(prev.aligned, scene, run.outcome), prev.outcomes + [run.outcome])
  }

  /** `aligned_scenes[scene_name] = aligned_files`, skipped when the scene raised. */
  function RecordOutcome(aligned: ODict<string, Option<ODict<string, string>>>, scene: string, outcome: AlignOutcome): ODict<string, Option<ODict<string, string>>> {
    match Recorded(outcome)
    case None => aligned
    case Some(v) => Put(aligned, scene, v)
  }

  /** `aligned` records, for each of the distinct names, its outcome, and nothing for any other name. */
  ghost predicate RecordsOutcomes(aligned: ODict<string, Option<ODict<string, string>>>, names: seq<string>, outcomes: seq<AlignOutcome>) {
    && |outcomes| == |names|
    && (forall k :: 0 <= k < |names| ==> Get(aligned, names[k]) == Recorded(outcomes[k]))
    && (forall name :: name !in names ==> Get(aligned, name) == None)
  }

  lemma RecordOutcomeStep(aligned: ODict<string, Option<ODict<string, string>>>, names: seq<string>, outcomes: seq<AlignOutcome>, scene: string, outcome: AlignOutcome)
    requires RecordsOutcomes(aligned, names, outcomes) && scene !in names
    ensures RecordsOutcomes(RecordOutcome(aligned, scene, outcome), names + [scene], outcomes + [outcome])
  {
    var v := Recorded(outcome);
    if v.Some? {
      forall name ensures Get(Put(aligned, scene, v.value), name) == if name == scene then v else Get(aligned, name) {
        PutGet(aligned, scene, v.value, name);
      }
    }
  }

  /**
   * Every scene has one outcome; a scene whose alignment raised is absent
   * from the result, every other scene is present with what align_scene
   * returned, and no name outside the scene list appears.
   */
  lemma {:induction false} AlignAllRecords(resample: Resampler, outputDir: string, scenes: Scenes, disk: Disk, sceneNames: seq<string>, referenceBand: string)
    requires forall i, j :: 0 <= i < j < |sceneNames| ==> sceneNames[i] != sceneNames[j]
    ensures var run := AlignAllOn(resample, outputDir, scenes, disk, sceneNames, referenceBand);
      && |run.outcomes| == |sceneNames|
      && (forall k :: 0 <= k < |sceneNames| ==> Get(run.aligned, sceneNames[k]) == Recorded(run.outcomes[k]))
      && (forall name :: name !in sceneNames ==> Get(run.aligned, name) == None)
    decreases |sceneNames|
  {
    if sceneNames != [] {
      var init := sceneNames[..|sceneNames| - 1];
      var scene := sceneNames[|sceneNames| - 1];
      AlignAllRecords(resample, outputDir, scenes, disk, init, referenceBand);
      var prev := AlignAllOn(resample, outputDir, scenes, disk, init, referenceBand);
      var run := AlignSceneOn(resample, outputDir, scenes, prev.disk, scene, referenceBand);
      assert RecordsOutcomes(prev.aligned, init, prev.outcomes);
      assert scene !in init by {
        forall k | 0 <= k < |init| ensures init[k] != scene {
          assert init[k] == sceneNames[k];
        }
      }
      RecordOutcomeStep(prev.aligned, init, prev.outcomes, scene, run.outcome);
      assert init + [scene] == sceneNames;
    }
  }

  // ---- what align_scene promises ----

  /** An unknown scene, or a scene without the reference band, writes nothing. */
  lemma AlignSceneNoOp(resample: Resampler, outputDir: string, scenes: Scenes, disk: Disk, scene: string, referenceBand: string)
    ensures var run := AlignSceneOn(resample, outputDir, scenes, disk, scene, referenceBand);
      && (run.outcome == SceneNotFound <==> Get(scenes, scene).None?)
      && (run.outcome == ReferenceNotFound <==> Get(scenes, scene).Some? && Get(Get(scenes, scene).value, referenceBand).None?)
      && (run.outcome in {SceneNotFound, ReferenceNotFound} ==> run.disk == disk)
  {
  }

  // ---- aligning, then checking ----

  /** The bands `SceneAnalyzer(files)` opens, in the dict's order; None when a file cannot be opened. */
  function BandsOf(disk: Disk, files: ODict<string, string>): Option<seq<Band>>
    decreases |files|
  {
    if files == [] then Some([])
    else
      var (band, path) := files[|files| - 1];
      match (BandsOf(disk, files[..|files| - 1]), Open(disk, path))
      case (Some(bands), Some(r)) => Some(bands + [Band(band, path, r)])
      case _ => None
  }

  lemma {:induction false} BandsOfAllOpen(disk: Disk, files: ODict<string, string>)
    requires forall k :: 0 <= k < |files| ==> Open(disk, files[k].1).Some?
    ensures BandsOf(disk, files).Some?
    ensures var bands := BandsOf(disk, files).value;
      |bands| == |files| &&
      forall k :: 0 <= k < |files| ==> bands[k] == Band(files[k].0, files[k].1, Open(disk, files[k].1).value)
    decreases |files|
  {
    if files != [] {
      var init := files[..|files| - 1];
      assert forall k :: 0 <= k < |init| ==> init[k] == files[k];
      BandsOfAllOpen(disk, init);
    }
  }

  /** The job `align_scene` runs for a scene that has the reference band. */
  function SceneJob(resample: Resampler, outputDir: string, scenes: Scenes, scene: string, referenceBand: string): Job
    requires Get(scenes, scene).Some? && Get(Get(scenes, scene).value, referenceBand).Some?
  {
    Job(resample, outputDir, scene, referenceBand, Get(Get(scenes, scene).value, referenceBand).value)
  }

  /**
   * After a scene is aligned, the reference band's output is a verbatim copy
   * of the reference raster and every other band's output is resampled onto
   * the reference grid with the reference profile.
   */
  lemma AlignSceneWrites(resample: Resampler, outputDir: string, scenes: Scenes, disk: Disk, scene: string, referenceBand: string)
    requires Get(scenes, scene).Some? && Get(Get(scenes, scene).value, referenceBand).Some?
    requires DistinctKeys(Get(scenes, scene).value)
    requires OutputsApart(SceneJob(resample, outputDir, scenes, scene, referenceBand), Get(scenes, scene).value)
    requires AlignSceneOn(resample, outputDir, scenes, disk, scene, referenceBand).outcome.SceneAligned?
    ensures var entry := Get(scenes, scene).value;
      var job := SceneJob(resample, outputDir, scenes, scene, referenceBand);
      var run := AlignSceneOn(resample, outputDir, scenes, disk, scene, referenceBand);
      && Open(disk, job.referenceFile).Some?
      && forall k :: 0 <= k < |entry| ==>
        && Open(disk, entry[k].1).Some?
        && Open(run.disk, OutputPath(job, entry[k].0)) == Some(
          if entry[k].0 == referenceBand then Open(disk, job.referenceFile).value
          else AlignedBand(resample, Open(disk, job.referenceFile).value, Open(disk, entry[k].1).value))
  {
    var entry := Get(scenes, scene).value;
    var job := SceneJob(resample, outputDir, scenes, scene, referenceBand);
    assert AlignSceneOn(resample, outputDir, scenes, disk, scene, referenceBand).disk == AlignBands(job, disk, entry).disk;
    AlignBandsWrites(job, disk, entry);
  }

  /** AlignSceneWrites for the band loop of one job. */
  lemma AlignBandsWrites(job: Job, disk: Disk, bands: ODict<string, string>)
    requires DistinctKeys(bands) && OutputsApart(job, bands)
    requires Get(bands, job.referenceBand) == Some(job.referenceFile)
    requires AlignBands(job, disk, bands).files.Some?
    ensures var d := AlignBands(job, disk, bands).disk;
      && Open(disk, job.referenceFile).Some?
      && forall k :: 0 <= k < |bands| ==>
        && Open(disk, bands[k].1).Some?
        && Open(d, OutputPath(job, bands[k].0)) == Some(
          if bands[k].0 == job.referenceBand then Open(disk, job.referenceFile).value
          else AlignedBand(job.resample, Open(disk, job.referenceFile).value, Open(disk, bands[k].1).value))
  {
    AlignBandsDisk(job, disk, bands);
    GetIffKey(bands, job.referenceBand);
    KeysIndex(bands);
    var r :| 0 <= r < |bands| && bands[r].0 == job.referenceBand;
    GetAt(bands, r);
    ExpectedOutputValue(job, disk, bands[r].0, bands[r].1);
    WrittenAllOutputs(job, disk, bands);
    forall k | 0 <= k < |bands|
      ensures Open(disk, bands[k].1).Some?
      ensures ExpectedOutput(job, disk, bands[k].0, bands[k].1) == Some(
          if bands[k].0 == job.referenceBand then Open(disk, job.referenceFile).value
          else AlignedBand(job.resample, Open(disk, job.referenceFile).value, Open(disk, bands[k].1).value))
    {
      GetAt(bands, k);
      ExpectedOutputValue(job, disk, bands[k].0, bands[k].1);
    }
  }

  /** A band's expected output, when there is one: the reference raster itself, or the band aligned onto it. */
  lemma ExpectedOutputValue(job: Job, disk: Disk, band: string, file: string)
    requires ExpectedOutput(job, disk, band, file).Some?
    requires band == job.referenceBand ==> file == job.referenceFile
    ensures Open(disk, job.referenceFile).Some? && Open(disk, file).Some?
    ensures ExpectedOutput(job, disk, band, file) == Some(
      if band == job.referenceBand then Open(disk, job.referenceFile).value
      else AlignedBand(job.resample, Open(disk, job.referenceFile).value, Open(disk, file).value))
  {
  }

  /** Every band's output path holds the band's expected raster. */
  lemma WrittenAllOutputs(job: Job, disk: Disk, bands: ODict<string, string>)
    requires DistinctKeys(bands) && AllOpen(job, disk, bands)
    ensures forall k :: 0 <= k < |bands| ==>
      Open(Written(job, disk, bands), OutputPath(job, bands[k].0)) == ExpectedOutput(job, disk, bands[k].0, bands[k].1)
  {
    forall k | 0 <= k < |bands|
      ensures Open(Written(job, disk, bands), OutputPath(job, bands[k].0)) == ExpectedOutput(job, disk, bands[k].0, bands[k].1)
    {
      WrittenOutputs(job, disk, bands, k);
    }
  }

  /** Every file an aligned scene returns opens to a raster on the reference band's grid. */
  lemma AlignedOutputsOnReferenceGrid(resample: Resampler, outputDir: string, scenes: Scenes, disk: Disk, scene: string, referenceBand: string)
    requires Get(scenes, scene).Some? && Get(Get(scenes, scene).value, referenceBand).Some?
    requires DistinctKeys(Get(scenes, scene).value)
    requires OutputsApart(SceneJob(resample, outputDir, scenes, scene, referenceBand), Get(scenes, scene).value)
    requires AlignSceneOn(resample, outputDir, scenes, disk, scene, referenceBand).outcome.SceneAligned?
    ensures var job := SceneJob(resample, outputDir, scenes, scene, referenceBand);
      var run := AlignSceneOn(resample, outputDir, scenes, disk, scene, referenceBand);
      var files := run.outcome.files;
      && |files| == |Get(scenes, scene).value|
      && Open(disk, job.referenceFile).Some?
      && forall k :: 0 <= k < |files| ==>
        Open(run.disk, files[k].1).Some? && Open(run.disk, files[k].1).value.grid == Open(disk, job.referenceFile).value.grid
  {
    var entry := Get(scenes, scene).value;
    var job := SceneJob(resample, outputDir, scenes, scene, referenceBand);
    var p := AlignBands(job, disk, entry);
    assert AlignSceneOn(resample, outputDir, scenes, disk, scene, referenceBand) == SceneRun(p.disk, SceneAligned(p.files.value));
    AlignBandsOnReferenceGrid(job, disk, entry);
  }

  /** AlignedOutputsOnReferenceGrid for the band loop of one job. */
  lemma AlignBandsOnReferenceGrid(job: Job, disk: Disk, bands: ODict<string, string>)
    requires DistinctKeys(bands) && OutputsApart(job, bands)
    requires Get(bands, job.referenceBand) == Some(job.referenceFile)
    requires AlignBands(job, disk, bands).files.Some?
    ensures var p := AlignBands(job, disk, bands);
      var files := p.files.value;
      && |files| == |bands|
      && Open(disk, job.referenceFile).Some?
      && forall k :: 0 <= k < |files| ==>
        Open(p.disk, files[k].1).Some? && Open(p.disk, files[k].1).value.grid == Open(disk, job.referenceFile).value.grid
  {
    AlignBandsWrites(job, disk, bands);
    AlignBandsFilesAt(job, disk, bands);
  }

  /** A completed band loop returns, at each position, the scene's band and its output path. */
  lemma AlignBandsFilesAt(job: Job, disk: Disk, bands: ODict<string, string>)
    requires DistinctKeys(bands) && AlignBands(job, disk, bands).files.Some?
    ensures var files := AlignBands(job, disk, bands).files.value;
      |files| == |bands| && forall k :: 0 <= k < |files| ==> files[k] == (bands[k].0, OutputPath(job, bands[k].0))
  {
    var files := AlignBands(job, disk, bands).files.value;
    AlignBandsFiles(job, disk, bands);
    KeysIndex(bands);
    KeysIndex(files);
    DistinctKeysIff(bands);
    DistinctKeysIff(files);
    forall k | 0 <= k < |files|
      ensures files[k] == (bands[k].0, OutputPath(job, bands[k].0))
    {
      GetAt(files, k);
    }
  }

  /**
   * The files an aligned scene returns open to bands that all lie on one
   * grid, so `check_alignment` on them reports the scene aligned.
   */
  lemma AlignThenCheck(lib: GeoLib, resample: Resampler, outputDir: string, scenes: Scenes, disk: Disk, scene: string, referenceBand: string)
    requires Get(scenes, scene).Some? && Get(Get(scenes, scene).value, referenceBand).Some?
    requires DistinctKeys(Get(scenes, scene).value)
    requires OutputsApart(SceneJob(resample, outputDir, scenes, scene, referenceBand), Get(scenes, scene).value)
    requires AlignSceneOn(resample, outputDir, scenes, disk, scene, referenceBand).outcome.SceneAligned?
    ensures var run := AlignSceneOn(resample, outputDir, scenes, disk, scene, referenceBand);
      && BandsOf(run.disk, run.outcome.files).Some?
      && |BandsOf(run.disk, run.outcome.files).value| == |Get(scenes, scene).value|
      && AllMatchReference(lib, BandsOf(run.disk, run.outcome.files).value)
  {
    var job := SceneJob(resample, outputDir, scenes, scene, referenceBand);
    var run := AlignSceneOn(resample, outputDir, scenes, disk, scene, referenceBand);
    var files := run.outcome.files;
    AlignedOutputsOnReferenceGrid(resample, outputDir, scenes, disk, scene, referenceBand);
    BandsOfAllOpen(run.disk, files);
    var bands := BandsOf(run.disk, files).value;
    forall k | 0 <= k < |bands|
      ensures bands[k].raster.grid == Open(disk, job.referenceFile).value.grid
    {
    }
    SameGridAllMatch(lib, bands);
  }

  /**
   * After aligning a scene that `_find_scenes` built, `get_aligned_scene_paths`
   * returns exactly the files `align_scene` returned, provided no aligned B5
   * file was left over for a scene without B5.
   */
  lemma AlignThenGetPaths(resample: Resampler, outputDir: string, dataDir: string, disk0: Disk, listing: seq<string>, disk: Disk, scene: string)
    requires Get(FoundScenes(dataDir, disk0, listing), scene).Some?
    requires Get(Get(FoundScenes(dataDir, disk0, listing), scene).value, ReferenceBandDefault).Some?
    requires var scenes := FoundScenes(dataDir, disk0, listing);
      OutputsApart(SceneJob(resample, outputDir, scenes, scene, ReferenceBandDefault), Get(scenes, scene).value)
    requires AlignSceneOn(resample, outputDir, FoundScenes(dataDir, disk0, listing), disk, scene, ReferenceBandDefault).outcome.SceneAligned?
    requires "B5" !in Keys(Get(FoundScenes(dataDir, disk0, listing), scene).value) ==> Join(outputDir, AlignedName(scene, "B5")) !in disk
    ensures var run := AlignSceneOn(resample, outputDir, FoundScenes(dataDir, disk0, listing), disk, scene, ReferenceBandDefault);
      ExistingAligned(outputDir, run.disk, scene, ["B4", "B5"]) == run.outcome.files
  {
    var scenes := FoundScenes(dataDir, disk0, listing);
    var entry := Get(scenes, scene).value;
    FoundScenesGet(dataDir, disk0, listing, scene);
    SceneEntryShape(dataDir, disk0, LastSceneFile(listing, scene).value);
    var job := SceneJob(resample, outputDir, scenes, scene, ReferenceBandDefault);
    var p := AlignBands(job, disk, entry);
    assert AlignSceneOn(resample, outputDir, scenes, disk, scene, ReferenceBandDefault) == SceneRun(p.disk, SceneAligned(p.files.value));
    AlignBandsThenExisting(job, disk, entry);
  }

  /** AlignThenGetPaths for the band loop of one job over a B4 and possibly a B5 band. */
  lemma AlignBandsThenExisting(job: Job, disk: Disk, bands: ODict<string, string>)
    requires Keys(bands) == ["B4"] || Keys(bands) == ["B4", "B5"]
    requires DistinctKeys(bands) && OutputsApart(job, bands)
    requires AlignBands(job, disk, bands).files.Some?
    requires "B5" !in Keys(bands) ==> Join(job.outputDir, AlignedName(job.scene, "B5")) !in disk
    ensures var p := AlignBands(job, disk, bands);
      ExistingAligned(job.outputDir, p.disk, job.scene, ["B4", "B5"]) == p.files.value
  {
    var p := AlignBands(job, disk, bands);
    var files := p.files.value;
    AlignBandsDisk(job, disk, bands);
    AlignBandsFiles(job, disk, bands);
    KeysIndex(bands);
    var b4, b5 := OutputPath(job, "B4"), OutputPath(job, "B5");
    WrittenOutputs(job, disk, bands, 0);
    assert b4 in p.disk;
    if |bands| == 2 {
      WrittenOutputs(job, disk, bands, 1);
      assert b5 in p.disk;
    } else {
      assert NotOutput(job, bands, b5) by {
        if b5 == b4 {
          AlignedPathInjective(job.outputDir, job.scene, "B5", "B4");
        }
      }
      WrittenElsewhere(job, disk, bands, b5);
    }
    ExistingAlignedSpec(job.outputDir, p.disk, job.scene);
    DistinctKeysIff(bands);
    DistinctKeysIff(files);
    SameEntries(files, ExistingAligned(job.outputDir, p.disk, job.scene, ["B4", "B5"]));
  }
}
