/**
 * Where the numbered-output scripts (src/vegetation-ortho.py and
 * vegetation-ortho.py) leave their files: scene k of the B4 list becomes
 * `data/ndvi_{k+1}.tif`, the run completes iff every scene yields a file, and
 * no band file is touched.
 */
module NumberedRuns {
  import opened Text
  import opened Rasters
  import opened Naming
  import opened NdviScripts

  /** `path` does not end in `.tif`, so it is none of the numbered NDVI outputs. */
  predicate NotNumbered(path: string) {
    !EndsWith(path, ".tif")
  }

  lemma NumberedNameIsTif(j: nat)
    ensures !NotNumbered(NumberedNdviName(j))
  {
    var out := NumberedNdviName(j);
    assert out[|out| - 4..] == ".tif";
  }

  /** The Landsat band files, which end in `.TIF`, are never numbered outputs. */
  lemma TifIsNotNumbered(path: string)
    requires EndsWith(path, Tif)
    ensures NotNumbered(path)
  {
    assert path[|path| - 3] == 'T';
  }

  /** Two disks that agree on a path open it alike. */
  lemma OpenOnAgreeingDisks(d1: Disk, d2: Disk, path: string)
    requires path in d1 <==> path in d2
    requires path in d1 ==> d1[path] == d2[path]
    ensures Open(d1, path) == Open(d2, path)
  {
  }

  /** The numbered scripts write only numbered outputs, whether or not they complete. */
  lemma {:induction false} NumberedRunElsewhere(script: NumberedScript, disk: Disk, reds: seq<string>, path: string)
    requires NotNumbered(path)
    ensures var d := NumberedRun(script, disk, reds).disk;
      (path in d <==> path in disk) && (path in disk ==> d[path] == disk[path])
    decreases |reds|
  {
    if reds != [] {
      NumberedRunElsewhere(script, disk, reds[..|reds| - 1], path);
    }
  }

  /** The last scene of a run reads what it would read on the original disk. */
  lemma NumberedLastStep(script: NumberedScript, disk: Disk, reds: seq<string>)
    requires reds != [] && NotNumbered(reds[|reds| - 1]) && NotNumbered(NirPathOf(script.rule, reds[|reds| - 1]))
    ensures var prev := NumberedRun(script, disk, reds[..|reds| - 1]);
      var result := NumberedScene(script, disk, reds[|reds| - 1]);
      NumberedRun(script, disk, reds) == if prev.status.Aborted? then prev else Filed(prev.disk, result, |reds|)
  {
    var init := reds[..|reds| - 1];
    var red := reds[|reds| - 1];
    var prev := NumberedRun(script, disk, init);
    NumberedRunElsewhere(script, disk, init, red);
    NumberedRunElsewhere(script, disk, init, NirPathOf(script.rule, red));
    OpenOnAgreeingDisks(prev.disk, disk, red);
    OpenOnAgreeingDisks(prev.disk, disk, NirPathOf(script.rule, red));
  }

  /**
   * The reference for a numbered run: the scene results written in order as
   * `data/ndvi_1.tif`, `data/ndvi_2.tif`, ..., stopping at the first failure.
   */
  function FiledAll(disk: Disk, results: seq<SceneResult>): ScriptRun
    decreases |results|
  {
    if results == [] then ScriptRun(disk, Completed)
    else
      var prev := FiledAll(disk, results[..|results| - 1]);
      if prev.status.Aborted? then prev else Filed(prev.disk, results[|results| - 1], |results|)
  }

  /** A run that reads no numbered output is the reference applied to what each scene yields on the original disk. */
  lemma {:induction false} NumberedRunIsFiledAll(script: NumberedScript, disk: Disk, reds: seq<string>)
    requires forall k :: 0 <= k < |reds| ==> NotNumbered(reds[k]) && NotNumbered(NirPathOf(script.rule, reds[k]))
    ensures NumberedRun(script, disk, reds) == FiledAll(disk, SceneResults(script, disk, reds))
    decreases |reds|
  {
    if reds != [] {
      var n := |reds| - 1;
      var init := reds[..n];
      assert forall k :: 0 <= k < n ==> init[k] == reds[k];
      NumberedRunIsFiledAll(script, disk, init);
      NumberedLastStep(script, disk, reds);
      SceneResultsSnoc(script, disk, reds);
    }
  }

  lemma SceneResultsSnoc(script: NumberedScript, disk: Disk, reds: seq<string>)
    requires reds != []
    ensures var n := |reds| - 1;
      && SceneResults(script, disk, reds)[..n] == SceneResults(script, disk, reds[..n])
      && SceneResults(script, disk, reds)[n] == NumberedScene(script, disk, reds[n])
  {
    var n := |reds| - 1;
    assert forall k :: 0 <= k < n ==> reds[..n][k] == reds[k];
  }

  lemma {:induction false} FiledAllCompletes(disk: Disk, results: seq<SceneResult>)
    ensures FiledAll(disk, results).status.Completed? <==> forall k :: 0 <= k < |results| ==> results[k].Write?
    decreases |results|
  {
    if results != [] {
      var n := |results| - 1;
      FiledAllCompletes(disk, results[..n]);
      assert forall k :: 0 <= k < n ==> results[..n][k] == results[k];
    }
  }

  lemma {:induction false} FiledAllFiles(disk: Disk, results: seq<SceneResult>)
    requires FiledAll(disk, results).status.Completed?
    ensures var d := FiledAll(disk, results).disk;
      forall k :: 0 <= k < |results| ==> results[k].Write? && NumberedNdviName(k + 1) in d && d[NumberedNdviName(k + 1)] == results[k].file
    decreases |results|
  {
    if results != [] {
      var n := |results| - 1;
      var prev := FiledAll(disk, results[..n]);
      var d := FiledAll(disk, results).disk;
      assert d == prev.disk[NumberedNdviName(n + 1) := results[n].file];
      FiledAllFiles(disk, results[..n]);
      forall k | 0 <= k < n
        ensures results[k].Write? && NumberedNdviName(k + 1) in d && d[NumberedNdviName(k + 1)] == results[k].file
      {
        NumberedNamesDistinct(k + 1, n + 1);
        assert results[..n][k] == results[k];
      }
    }
  }

  lemma {:induction false} FiledAllElsewhere(disk: Disk, results: seq<SceneResult>, path: string)
    requires NotNumbered(path)
    ensures var d := FiledAll(disk, results).disk;
      (path in d <==> path in disk) && (path in disk ==> d[path] == disk[path])
    decreases |results|
  {
    if results != [] {
      FiledAllElsewhere(disk, results[..|results| - 1], path);
      NumberedNameIsTif(|results|);
    }
  }

  /**
   * A run that reads no numbered output completes iff every scene yields a
   * file on the original disk; then scene k's file is `data/ndvi_{k+1}.tif`,
   * and every path that is not a numbered output is untouched either way.
   */
  lemma NumberedRunWrites(script: NumberedScript, disk: Disk, reds: seq<string>)
    requires forall k :: 0 <= k < |reds| ==> NotNumbered(reds[k]) && NotNumbered(NirPathOf(script.rule, reds[k]))
    ensures FiledInOrder(disk, SceneResults(script, disk, reds), NumberedRun(script, disk, reds))
  {
    NumberedRunIsFiledAll(script, disk, reds);
    FiledAllWrites(disk, SceneResults(script, disk, reds));
  }

  /**
   * `run` files `results` in order: it completes iff every result is a file,
   * then result k is at `data/ndvi_{k+1}.tif`, and it leaves every path that
   * is not a numbered output as it was on `disk`.
   */
  ghost predicate FiledInOrder(disk: Disk, results: seq<SceneResult>, run: ScriptRun) {
    && (run.status.Completed? <==> forall k :: 0 <= k < |results| ==> results[k].Write?)
    && (run.status.Completed? ==> forall k :: 0 <= k < |results| ==>
          results[k].Write? && NumberedNdviName(k + 1) in run.disk && run.disk[NumberedNdviName(k + 1)] == results[k].file)
    && (forall path :: NotNumbered(path) ==> (path in run.disk <==> path in disk) && (path in disk ==> run.disk[path] == disk[path]))
  }

  lemma FiledAllWrites(disk: Disk, results: seq<SceneResult>)
    ensures FiledInOrder(disk, results, FiledAll(disk, results))
  {
    var run := FiledAll(disk, results);
    FiledAllCompletes(disk, results);
    if run.status.Completed? {
      FiledAllFiles(disk, results);
    }
    assert run.status.Completed? ==> forall k :: 0 <= k < |results| ==>
      results[k].Write? && NumberedNdviName(k + 1) in run.disk && run.disk[NumberedNdviName(k + 1)] == results[k].file;
    forall path | NotNumbered(path)
      ensures (path in run.disk <==> path in disk) && (path in disk ==> run.disk[path] == disk[path])
    {
      FiledAllElsewhere(disk, results, path);
    }
  }
}
