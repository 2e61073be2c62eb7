/**
 * tests/alignment_testing.py: a test suite that groups the band files of a
 * directory by scene prefix, checks each group's alignment, accumulates one
 * result per tested scene and tallies them in a report. Opening a file that
 * is not a readable raster raises and ends the run.
 */
module AlignmentTesting {
  import opened Wrappers
  import opened OrderedMaps
  import opened Rasters
  import opened Georeference
  import opened Naming
  import opened BandAlignment

  /** The dict `test_scene_alignment` stores: the band keys, the verdict, the number of bands. */
  datatype TestResult = TestResult(scene: seq<string>, aligned: bool, bandsCount: nat)

  function Labels(bands: seq<Band>): (labels: seq<string>)
    ensures |labels| == |bands| && forall k :: 0 <= k < |bands| ==> labels[k] == bands[k].bandName
  {
    seq(|bands|, (k: int) requires 0 <= k < |bands| => bands[k].bandName)
  }

  /** The result recorded for one scene. */
  function ResultOf(lib: GeoLib, bands: seq<Band>): TestResult {
    TestResult(Labels(bands), AllMatchReference(lib, bands), |bands|)
  }

  /** The recorded results of the scenes tested, in order. */
  function ResultsOf(lib: GeoLib, scenes: seq<seq<Band>>): seq<TestResult>
    decreases |scenes|
  {
    if scenes == [] then [] else ResultsOf(lib, scenes[..|scenes| - 1]) + [ResultOf(lib, scenes[|scenes| - 1])]
  }

  /** The printed `Aligned:` verdicts of the scenes checked, in order. */
  function Verdicts(lib: GeoLib, scenes: seq<seq<Band>>): seq<bool>
    decreases |scenes|
  {
    if scenes == [] then [] else Verdicts(lib, scenes[..|scenes| - 1]) + [AllMatchReference(lib, scenes[|scenes| - 1])]
  }

  lemma ResultsSnoc(lib: GeoLib, scenes: seq<seq<Band>>, i: nat)
    requires i < |scenes|
    ensures ResultsOf(lib, scenes[..i + 1]) == ResultsOf(lib, scenes[..i]) + [ResultOf(lib, scenes[i])]
  {
    assert scenes[..i + 1][..i] == scenes[..i];
  }

  lemma VerdictsSnoc(lib: GeoLib, scenes: seq<seq<Band>>, i: nat)
    requires i < |scenes|
    ensures Verdicts(lib, scenes[..i + 1]) == Verdicts(lib, scenes[..i]) + [AllMatchReference(lib, scenes[i])]
  {
    assert scenes[..i + 1][..i] == scenes[..i];
  }

  lemma {:induction false} ResultsAt(lib: GeoLib, scenes: seq<seq<Band>>)
    ensures |ResultsOf(lib, scenes)| == |scenes|
    ensures forall k :: 0 <= k < |scenes| ==> ResultsOf(lib, scenes)[k] == ResultOf(lib, scenes[k])
    decreases |scenes|
  {
    if scenes != [] {
      var init := scenes[..|scenes| - 1];
      ResultsAt(lib, init);
      assert forall k :: 0 <= k < |init| ==> init[k] == scenes[k];
    }
  }

  lemma {:induction false} VerdictsAt(lib: GeoLib, scenes: seq<seq<Band>>)
    ensures |Verdicts(lib, scenes)| == |scenes|
    ensures forall k :: 0 <= k < |scenes| ==> (Verdicts(lib, scenes)[k] <==> AllMatchReference(lib, scenes[k]))
    decreases |scenes|
  {
    if scenes != [] {
      var init := scenes[..|scenes| - 1];
      VerdictsAt(lib, init);
      assert forall k :: 0 <= k < |init| ==> init[k] == scenes[k];
    }
  }

  /**
   * The bands of the groups a run gets through, in the groups' order: each
   * group's files all open, up to the first group with a file that does not.
   */
  function OpenedGroups(disk: Disk, groups: Groups): (reached: seq<seq<Band>>)
    ensures |reached| <= |groups|
    ensures forall i :: 0 <= i < |reached| ==> BandsOf(disk, groups[i].1) == Some(reached[i])
    ensures |reached| < |groups| ==> BandsOf(disk, groups[|reached|].1).None?
    decreases |groups|
  {
    if groups == [] then []
    else match BandsOf(disk, groups[0].1)
      case None => []
      case Some(bands) => [bands] + OpenedGroups(disk, groups[1..])
  }

  /** The number of results whose `aligned` is true, as `sum(1 for r in results if r['aligned'])` counts them. */
  function CountAligned(results: seq<TestResult>): (n: nat)
    ensures n <= |results|
    ensures n == |results| <==> forall k :: 0 <= k < |results| ==> results[k].aligned
    ensures n == 0 <==> forall k :: 0 <= k < |results| ==> !results[k].aligned
    decreases |results|
  {
    if results == [] then 0
    else
      var n := CountAligned(results[..|results| - 1]);
      assert forall k :: 0 <= k < |results| - 1 ==> results[..|results| - 1][k] == results[k];
      if results[|results| - 1].aligned then n + 1 else n
  }

  /** What `generate_report` reports: nothing to report, or the summary tallies. */
  datatype Report = NoResults | Summary(total: nat, aligned: nat, misaligned: nat, successRate: real)

  function ReportOf(results: seq<TestResult>): (r: Report)
    ensures r == NoResults <==> results == []
    ensures r.Summary? ==>
      && r.total == |results| > 0
      && r.aligned == CountAligned(results)
      && r.aligned + r.misaligned == r.total
      && r.successRate * (r.total as real) == (r.aligned as real) * 100.0
      && 0.0 <= r.successRate <= 100.0
  {
    if results == [] then NoResults
    else
      var total := |results|;
      var aligned := CountAligned(results);
      Percentage(aligned, total);
      Summary(total, aligned, total - aligned, (aligned as real) / (total as real) * 100.0)
  }

  /**
   * `(a / t) * 100` for 0 <= a <= t lies in [0, 100], times t gives back
   * 100 a, and is 100 exactly when a == t and 0 exactly when a == 0.
   */
  lemma Percentage(a: nat, t: nat)
    requires 0 < t && a <= t
    ensures var rate := (a as real) / (t as real) * 100.0;
      && rate * (t as real) == (a as real) * 100.0
      && 0.0 <= rate <= 100.0
      && (rate == 100.0 <==> a == t)
      && (rate == 0.0 <==> a == 0)
  {
    var q := (a as real) / (t as real);
    assert q * (t as real) == a as real;
    assert (q - 1.0) * (t as real) == a as real - t as real;
    if a == t {
      ProductZero(q - 1.0, t as real);
    }
  }

  lemma ProductZero(x: real, y: real)
    requires y > 0.0 && x * y == 0.0
    ensures x == 0.0
  {
  }

  /** Every scene passes exactly when the success rate is 100, and none when it is 0. */
  lemma SuccessRateExtremes(results: seq<TestResult>)
    requires results != []
    ensures ReportOf(results).successRate == 100.0 <==> forall k :: 0 <= k < |results| ==> results[k].aligned
    ensures ReportOf(results).successRate == 0.0 <==> forall k :: 0 <= k < |results| ==> !results[k].aligned
  {
    Percentage(CountAligned(results), |results|);
  }

  class TestSuite {
    const dataDir: string
    var results: seq<TestResult>

    constructor(dataDir: string)
      ensures this.dataDir == dataDir && results == []
    {
      this.dataDir := dataDir;
      results := [];
    }

    /**
     * `test_scene_alignment(scene_bands)`: runs the three checks and appends
     * one result whose verdict is check_alignment's.
     */
    method TestSceneAlignment(lib: GeoLib, bands: seq<Band>) returns (isAligned: bool)
      requires DistinctLabels(bands)
      modifies this
      ensures isAligned <==> AllMatchReference(lib, bands)
      ensures results == old(results) + [ResultOf(lib, bands)]
    {
      isAligned := CheckAlignment(lib, bands);
      var crs := CheckCrs(lib, bands);
      var spatial := Check(lib, bands);
      var raw := CheckRawBounds(lib, bands);
      results := results + [TestResult(Labels(bands), isAligned, |bands|)];
    }

    /**
     * `run_all_tests()` over the two glob results: groups the files, then
     * checks each group with check_alignment and check. The verdicts are those
     * of the groups whose files all open; `completed` is false when a file did
     * not open. Nothing is recorded in `results`.
     */
    method RunAllTests(lib: GeoLib, disk: Disk, alignedGlob: seq<string>, tifGlob: seq<string>)
      returns (verdicts: seq<bool>, completed: bool)
      ensures var reached := OpenedGroups(disk, Group(alignedGlob + tifGlob));
        && completed == (|reached| == |Group(alignedGlob + tifGlob)|)
        && verdicts == Verdicts(lib, reached)
    {
      var fileGroups := GroupFiles(alignedGlob + tifGlob);
      ghost var reached := OpenedGroups(disk, fileGroups);
      verdicts := [];
      var i := 0;
      while i < |fileGroups|
        invariant 0 <= i <= |fileGroups| && i <= |reached|
        invariant verdicts == Verdicts(lib, reached[..i])
      {
        var aligned := CheckGroup(lib, disk, fileGroups[i].1);
        if aligned.None? {
          assert reached[..i] == reached;
          return verdicts, false;
        }
        assert i < |reached| && BandsOf(disk, fileGroups[i].1) == Some(reached[i]);
        VerdictsSnoc(lib, reached, i);
        verdicts := verdicts + [aligned.value];
        i := i + 1;
      }
      assert reached[..i] == reached;
      completed := true;
    }

    /**
     * The evidently intended `run_all_tests`: the same loop, recording each
     * group through `test_scene_alignment`.
     */
    method RunAllTestsRecorded(lib: GeoLib, disk: Disk, alignedGlob: seq<string>, tifGlob: seq<string>)
      returns (completed: bool)
      modifies this
      ensures var reached := OpenedGroups(disk, Group(alignedGlob + tifGlob));
        && completed == (|reached| == |Group(alignedGlob + tifGlob)|)
        && results == old(results) + ResultsOf(lib, reached)
    {
      var fileGroups := GroupFiles(alignedGlob + tifGlob);
      GroupDictsDistinct(alignedGlob + tifGlob);
      assert forall k :: 0 <= k < |fileGroups| ==> fileGroups[k] in fileGroups;
      completed := RecordGroups(lib, disk, fileGroups);
    }

    /** The loop of the corrected `run_all_tests` over the grouped files. */
    method RecordGroups(lib: GeoLib, disk: Disk, fileGroups: Groups) returns (completed: bool)
      requires forall k :: 0 <= k < |fileGroups| ==> DistinctKeys(fileGroups[k].1)
      modifies this
      ensures var reached := OpenedGroups(disk, fileGroups);
        && completed == (|reached| == |fileGroups|)
        && results == old(results) + ResultsOf(lib, reached)
    {
      ghost var reached := OpenedGroups(disk, fileGroups);
      ghost var recorded := [];
      var i := 0;
      while i < |fileGroups|
        invariant 0 <= i <= |fileGroups| && i <= |reached|
        invariant recorded == ResultsOf(lib, reached[..i])
        invariant results == old(results) + recorded
      {
        var ok := RecordGroup(lib, disk, fileGroups[i].1);
        if !ok {
          assert reached[..i] == reached;
          return false;
        }
        assert i < |reached| && BandsOf(disk, fileGroups[i].1) == Some(reached[i]);
        ResultsSnoc(lib, reached, i);
        ghost var recorded' := recorded + [ResultOf(lib, reached[i])];
        assert results == old(results) + recorded' by {
          assert |results| == |old(results)| + |recorded'|;
        }
        recorded := recorded';
        i := i + 1;
      }
      assert reached[..i] == reached;
      completed := true;
    }

    /** One pass of the corrected loop: open the group's bands and test them, or fail when a file does not open. */
    method RecordGroup(lib: GeoLib, disk: Disk, files: ODict<string, string>) returns (ok: bool)
      requires DistinctKeys(files)
      modifies this
      ensures ok == BandsOf(disk, files).Some?
      ensures !ok ==> results == old(results)
      ensures ok ==> results == old(results) + [ResultOf(lib, BandsOf(disk, files).value)]
    {
      var bands := BandsOf(disk, files);
      if bands.None? {
        return false;
      }
      GroupBandsDistinct(disk, files);
      var aligned := TestSceneAlignment(lib, bands.value);
      ok := true;
    }

    /** `generate_report()`: the tallies of the results so far (the report file is not modelled). */
    method GenerateReport() returns (report: Report)
      ensures report == ReportOf(results)
    {
      if results == [] {
        return NoResults;
      }
      var totalScenes := |results|;
      var alignedScenes := CountAligned(results);
      var misalignedScenes := totalScenes - alignedScenes;
      report := Summary(totalScenes, alignedScenes, misalignedScenes, (alignedScenes as real) / (totalScenes as real) * 100.0);
    }
  }

  /**
   * One pass of the loop of `run_all_tests`: open the group's bands, then
   * check_alignment and check; None when a file does not open. The bands are
   * opened before either check runs.
   */
  method CheckGroup(lib: GeoLib, disk: Disk, files: ODict<string, string>) returns (aligned: Option<bool>)
    ensures aligned.Some? <==> BandsOf(disk, files).Some?
    ensures aligned.Some? ==> (aligned.value <==> AllMatchReference(lib, BandsOf(disk, files).value))
  {
    var bands := BandsOf(disk, files);
    if bands.None? {
      return None;
    }
    var isAligned := CheckAlignment(lib, bands.value);
    var report := Check(lib, bands.value);
    aligned := Some(isAligned);
  }

  /** A dict's bands carry its distinct keys as their labels. */
  lemma GroupBandsDistinct(disk: Disk, files: ODict<string, string>)
    requires DistinctKeys(files) && BandsOf(disk, files).Some?
    ensures DistinctLabels(BandsOf(disk, files).value)
  {
    BandsOfOpens(disk, files);
    BandsOfAllOpen(disk, files);
  }

  /** `SceneAnalyzer(files)` opens only when every file opens. */
  lemma {:induction false} BandsOfOpens(disk: Disk, files: ODict<string, string>)
    requires BandsOf(disk, files).Some?
    ensures forall k :: 0 <= k < |files| ==> Open(disk, files[k].1).Some?
    decreases |files|
  {
    if files != [] {
      var init := files[..|files| - 1];
      BandsOfOpens(disk, init);
      assert forall k :: 0 <= k < |init| ==> init[k] == files[k];
    }
  }

  /**
   * `main()` as written: `run_all_tests` records nothing, so the report that
   * follows always finds no results. None means the run raised first.
   */
  method MainAsWritten(lib: GeoLib, dataDir: string, disk: Disk, alignedGlob: seq<string>, tifGlob: seq<string>)
    returns (report: Option<Report>)
    ensures report.Some? <==> |OpenedGroups(disk, Group(alignedGlob + tifGlob))| == |Group(alignedGlob + tifGlob)|
    ensures report.Some? ==> report.value == NoResults
  {
    var testSuite := new TestSuite(dataDir);
    var verdicts, completed := testSuite.RunAllTests(lib, disk, alignedGlob, tifGlob);
    if !completed {
      return None;
    }
    var r := testSuite.GenerateReport();
    report := Some(r);
  }

  /**
   * `main()` with the intended recording: when every group opens, the report
   * counts one scene per group and the aligned ones among them.
   */
  method MainRecorded(lib: GeoLib, dataDir: string, disk: Disk, alignedGlob: seq<string>, tifGlob: seq<string>)
    returns (report: Option<Report>)
    ensures var groups := Group(alignedGlob + tifGlob);
      var reached := OpenedGroups(disk, groups);
      && (report.Some? <==> |reached| == |groups|)
      && (report.Some? ==> report.value == ReportOf(ResultsOf(lib, reached)))
  {
    var testSuite := new TestSuite(dataDir);
    var completed := testSuite.RunAllTestsRecorded(lib, disk, alignedGlob, tifGlob);
    if !completed {
      return None;
    }
    ghost var recorded := ResultsOf(lib, OpenedGroups(disk, Group(alignedGlob + tifGlob)));
    assert testSuite.results == [] + recorded == recorded;
    var r := testSuite.GenerateReport();
    report := Some(r);
  }

  /**
   * The recorded report tallies the groups: one scene per group, aligned
   * exactly for the groups whose bands all match the first band; and it is
   * empty only when no file name matched.
   */
  lemma RecordedReportCounts(lib: GeoLib, disk: Disk, paths: seq<string>)
    requires |OpenedGroups(disk, Group(paths))| == |Group(paths)|
    ensures var reached := OpenedGroups(disk, Group(paths));
      var report := ReportOf(ResultsOf(lib, reached));
      && (report == NoResults <==> Group(paths) == [])
      && (report.Summary? ==> report.total == |Group(paths)|)
      && (report.Summary? ==> (report.aligned == |Group(paths)| <==> forall k :: 0 <= k < |reached| ==> AllMatchReference(lib, reached[k])))
  {
    var reached := OpenedGroups(disk, Group(paths));
    var results := ResultsOf(lib, reached);
    ResultsAt(lib, reached);
    assert forall k :: 0 <= k < |reached| ==> results[k].aligned == AllMatchReference(lib, reached[k]);
  }
}
