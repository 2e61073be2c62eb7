/**
 * georeference_analysis.py: the metadata record of one band (GeoInfo.get_info)
 * and the three comparisons of a scene's bands against its first band
 * (SceneAnalyzer.check_alignment, AlignmentChecker.check, check_crs and
 * check_raw_bounds). Comparisons are exact: no tolerance is applied.
 */
module Georeference {
  import opened Wrappers
  import opened Rasters
  import opened Text

  /** One entry of a scene's band dict: label, path, and the raster rasterio opens there. */
  datatype Band = Band(bandName: string, path: string, raster: Raster)

  /** The dict get_info returns. Tuples are (x, y) for the centre, (height, width) for the shape. */
  datatype GeoInfo = GeoInfo(
    file: string,
    crs: string,
    boundsWgs84: Bounds,
    centerWgs84: (real, real),
    shape: (nat, nat),
    pixelSize: (real, real))

  function Abs(x: real): real {
    if x < 0.0 then -x else x
  }

  function Max(x: real, y: real): real {
    if x < y then y else x
  }

  /** The bounds get_info reports: transformed unless the CRS is already EPSG:4326. */
  function BoundsWgs84(lib: GeoLib, g: Grid): Bounds {
    if !IsWgs84(g.crs) then lib.toWgs84(g.crs, lib.nativeBounds(g)) else lib.nativeBounds(g)
  }

  function GetInfo(lib: GeoLib, path: string, r: Raster): GeoInfo {
    var b := BoundsWgs84(lib, r.grid);
    GeoInfo(
      BaseName(path),
      r.grid.crs.name,
      b,
      ((b.west + b.east) / 2.0, (b.south + b.north) / 2.0),
      (r.grid.height, r.grid.width),
      (Abs(r.grid.transform.a), Abs(r.grid.transform.e)))
  }

  function Info(lib: GeoLib, b: Band): GeoInfo {
    GetInfo(lib, b.path, b.raster)
  }

  /** A raster already in EPSG:4326 reports its native bounds untouched. */
  lemma GetInfoWgs84Unchanged(lib: GeoLib, path: string, r: Raster)
    requires IsWgs84(r.grid.crs)
    ensures GetInfo(lib, path, r).boundsWgs84 == lib.nativeBounds(r.grid)
    ensures GetInfo(lib, path, r).file == BaseName(path)
  {
  }

  /** The centre lies inside the reported bounds whenever they are ordered. */
  lemma GetInfoCenterInside(lib: GeoLib, path: string, r: Raster)
    requires BoundsWgs84(lib, r.grid).west <= BoundsWgs84(lib, r.grid).east
    requires BoundsWgs84(lib, r.grid).south <= BoundsWgs84(lib, r.grid).north
    ensures var info := GetInfo(lib, path, r);
      && info.boundsWgs84.west <= info.centerWgs84.0 <= info.boundsWgs84.east
      && info.boundsWgs84.south <= info.centerWgs84.1 <= info.boundsWgs84.north
  {
  }

  /** The pixel size is the magnitude of the transform's pixel width and height. */
  lemma GetInfoPixelSize(lib: GeoLib, path: string, r: Raster)
    ensures var ps := GetInfo(lib, path, r).pixelSize;
      && ps.0 >= 0.0 && ps.1 >= 0.0
      && (ps.0 == r.grid.transform.a || ps.0 == -r.grid.transform.a)
      && (ps.1 == r.grid.transform.e || ps.1 == -r.grid.transform.e)
  {
  }

  /** The test check_alignment and check apply: equal WGS84 bounds and equal shape. */
  predicate SameFootprint(x: GeoInfo, y: GeoInfo) {
    x.boundsWgs84 == y.boundsWgs84 && x.shape == y.shape
  }

  /** Every band after the first has the first band's WGS84 bounds and shape. */
  predicate AllMatchReference(lib: GeoLib, bands: seq<Band>) {
    forall k :: 1 <= k < |bands| ==> SameFootprint(Info(lib, bands[k]), Info(lib, bands[0]))
  }

  /** Python dict keys are distinct. */
  predicate DistinctLabels(bands: seq<Band>) {
    forall i, j :: 0 <= i < j < |bands| ==> bands[i].bandName != bands[j].bandName
  }

  /** SceneAnalyzer.check_alignment. */
  method CheckAlignment(lib: GeoLib, bands: seq<Band>) returns (aligned: bool)
    ensures |bands| < 2 ==> aligned
    ensures aligned <==> AllMatchReference(lib, bands)
  {
    if |bands| < 2 {
      return true;
    }
    var refInfo := Info(lib, bands[0]);
    var i := 1;
    while i < |bands|
      invariant 1 <= i <= |bands|
      invariant forall k :: 1 <= k < i ==> SameFootprint(Info(lib, bands[k]), refInfo)
    {
      var info := Info(lib, bands[i]);
      if info.boundsWgs84 != refInfo.boundsWgs84 || info.shape != refInfo.shape {
        return false;
      }
      i := i + 1;
    }
    return true;
  }

  /** The largest of the four absolute corner differences of two bounding boxes. */
  function MaxCornerDiff(x: Bounds, y: Bounds): (d: real)
    ensures d >= 0.0
    ensures Abs(x.west - y.west) <= d && Abs(x.south - y.south) <= d
    ensures Abs(x.east - y.east) <= d && Abs(x.north - y.north) <= d
    ensures d == Abs(x.west - y.west) || d == Abs(x.south - y.south)
         || d == Abs(x.east - y.east) || d == Abs(x.north - y.north)
    ensures d == 0.0 <==> x == y
  {
    Max(Max(Max(Abs(x.west - y.west), Abs(x.south - y.south)), Abs(x.east - y.east)), Abs(x.north - y.north))
  }

  /** What check prints for a misaligned band: its label, the bounds difference, and whether the shapes differ. */
  datatype Mismatch = Mismatch(bandName: string, maxDiff: real, shapeDiffers: bool)

  /** The outcome of AlignmentChecker.check. */
  datatype AlignmentReport =
    | OnlyOneBand
    | Report(reference: string, mismatches: seq<Mismatch>, allAligned: bool)

  function MismatchOf(lib: GeoLib, refInfo: GeoInfo, b: Band): Mismatch {
    var info := Info(lib, b);
    Mismatch(b.bandName, MaxCornerDiff(refInfo.boundsWgs84, info.boundsWgs84), refInfo.shape != info.shape)
  }

  /** The bands check reports as misaligned, in order; bands labelled `refLabel` are skipped. */
  function Mismatches(lib: GeoLib, refLabel: string, refInfo: GeoInfo, bands: seq<Band>): seq<Mismatch>
    decreases |bands|
  {
    if bands == [] then []
    else
      var b := bands[|bands| - 1];
      var prior := Mismatches(lib, refLabel, refInfo, bands[..|bands| - 1]);
      if b.bandName == refLabel || SameFootprint(Info(lib, b), refInfo) then prior
      else prior + [MismatchOf(lib, refInfo, b)]
  }

  /** AlignmentChecker.check: `all_aligned` stays true until a band differs. */
  method Check(lib: GeoLib, bands: seq<Band>) returns (report: AlignmentReport)
    ensures |bands| < 2 <==> report == OnlyOneBand
    ensures |bands| >= 2 ==>
      var ms := Mismatches(lib, bands[0].bandName, Info(lib, bands[0]), bands);
      report == Report(bands[0].bandName, ms, ms == [])
  {
    if |bands| < 2 {
      return OnlyOneBand;
    }
    var refLabel := bands[0].bandName;
    var refInfo := Info(lib, bands[0]);
    var allAligned := true;
    var mismatches: seq<Mismatch> := [];
    var i := 0;
    while i < |bands|
      invariant 0 <= i <= |bands|
      invariant mismatches == Mismatches(lib, refLabel, refInfo, bands[..i])
      invariant allAligned <==> mismatches == []
    {
      assert bands[..i + 1][..i] == bands[..i];
      var b := bands[i];
      if b.bandName != refLabel {
        var info := Info(lib, b);
        var boundsMatch := refInfo.boundsWgs84 == info.boundsWgs84;
        var shapeMatch := refInfo.shape == info.shape;
        if !(boundsMatch && shapeMatch) {
          allAligned := false;
          mismatches := mismatches + [Mismatch(b.bandName, MaxCornerDiff(refInfo.boundsWgs84, info.boundsWgs84), !shapeMatch)];
        }
      }
      i := i + 1;
    }
    assert bands[..|bands|] == bands;
    return Report(refLabel, mismatches, allAligned);
  }

  /** A band is reported exactly when it is not the reference and its footprint differs. */
  lemma {:induction false} MismatchesEmptyIff(lib: GeoLib, refLabel: string, refInfo: GeoInfo, bands: seq<Band>)
    ensures Mismatches(lib, refLabel, refInfo, bands) == [] <==>
      forall k :: 0 <= k < |bands| && bands[k].bandName != refLabel ==> SameFootprint(Info(lib, bands[k]), refInfo)
    decreases |bands|
  {
    if bands != [] {
      var init := bands[..|bands| - 1];
      MismatchesEmptyIff(lib, refLabel, refInfo, init);
      forall k | 0 <= k < |init|
        ensures init[k] == bands[k]
      {
      }
    }
  }

  /** Every reported band really differs: in shape, or by a positive corner difference. */
  lemma {:induction false} MismatchesDiffer(lib: GeoLib, refLabel: string, refInfo: GeoInfo, bands: seq<Band>)
    ensures forall m :: m in Mismatches(lib, refLabel, refInfo, bands) ==>
      m.bandName != refLabel && (m.shapeDiffers || m.maxDiff > 0.0)
    decreases |bands|
  {
    if bands != [] {
      MismatchesDiffer(lib, refLabel, refInfo, bands[..|bands| - 1]);
    }
  }

  /**
   * For a dict (distinct labels) of at least two bands, check's verdict is
   * check_alignment's: skipping by the reference's name skips exactly the
   * first band.
   */
  lemma CheckAgreesWithCheckAlignment(lib: GeoLib, bands: seq<Band>)
    requires |bands| >= 2 && DistinctLabels(bands)
    ensures Mismatches(lib, bands[0].bandName, Info(lib, bands[0]), bands) == [] <==> AllMatchReference(lib, bands)
  {
    MismatchesEmptyIff(lib, bands[0].bandName, Info(lib, bands[0]), bands);
  }

  /** Bands that all share the first band's grid pass check_alignment. */
  lemma SameGridAllMatch(lib: GeoLib, bands: seq<Band>)
    requires forall k :: 0 <= k < |bands| ==> bands[k].raster.grid == bands[0].raster.grid
    ensures AllMatchReference(lib, bands)
  {
  }

  /** What check_crs prints for one non-reference band. */
  datatype CrsVerdict = CrsVerdict(bandName: string, crs: string, sameCrs: bool)

  /** The outcome of AlignmentChecker.check_crs. */
  datatype CrsReport =
    | CrsOnlyOneBand
    | CrsReport(reference: string, referenceCrs: string, verdicts: seq<CrsVerdict>, consistent: bool)

  /** One verdict per band not labelled `refLabel`, in order. */
  function CrsVerdicts(lib: GeoLib, refLabel: string, refCrs: string, bands: seq<Band>): seq<CrsVerdict>
    decreases |bands|
  {
    if bands == [] then []
    else
      var b := bands[|bands| - 1];
      var prior := CrsVerdicts(lib, refLabel, refCrs, bands[..|bands| - 1]);
      if b.bandName == refLabel then prior
      else prior + [CrsVerdict(b.bandName, Info(lib, b).crs, Info(lib, b).crs == refCrs)]
  }

  /** AlignmentChecker.check_crs: `crs_consistent` stays true until a CRS differs. */
  method CheckCrs(lib: GeoLib, bands: seq<Band>) returns (report: CrsReport)
    ensures |bands| < 2 <==> report == CrsOnlyOneBand
    ensures |bands| >= 2 ==>
      var refCrs := Info(lib, bands[0]).crs;
      var vs := CrsVerdicts(lib, bands[0].bandName, refCrs, bands);
      report == CrsReport(bands[0].bandName, refCrs, vs, forall v :: v in vs ==> v.sameCrs)
  {
    if |bands| < 2 {
      return CrsOnlyOneBand;
    }
    var refLabel := bands[0].bandName;
    var refCrs := Info(lib, bands[0]).crs;
    var consistent := true;
    var verdicts: seq<CrsVerdict> := [];
    var i := 0;
    while i < |bands|
      invariant 0 <= i <= |bands|
      invariant verdicts == CrsVerdicts(lib, refLabel, refCrs, bands[..i])
      invariant consistent <==> forall v :: v in verdicts ==> v.sameCrs
    {
      assert bands[..i + 1][..i] == bands[..i];
      var b := bands[i];
      if b.bandName != refLabel {
        var info := Info(lib, b);
        if info.crs != refCrs {
          consistent := false;
        }
        verdicts := verdicts + [CrsVerdict(b.bandName, info.crs, info.crs == refCrs)];
      }
      i := i + 1;
    }
    assert bands[..|bands|] == bands;
    return CrsReport(refLabel, refCrs, verdicts, consistent);
  }

  /** check_crs reports consistency exactly when every band's CRS string is the reference's. */
  lemma {:induction false} CrsVerdictsConsistentIff(lib: GeoLib, refLabel: string, refCrs: string, bands: seq<Band>)
    ensures (forall v :: v in CrsVerdicts(lib, refLabel, refCrs, bands) ==> v.sameCrs) <==>
      forall k :: 0 <= k < |bands| && bands[k].bandName != refLabel ==> Info(lib, bands[k]).crs == refCrs
    decreases |bands|
  {
    if bands != [] {
      var init := bands[..|bands| - 1];
      CrsVerdictsConsistentIff(lib, refLabel, refCrs, init);
      forall k | 0 <= k < |init|
        ensures init[k] == bands[k]
      {
      }
    }
  }

  /** What check_raw_bounds prints for one band; the difference is absent for the reference. */
  datatype RawBoundsLine = RawBoundsLine(bandName: string, crs: string, bounds: Bounds, diffFromReference: Option<real>)

  datatype RawBoundsReport = RawOnlyOneBand | RawBounds(lines: seq<RawBoundsLine>)

  /** AlignmentChecker.check_raw_bounds: native bounds, the reference's carried across iterations. */
  method CheckRawBounds(lib: GeoLib, bands: seq<Band>) returns (report: RawBoundsReport)
    requires DistinctLabels(bands)
    ensures |bands| < 2 <==> report == RawOnlyOneBand
    ensures report.RawBounds? ==> |report.lines| == |bands|
    ensures report.RawBounds? ==> forall k :: 0 <= k < |bands| ==>
      var own := lib.nativeBounds(bands[k].raster.grid);
      report.lines[k] == RawBoundsLine(bands[k].bandName, bands[k].raster.grid.crs.name, own,
        if k == 0 then None else Some(MaxCornerDiff(own, lib.nativeBounds(bands[0].raster.grid))))
  {
    if |bands| < 2 {
      return RawOnlyOneBand;
    }
    var refLabel := bands[0].bandName;
    var refBounds: Option<Bounds> := None;
    var lines: seq<RawBoundsLine> := [];
    var i := 0;
    while i < |bands|
      invariant 0 <= i <= |bands|
      invariant |lines| == i
      invariant i > 0 ==> refBounds == Some(lib.nativeBounds(bands[0].raster.grid))
      invariant forall k :: 0 <= k < i ==>
        var own := lib.nativeBounds(bands[k].raster.grid);
        lines[k] == RawBoundsLine(bands[k].bandName, bands[k].raster.grid.crs.name, own,
          if k == 0 then None else Some(MaxCornerDiff(own, lib.nativeBounds(bands[0].raster.grid))))
    {
      var b := bands[i];
      var bounds := lib.nativeBounds(b.raster.grid);
      var diff: Option<real> := None;
      if b.bandName == refLabel {
        refBounds := Some(bounds);
      } else if refBounds.Some? {
        diff := Some(MaxCornerDiff(bounds, refBounds.value));
      }
      lines := lines + [RawBoundsLine(b.bandName, b.raster.grid.crs.name, bounds, diff)];
      i := i + 1;
    }
    return RawBounds(lines);
  }
}
