/**
 * What the scripts know about a raster file once rasterio has opened it, and
 * the disk they read from and write to.
 */
module Rasters {
  import opened Wrappers

  /** A coordinate reference system: its printed form `str(crs)` and its EPSG code, if any. */
  datatype Crs = Crs(name: string, epsg: Option<nat>)

  const Wgs84Epsg: nat := 4326

  /** The raster is already in WGS84 (EPSG:4326). */
  predicate IsWgs84(c: Crs) {
    c.epsg == Some(Wgs84Epsg)
  }

  /**
   * rasterio's affine transform Affine(a, b, c, d, e, f): a pixel at column x,
   * row y lies at (a*x + b*y + c, d*x + e*y + f). `transform[0]` is `a`, the
   * pixel width; `transform[4]` is `e`, the (usually negative) pixel height.
   */
  datatype Affine = Affine(a: real, b: real, c: real, d: real, e: real, f: real)

  /** The pixel grid of a raster: CRS, transform, height and width. */
  datatype Grid = Grid(crs: Crs, transform: Affine, height: nat, width: nat)

  /** A bounding box (left, bottom, right, top), i.e. (west, south, east, north). */
  datatype Bounds = Bounds(west: real, south: real, east: real, north: real)

  /** A single band of samples, row by row. */
  type Matrix = seq<seq<real>>

  predicate HasShape<T>(m: seq<seq<T>>, height: nat, width: nat) {
    |m| == height && forall i :: 0 <= i < |m| ==> |m[i]| == width
  }

  /** The layout options of a rasterio profile that the model tracks. */
  datatype Profile = Profile(driver: string, dtype: string, nodata: Option<real>)

  /** A single-band raster file's content. */
  datatype Raster = Raster(grid: Grid, profile: Profile, data: Matrix)

  /** The samples fill the grid. */
  predicate WellFormed(r: Raster) {
    HasShape(r.data, r.grid.height, r.grid.width)
  }

  /** A float sample as numpy holds it: a finite value, an infinity, or NaN. */
  datatype Float = Num(v: real) | PosInf | NegInf | NaN

  /** `-1 <= x <= 1` on floats: false for NaN and for the infinities. */
  predicate InUnit(x: Float) {
    x.Num? && -1.0 <= x.v <= 1.0
  }

  /**
   * What a path holds: a raster rasterio can read, a float32 NDVI raster
   * written by one of the NDVI scripts (which the core never reads back), or
   * a file rasterio cannot read.
   */
  datatype File = RasterFile(raster: Raster) | NdviFile(grid: Grid, profile: Profile, ndvi: seq<seq<Float>>) | Unreadable

  /** The file system: path to file; `p in disk` is `Path(p).exists()`. */
  type Disk = map<string, File>

  /**
   * `rasterio.open(path)` for reading: the raster, or None when it raises.
   * What rasterio reads always fills the raster's grid.
   */
  function Open(disk: Disk, path: string): (r: Option<Raster>)
    ensures r.Some? ==> WellFormed(r.value)
  {
    if path in disk && disk[path].RasterFile? && WellFormed(disk[path].raster) then Some(disk[path].raster) else None
  }

  /**
   * The two rasterio services the alignment check relies on, whose code is
   * not part of this model: `src.bounds` (the native bounding box of a grid)
   * and `transform_bounds(crs, EPSG:4326, *bounds)`.
   */
  datatype GeoLib = GeoLib(nativeBounds: Grid -> Bounds, toWgs84: (Crs, Bounds) -> Bounds)

  /**
   * `rasterio.warp.reproject` with bilinear resampling: the value it leaves at
   * row i, column j of a destination on the given grid (zero where the source
   * does not reach). The interpolation itself is not part of this model.
   */
  type Resampler = (Raster, Grid, nat, nat) -> real

  /** The destination buffer `reproject` fills, as a matrix on the destination grid. */
  function Resampled(resample: Resampler, src: Raster, g: Grid): (m: Matrix)
    ensures HasShape(m, g.height, g.width)
    ensures forall i, j :: 0 <= i < g.height && 0 <= j < g.width ==> m[i][j] == resample(src, g, i, j)
  {
    seq(g.height, (i: int) requires 0 <= i < g.height =>
      seq(g.width, (j: int) requires 0 <= j < g.width => resample(src, g, i, j)))
  }

  /** The contents of a 2-D buffer, row by row. */
  function Snapshot<T>(a: array2<T>): (m: seq<seq<T>>)
    reads a
    ensures HasShape(m, a.Length0, a.Length1)
    ensures forall i, j :: 0 <= i < a.Length0 && 0 <= j < a.Length1 ==> m[i][j] == a[i, j]
  {
    seq(a.Length0, i requires 0 <= i < a.Length0 reads a =>
      seq(a.Length1, j requires 0 <= j < a.Length1 reads a => a[i, j]))
  }

  /** Two matrices of one shape with the same samples are equal. */
  lemma SameMatrix<T>(m1: seq<seq<T>>, m2: seq<seq<T>>, height: nat, width: nat)
    requires HasShape(m1, height, width) && HasShape(m2, height, width)
    requires forall i, j :: 0 <= i < height && 0 <= j < width ==> m1[i][j] == m2[i][j]
    ensures m1 == m2
  {
    forall i | 0 <= i < height
      ensures m1[i] == m2[i]
    {
      assert forall j :: 0 <= j < width ==> m1[i][j] == m2[i][j];
    }
  }
}
