/**
 * src/coordinate_query.py: which 1-degree elevation tile a raster needs. The
 * tile is named by the floor of the latitude and longitude of the centre of
 * the raster's WGS84 bounds, as in `33, -117`.
 */
module CoordinateQuery {
  import opened Wrappers
  import opened Rasters
  import opened Georeference

  /** The `tile_lat, tile_lon` pair `show_coordinates` prints. */
  datatype Tile = Tile(lat: int, lon: int)

  /** `math.floor`: the integer n with n <= x < n + 1. */
  function Floor(x: real): (n: int)
    ensures n as real <= x < n as real + 1.0
  {
    x.Floor
  }

  /** No other integer satisfies the defining inequality of `math.floor`. */
  lemma FloorUnique(x: real, n: int)
    requires n as real <= x < n as real + 1.0
    ensures n == Floor(x)
  {
    var m := Floor(x);
    assert (n - m) as real < 1.0 && (m - n) as real < 1.0;
  }

  /** The centre of a bounding box, as (latitude, longitude). */
  function CenterLatLon(b: Bounds): (c: (real, real))
    ensures b.south <= b.north ==> b.south <= c.0 <= b.north
    ensures b.west <= b.east ==> b.west <= c.1 <= b.east
    ensures c.0 - b.south == b.north - c.0 && c.1 - b.west == b.east - c.1
  {
    ((b.south + b.north) / 2.0, (b.west + b.east) / 2.0)
  }

  /** The tile whose south-west corner is the floor of the centre. */
  function TileOf(b: Bounds): (t: Tile)
    ensures var c := CenterLatLon(b);
      && t.lat as real <= c.0 < t.lat as real + 1.0
      && t.lon as real <= c.1 < t.lon as real + 1.0
  {
    var c := CenterLatLon(b);
    Tile(Floor(c.0), Floor(c.1))
  }

  /**
   * `show_coordinates(tif_file)`: the tile of the raster's WGS84 bounds; None
   * when the file does not open as a raster (rasterio raises).
   */
  function ShowCoordinates(lib: GeoLib, disk: Disk, path: string): (tile: Option<Tile>)
    ensures tile.Some? <==> Open(disk, path).Some?
    ensures tile.Some? ==>
      var c := CenterLatLon(BoundsWgs84(lib, Open(disk, path).value.grid));
      && tile.value.lat as real <= c.0 < tile.value.lat as real + 1.0
      && tile.value.lon as real <= c.1 < tile.value.lon as real + 1.0
  {
    match Open(disk, path)
    case None => None
    case Some(r) => Some(TileOf(BoundsWgs84(lib, r.grid)))
  }

  /** A raster already in EPSG:4326 is located by its native bounds, with no transform. */
  lemma ShowCoordinatesWgs84(lib: GeoLib, disk: Disk, path: string)
    requires Open(disk, path).Some? && IsWgs84(Open(disk, path).value.grid.crs)
    ensures ShowCoordinates(lib, disk, path) == Some(TileOf(lib.nativeBounds(Open(disk, path).value.grid)))
  {
  }

  /** The centre and tile agree with the centre `get_info` reports (there as (x, y)). */
  lemma ShowCoordinatesAgreesWithGetInfo(lib: GeoLib, disk: Disk, path: string)
    requires Open(disk, path).Some?
    ensures var info := GetInfo(lib, path, Open(disk, path).value);
      ShowCoordinates(lib, disk, path) == Some(Tile(Floor(info.centerWgs84.1), Floor(info.centerWgs84.0)))
  {
  }

  /**
   * Negative centres round toward minus infinity: a box from 33 to 34 north
   * and 117 to 116 west has its centre at (33.5, -116.5) and needs tile
   * `33, -117`.
   */
  lemma SouthernCaliforniaTile()
    ensures TileOf(Bounds(-117.0, 33.0, -116.0, 34.0)) == Tile(33, -117)
  {
    var c := CenterLatLon(Bounds(-117.0, 33.0, -116.0, 34.0));
    assert c == (33.5, -116.5);
    FloorUnique(33.5, 33);
    FloorUnique(-116.5, -117);
  }

  /** Shifting a box by whole degrees shifts its tile by the same amount. */
  lemma TileShift(b: Bounds, dLat: int, dLon: int)
    ensures var shifted := Bounds(b.west + dLon as real, b.south + dLat as real, b.east + dLon as real, b.north + dLat as real);
      TileOf(shifted) == Tile(TileOf(b).lat + dLat, TileOf(b).lon + dLon)
  {
    var shifted := Bounds(b.west + dLon as real, b.south + dLat as real, b.east + dLon as real, b.north + dLat as real);
    var c, c' := CenterLatLon(b), CenterLatLon(shifted);
    var t := TileOf(b);
    assert c'.0 == c.0 + dLat as real && c'.1 == c.1 + dLon as real;
    FloorUnique(c'.0, t.lat + dLat);
    FloorUnique(c'.1, t.lon + dLon);
  }
}
