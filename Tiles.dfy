/**
  The tile-grid helpers `lat_lon_to_tile_zxy` and `tile_zxy_to_lat_lon`
  (the same code in both packages' `utils`): range validation in a fixed
  order, and the linear relation between longitude and tile column, over
  the reals. The Web Mercator latitude/row formulas (log, tan, cos, exp,
  atan) are passed in as functions and not modelled.
 */
module Tiles {
  import opened Common

  const MinZoomLevel: int := 0
  const MaxZoomLevel: int := 22
  const MinLat: real := -85.051128779807
  const MaxLat: real := 85.051128779806
  const MinLon: real := -180.0
  const MaxLon: real := 180.0

  datatype MapTile = MapTile(x: int, y: int, zoom: int)

  datatype LatLon = LatLon(lat: real, lon: real)

  /** The ValueError raised for a bad argument: which argument, and its accepted range. */
  datatype RangeError =
    | ZoomOutOfRange(zoomLo: int, zoomHi: int)
    | LatitudeOutOfRange(latLo: real, latHi: real)
    | LongitudeOutOfRange(lonLo: real, lonHi: real)
    | TileXOutOfRange(xLo: int, xHi: int)
    | TileYOutOfRange(yLo: int, yHi: int)

  /** `2**z`, the number of tiles along each axis at zoom z. */
  function Pow2(z: nat): (r: nat)
    ensures r >= 1
  {
    if z == 0 then 1 else 2 * Pow2(z - 1)
  }

  /** `int(((lon + 180.0) / 360.0) * 2**z)`; the operand is never negative here, so int() is floor. */
  function LonToTileX(lon: real, z: nat): int
  {
    (((lon + 180.0) / 360.0) * (Pow2(z) as real)).Floor
  }

  /** `(x / 2**z) * 360.0 - 180.0`: the western edge of column x. */
  function TileXToLon(x: int, z: nat): real
  {
    ((x as real) / (Pow2(z) as real)) * 360.0 - 180.0
  }

  /** Dividing by a positive number: a <= g * p gives a / p <= g. */
  lemma DivAtMost(a: real, g: real, p: real)
    requires p > 0.0 && a <= g * p
    ensures a / p <= g
  {
    var q := a / p;
    assert q * p == a;
    assert (g - q) * p >= 0.0;
  }

  /** Dividing by a positive number: g * p < b gives g < b / p. */
  lemma DivAbove(b: real, g: real, p: real)
    requires p > 0.0 && g * p < b
    ensures g < b / p
  {
    var q := b / p;
    assert q * p == b;
    assert (q - g) * p > 0.0;
  }

  /** 0 <= a < p gives 0 <= a / p < 1. */
  lemma FractionBelowOne(a: real, p: real)
    requires 0.0 <= a < p
    ensures 0.0 <= a / p < 1.0
  {
    DivAbove(p, a / p, p);
  }

  /**
    A valid longitude falls in a column between 0 and 2^z inclusive; the
    column is 2^z, one past the last tile, exactly at longitude 180 (the
    result is not clamped).
   */
  lemma LonToTileXBounds(lon: real, z: nat)
    requires MinLon <= lon <= MaxLon
    ensures 0 <= LonToTileX(lon, z) <= Pow2(z)
    ensures LonToTileX(lon, z) == Pow2(z) <==> lon == MaxLon
  {
    var f := (lon + 180.0) / 360.0;
    var p := Pow2(z) as real;
    assert 0.0 <= f <= 1.0;
    assert 0.0 <= f * p <= p by {
      assert f * p <= 1.0 * p;
    }
    if lon == MaxLon {
      assert f * p == p;
      assert (Pow2(z) as real).Floor == Pow2(z);
    } else {
      assert f < 1.0;
      assert f * p < p;
      assert (f * p).Floor < Pow2(z);
    }
  }

  /**
    `lat_lon_to_tile_zxy`: the zoom level is checked first, then the
    latitude, then the longitude, and the first violation is reported; on
    success the tile keeps the zoom level, its column follows from the
    longitude and its row is the Mercator projection `mercatorY` of the
    latitude.
   */
  function LatLonToTileZxy(lat: real, lon: real, zoomLevel: int, mercatorY: (real, nat) -> int)
    : (r: Result<MapTile, RangeError>)
    ensures !(MinZoomLevel <= zoomLevel <= MaxZoomLevel) ==>
      r == Err(ZoomOutOfRange(MinZoomLevel, MaxZoomLevel))
    ensures MinZoomLevel <= zoomLevel <= MaxZoomLevel && !(MinLat <= lat <= MaxLat) ==>
      r == Err(LatitudeOutOfRange(MinLat, MaxLat))
    ensures MinZoomLevel <= zoomLevel <= MaxZoomLevel && MinLat <= lat <= MaxLat && !(MinLon <= lon <= MaxLon) ==>
      r == Err(LongitudeOutOfRange(MinLon, MaxLon))
    ensures r.Ok? <==> MinZoomLevel <= zoomLevel <= MaxZoomLevel && MinLat <= lat <= MaxLat && MinLon <= lon <= MaxLon
    ensures r.Ok? ==>
      && r.value.zoom == zoomLevel
      && 0 <= r.value.x <= Pow2(zoomLevel)
      && (r.value.x == Pow2(zoomLevel) <==> lon == MaxLon)
      && r.value.x == LonToTileX(lon, zoomLevel)
      && r.value.y == mercatorY(lat, zoomLevel)
  {
    if !(MinZoomLevel <= zoomLevel <= MaxZoomLevel) then
      Err(ZoomOutOfRange(MinZoomLevel, MaxZoomLevel))
    else if !(MinLat <= lat <= MaxLat) then
      Err(LatitudeOutOfRange(MinLat, MaxLat))
    else if !(MinLon <= lon <= MaxLon) then
      Err(LongitudeOutOfRange(MinLon, MaxLon))
    else
      var z: nat := zoomLevel;
      LonToTileXBounds(lon, z);
      Ok(MapTile(LonToTileX(lon, z), mercatorY(lat, z), z))
  }

  /**
    Every accepted column starts at a longitude in [-180, 180): the tile
    index range [0, 2^z - 1] covers the whole circle once.
   */
  lemma TileXToLonRange(x: int, z: nat)
    requires 0 <= x <= Pow2(z) - 1
    ensures MinLon <= TileXToLon(x, z) < MaxLon
  {
    FractionBelowOne(x as real, Pow2(z) as real);
  }

  /**
    `tile_zxy_to_lat_lon`: the zoom level is checked first, then x, then y,
    each against [0, 2^z - 1]; on success the longitude is the western edge
    of column x, in [-180, 180), and the latitude is the inverse Mercator
    projection `mercatorLat` of the row.
   */
  function TileZxyToLatLon(zoomLevel: int, x: int, y: int, mercatorLat: (int, nat) -> real)
    : (r: Result<LatLon, RangeError>)
    ensures !(MinZoomLevel <= zoomLevel <= MaxZoomLevel) ==>
      r == Err(ZoomOutOfRange(MinZoomLevel, MaxZoomLevel))
    ensures MinZoomLevel <= zoomLevel <= MaxZoomLevel && !(0 <= x < Pow2(zoomLevel)) ==>
      r == Err(TileXOutOfRange(0, Pow2(zoomLevel) - 1))
    ensures MinZoomLevel <= zoomLevel <= MaxZoomLevel && 0 <= x < Pow2(zoomLevel) && !(0 <= y < Pow2(zoomLevel)) ==>
      r == Err(TileYOutOfRange(0, Pow2(zoomLevel) - 1))
    ensures r.Ok? <==>
      MinZoomLevel <= zoomLevel <= MaxZoomLevel && 0 <= x < Pow2(zoomLevel) && 0 <= y < Pow2(zoomLevel)
    ensures r.Ok? ==>
      && MinLon <= r.value.lon < MaxLon
      && r.value.lon == TileXToLon(x, zoomLevel)
      && r.value.lat == mercatorLat(y, zoomLevel)
  {
    if !(MinZoomLevel <= zoomLevel <= MaxZoomLevel) then
      Err(ZoomOutOfRange(MinZoomLevel, MaxZoomLevel))
    else
      var z: nat := zoomLevel;
      var maxXY := Pow2(z) - 1;
      if !(0 <= x <= maxXY) then
        Err(TileXOutOfRange(0, maxXY))
      else if !(0 <= y <= maxXY) then
        Err(TileYOutOfRange(0, maxXY))
      else
        TileXToLonRange(x, z);
        Ok(LatLon(mercatorLat(y, z), TileXToLon(x, z)))
  }

  /** Column edges move east as the column index grows, starting at -180 for column 0. */
  lemma TileXToLonMonotone(x1: int, x2: int, z: nat)
    requires x1 < x2
    ensures TileXToLon(x1, z) < TileXToLon(x2, z)
    ensures TileXToLon(0, z) == MinLon
  {
    var p := Pow2(z) as real;
    assert ((x1 as real) / p) * p == x1 as real;
    DivAbove(x2 as real, (x1 as real) / p, p);
  }

  /** Tile to longitude and back gives the same column, for every accepted column. */
  lemma ColumnRoundTrip(x: int, z: nat)
    requires 0 <= x < Pow2(z)
    ensures LonToTileX(TileXToLon(x, z), z) == x
  {
    var p := Pow2(z) as real;
    var lon := TileXToLon(x, z);
    assert (lon + 180.0) / 360.0 == (x as real) / p;
    assert ((x as real) / p) * p == x as real;
  }

  /**
    Quantization bound: a longitude west of 180 lies in its column, between
    that column's western edge and the next column's.
   */
  lemma LonWithinColumn(lon: real, z: nat)
    requires MinLon <= lon < MaxLon
    ensures TileXToLon(LonToTileX(lon, z), z) <= lon < TileXToLon(LonToTileX(lon, z) + 1, z)
  {
    var p := Pow2(z) as real;
    var t := ((lon + 180.0) / 360.0) * p;
    var x := LonToTileX(lon, z);
    assert (x as real) <= t < (x as real) + 1.0;
    DivAtMost(x as real, (lon + 180.0) / 360.0, p);
    DivAbove((x + 1) as real, (lon + 180.0) / 360.0, p);
  }

  /**
    The fixtures of the tests: column 163 at zoom 10 for -122.4194, 1024 at
    180, and column 163's western edge at -122.6953125.
   */
  lemma ReferenceColumns()
    ensures LonToTileX(-122.4194, 10) == 163
    ensures LonToTileX(180.0, 10) == 1024
    ensures TileXToLon(163, 10) == -122.6953125
  {
    assert Pow2(10) == 1024;
  }
}
