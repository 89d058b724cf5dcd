/** Tile materials and the threshold classifier that turns a sampled
    noise magnitude into a material (src/main.rs, `TileType` and `get_tile`).
    The source works on `f64`; the thresholds are only compared, never
    computed with, so values are modelled as `real`. */
module Tiles {

  /** The four materials a grid cell can hold. `Empty` is only the
      placeholder the grid is allocated with; the classifier never yields it. */
  datatype TileType = Empty | Mud | Ground | Steel

  /** Upper bound (exclusive) of the Mud band. */
  const MudBound: real := 0.2
  /** Upper bound (exclusive) of the Ground band; everything at or above is Steel. */
  const GroundBound: real := 0.7

  function Abs(v: real): (m: real)
    ensures m >= 0.0
    ensures m == v || m == -v
  {
    if v < 0.0 then -v else v
  }

  /** The classifier: the magnitude of `val` is tested against ordered
      half-open bands from low to high, and the first band that matches wins.
      The contract gives each band in terms of `val` itself, without `Abs`. */
  function GetTile(val: real): (t: TileType)
    ensures t != Empty
    ensures t == Mud <==> -MudBound < val < MudBound
    ensures t == Ground <==> (MudBound <= val < GroundBound || -GroundBound < val <= -MudBound)
    ensures t == Steel <==> (val >= GroundBound || val <= -GroundBound)
  {
    var v := Abs(val);
    if v < MudBound then Mud
    else if v < GroundBound then Ground
    else Steel
  }

  /** The classifier ignores the sign of its input. */
  lemma GetTileSymmetric(v: real)
    ensures GetTile(-v) == GetTile(v)
  {
  }

  /** The band boundaries belong to the upper band, because every guard is a
      strict `<`. */
  lemma GetTileBoundaries()
    ensures GetTile(0.0) == Mud
    ensures GetTile(0.2) == Ground && GetTile(-0.2) == Ground
    ensures GetTile(0.7) == Steel && GetTile(-0.7) == Steel
    ensures GetTile(1.0) == Steel
  {
  }

  /** A reference definition of the classifier: an ordered list of
      (exclusive upper bound, material) bands searched from the front, with a
      fallback material for magnitudes above every bound. */
  function FirstBand(bands: seq<(real, TileType)>, fallback: TileType, m: real): (t: TileType)
    ensures t == fallback || exists i :: 0 <= i < |bands| && t == bands[i].1
    ensures (forall i :: 0 <= i < |bands| ==> m >= bands[i].0) ==> t == fallback
  {
    if bands == [] then fallback
    else if m < bands[0].0 then bands[0].1
    else FirstBand(bands[1..], fallback, m)
  }

  /** First match wins: the result is the material of the lowest band whose
      bound lies above `m`, whatever the later bands say. */
  lemma {:induction false} FirstBandFirstMatch(bands: seq<(real, TileType)>, fallback: TileType, m: real, i: nat)
    requires i < |bands| && m < bands[i].0
    requires forall j :: 0 <= j < i ==> m >= bands[j].0
    ensures FirstBand(bands, fallback, m) == bands[i].1
  {
    if i > 0 {
      FirstBandFirstMatch(bands[1..], fallback, m, i - 1);
    }
  }

  /** The bands `get_tile` uses, lowest first. */
  const Bands: seq<(real, TileType)> := [(MudBound, Mud), (GroundBound, Ground)]

  /** `GetTile` is the first-match search over `Bands` with `Steel` as fallback. */
  lemma GetTileIsFirstBand(v: real)
    ensures GetTile(v) == FirstBand(Bands, Steel, Abs(v))
  {
  }

  /** The digit the debug printer shows for a tile: Mud is `0`, Ground is
      `1`, anything else (Steel, and an unfilled Empty) is `2`. */
  function TileDigit(t: TileType): (d: char)
    ensures d == '0' <==> t == Mud
    ensures d == '1' <==> t == Ground
    ensures d == '2' <==> !(t == Mud || t == Ground)
  {
    if t == Mud then '0'
    else if t == Ground then '1'
    else '2'
  }

  /** The bands are ordered Mud, Ground, Steel: a larger magnitude never
      yields a lower material. */
  lemma GetTileMonotone(a: real, b: real)
    requires Abs(a) <= Abs(b)
    ensures GetTile(a) == Steel ==> GetTile(b) == Steel
    ensures GetTile(b) == Mud ==> GetTile(a) == Mud
  {
  }
}
