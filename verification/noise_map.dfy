/** Procedural generation of the terrain grid (src/main.rs,
    `generate_noise_map`). The Perlin sampler seeded with 43 is a foreign
    library; it is the parameter `noise`, a total function from a noise-space
    point `(nx, ny)` to a value, so everything here holds for whatever that
    sampler returns. */
module NoiseMap {
  import opened Tiles

  /** Number of rows of the grid. */
  const Height: nat := 100
  /** Number of cells in each row. */
  const Width: nat := 100
  /** Noise-space extent covered by the grid along each axis. */
  const Scale: real := 5.0

  /** Noise-space abscissa of column `x`; every column of the grid samples
      inside [0, Scale). */
  function SampleX(x: int): (nx: real)
    ensures 0 <= x < Width ==> 0.0 <= nx < Scale
  {
    x as real / Width as real * Scale
  }

  /** Noise-space ordinate of row `y`; every row of the grid samples inside
      [0, Scale). */
  function SampleY(y: int): (ny: real)
    ensures 0 <= y < Height ==> 0.0 <= ny < Scale
  {
    y as real / Height as real * Scale
  }

  /** Remaps a noise value from [-1, 1] to [0, 1]. */
  function Normalize(n: real): (r: real)
    ensures -1.0 <= n <= 1.0 <==> 0.0 <= r <= 1.0
    ensures n == -1.0 ==> r == 0.0
    ensures n == 1.0 ==> r == 1.0
  {
    (n + 1.0) / 2.0
  }

  /** The remap reaches every point of [0, 1], from a noise value in [-1, 1]. */
  lemma NormalizeOnto(r: real)
    requires 0.0 <= r <= 1.0
    ensures -1.0 <= 2.0 * r - 1.0 <= 1.0 && Normalize(2.0 * r - 1.0) == r
  {
  }

  /** The material the generator assigns to cell `[y][x]`; it is never the
      `Empty` placeholder, whatever the sampler returns. */
  function CellTile(noise: (real, real) -> real, x: int, y: int): (t: TileType)
    ensures t != Empty
  {
    GetTile(Normalize(noise(SampleX(x), SampleY(y))))
  }

  /** For a sampler within its documented range [-1, 1], the material of a
      cell in terms of the raw noise value: below -0.6 is Mud, from -0.6 up to
      (not including) 0.4 is Ground, from 0.4 on is Steel. */
  lemma CellTileBands(noise: (real, real) -> real, x: int, y: int)
    requires -1.0 <= noise(SampleX(x), SampleY(y)) <= 1.0
    ensures var n := noise(SampleX(x), SampleY(y));
      && (CellTile(noise, x, y) == Mud <==> n < -0.6)
      && (CellTile(noise, x, y) == Ground <==> -0.6 <= n < 0.4)
      && (CellTile(noise, x, y) == Steel <==> 0.4 <= n)
  {
  }

  /** The grid the generator returns, as the row-major `Vec<Vec<TileType>>`
      value: `NoiseMap(noise)[y][x]` is the cell in row `y`, column `x`. */
  function NoiseMap(noise: (real, real) -> real): (grid: seq<seq<TileType>>)
    ensures |grid| == Height
    ensures forall y :: 0 <= y < Height ==> |grid[y]| == Width
    ensures forall y, x :: 0 <= y < Height && 0 <= x < Width ==> grid[y][x] != Empty
  {
    seq(Height, y => seq(Width, x => CellTile(noise, x, y)))
  }

  /** Rows are indexed by `y` first: cell `[y][x]` holds the classification
      of the remapped sample at `(SampleX(x), SampleY(y))`. */
  lemma NoiseMapCells(noise: (real, real) -> real)
    ensures forall y, x :: 0 <= y < Height && 0 <= x < Width ==>
      NoiseMap(noise)[y][x] == GetTile((noise(SampleX(x), SampleY(y)) + 1.0) / 2.0)
  {
  }

  /** Two row-major grids of the same shape that agree on every cell are equal. */
  lemma GridsEqual(g1: seq<seq<TileType>>, g2: seq<seq<TileType>>)
    requires |g1| == |g2|
    requires forall y :: 0 <= y < |g1| ==> |g1[y]| == |g2[y]|
    requires forall y, x :: 0 <= y < |g1| && 0 <= x < |g1[y]| ==> g1[y][x] == g2[y][x]
    ensures g1 == g2
  {
    forall y | 0 <= y < |g1|
      ensures g1[y] == g2[y]
    {
    }
  }

  /** Determinism: the grid depends on the sampler only through its values at
      the Height x Width sample points. */
  lemma NoiseMapDeterministic(noise1: (real, real) -> real, noise2: (real, real) -> real)
    requires forall y, x :: 0 <= y < Height && 0 <= x < Width ==>
      noise1(SampleX(x), SampleY(y)) == noise2(SampleX(x), SampleY(y))
    ensures NoiseMap(noise1) == NoiseMap(noise2)
  {
    GridsEqual(NoiseMap(noise1), NoiseMap(noise2));
  }

  /** The contents of a grid array, row by row. */
  function Rows(grid: array2<TileType>): (rows: seq<seq<TileType>>)
    reads grid
    ensures |rows| == grid.Length0
    ensures forall y :: 0 <= y < grid.Length0 ==> |rows[y]| == grid.Length1
    ensures forall y, x :: 0 <= y < grid.Length0 && 0 <= x < grid.Length1 ==> rows[y][x] == grid[y, x]
  {
    seq(grid.Length0, y requires 0 <= y < grid.Length0 reads grid =>
      seq(grid.Length1, x requires 0 <= x < grid.Length1 reads grid => grid[y, x]))
  }

  /** Allocates a Height x Width grid filled with `Empty`, then overwrites
      every cell `[y][x]`, row by row, with the classification of its sample. */
  method GenerateNoiseMap(noise: (real, real) -> real) returns (grid: array2<TileType>)
    ensures fresh(grid)
    ensures grid.Length0 == Height && grid.Length1 == Width
    ensures forall y, x :: 0 <= y < Height && 0 <= x < Width ==> grid[y, x] == CellTile(noise, x, y)
    ensures forall y, x :: 0 <= y < Height && 0 <= x < Width ==> grid[y, x] != Empty
    ensures Rows(grid) == NoiseMap(noise)
  {
    grid := new TileType[Height, Width]((_, _) => Empty);
    for y := 0 to Height
      invariant forall j, i :: 0 <= j < y && 0 <= i < Width ==> grid[j, i] == CellTile(noise, i, j)
      invariant forall j, i :: y <= j < Height && 0 <= i < Width ==> grid[j, i] == Empty
    {
      for x := 0 to Width
        invariant forall j, i :: 0 <= j < y && 0 <= i < Width ==> grid[j, i] == CellTile(noise, i, j)
        invariant forall i :: 0 <= i < x ==> grid[y, i] == CellTile(noise, i, y)
        invariant forall i :: x <= i < Width ==> grid[y, i] == Empty
        invariant forall j, i :: y < j < Height && 0 <= i < Width ==> grid[j, i] == Empty
      {
        var nx := x as real / Width as real * Scale;
        var ny := y as real / Height as real * Scale;
        var noiseValue := noise(nx, ny);
        grid[y, x] := GetTile((noiseValue + 1.0) / 2.0);
      }
    }
    GridsEqual(Rows(grid), NoiseMap(noise));
  }
}
