# Procedural tile-grid generation, modelled in Dafny

This project models the terrain generator of a small Bevy game (`src/main.rs`).
The generator builds a 100 x 100 grid of tiles. Row `y`, column `x` samples a
Perlin noise field at the noise-space point `(x / 100 * 5, y / 100 * 5)`. It
remaps the sample from [-1, 1] to [0, 1] and classifies it into a material by
threshold bands on its magnitude: below 0.2 is Mud, below 0.7 is Ground, and
everything else is Steel.

- `tiles.dfy`, module `Tiles`: the `TileType` enum of src/main.rs:5-11
  (`Empty`, `Mud`, `Ground`, `Steel`, a closed datatype with structural
  equality, as the derived `PartialEq` and `Clone` give) and the classifier `get_tile` (`GetTile`). Also a reference
  definition of it as a first-match search over an ordered band list
  (`FirstBand`), and the tile-to-digit mapping of the debug printer
  (`TileDigit`).
- `noise_map.dfy`, module `NoiseMap`: the grid builder `generate_noise_map`
  (`GenerateNoiseMap`). It is an imperative method over an `array2<TileType>`.
  It allocates the grid filled with `Empty` and overwrites it in place with
  nested row and column loops. Its postcondition ties the array to
  `NoiseMap(noise)`, a value-level description of the returned
  `Vec<Vec<TileType>>`.

The Perlin sampler (`Perlin::new(43)`, a foreign library) is the parameter
`noise: (real, real) -> real` of the generator. Because it is a function,
the grid is fully determined by the sampler and the constants (`Height` =
`Width` = 100, `Scale` = 5). Its documented range [-1, 1] is used only as a
hypothesis of `CellTileBands`. `f64` values are modelled as `real`. The
thresholds are only compared, never computed with.

## Model

| member | source | states |
|---|---|---|
| `Tiles.GetTile` | src/main.rs:46-52 | never `Empty`; Mud exactly when -0.2 < v < 0.2; Ground exactly when 0.2 <= v < 0.7 or -0.7 < v <= -0.2; Steel exactly when v >= 0.7 or v <= -0.7 (the magnitude bands, written without `abs`) |
| `Tiles.Abs` | src/main.rs:47 | the magnitude `val.abs()` is non-negative and is either `v` or `-v` |
| `Tiles.GetTileSymmetric` | src/main.rs:47 | classification ignores the sign: `GetTile(-v) == GetTile(v)` |
| `Tiles.GetTileBoundaries` | src/main.rs:48-50 | each boundary value goes to the upper band (strict `<`): 0.2 and -0.2 are Ground, 0.7 and -0.7 are Steel, 0 is Mud, 1 is Steel |
| `Tiles.FirstBand` | src/main.rs:47-51 | first-match search over ordered (bound, material) bands: the result is the fallback or one of the bands' materials, and it is the fallback when the magnitude reaches every bound |
| `Tiles.FirstBandFirstMatch` | src/main.rs:47-51 | first match wins: for the lowest band `i` whose bound lies above the magnitude (every earlier bound already reached), the search returns band `i`'s material |
| `Tiles.GetTileIsFirstBand` | src/main.rs:47-51 | `GetTile(v)` equals the first-match search over the bands [(0.2, Mud), (0.7, Ground)] with fallback Steel, applied to the magnitude of `v` |
| `Tiles.TileDigit` | src/main.rs:63-69 | the printed digit is '0' exactly for Mud, '1' exactly for Ground, and '2' exactly for every other tile (Steel and Empty) |
| `Tiles.GetTileMonotone` | src/main.rs:47-51 | the bands are ordered Mud, Ground, Steel: if the smaller magnitude is Steel so is the larger, and if the larger is Mud so is the smaller |
| `NoiseMap.SampleX` | src/main.rs:31 | `nx = x / 100 * 5`: every column of the grid samples an abscissa inside [0, 5) |
| `NoiseMap.SampleY` | src/main.rs:32 | `ny = y / 100 * 5`: every row of the grid samples an ordinate inside [0, 5) |
| `NoiseMap.Normalize` | src/main.rs:39 | the remap `(n + 1) / 2` lands in [0, 1] exactly when `n` is in [-1, 1], sending -1 to 0 and 1 to 1 |
| `NoiseMap.NormalizeOnto` | src/main.rs:39 | every point of [0, 1] is the remap of some noise value in [-1, 1], so [-1, 1] is sent onto [0, 1] |
| `NoiseMap.CellTile` | src/main.rs:35-39 | the material written to a cell, `get_tile((noise(nx, ny) + 1) / 2)`, is never `Empty`, whatever the sampler returns |
| `NoiseMap.CellTileBands` | src/main.rs:35-39 | for a noise value `n` in [-1, 1], the cell is Mud exactly when n < -0.6, Ground exactly when -0.6 <= n < 0.4, and Steel exactly when n >= 0.4 |
| `NoiseMap.NoiseMap` | src/main.rs:20-44 | the returned `Vec<Vec<TileType>>` as a value: 100 rows of 100 cells, and no cell is `Empty` |
| `NoiseMap.NoiseMapCells` | src/main.rs:28-39 | rows indexed by `y` first: cell `[y][x]` is `get_tile((noise(x/100*5, y/100*5) + 1) / 2)` |
| `NoiseMap.NoiseMapDeterministic` | src/main.rs:20-44 | determinism: two samplers that agree at the 100 x 100 sample points give cell-for-cell identical grids |
| `NoiseMap.Rows` | src/main.rs:26 | the row-major view of a grid array: one row per first index, each as long as the second dimension, holding exactly the array's cells |
| `NoiseMap.GenerateNoiseMap` | src/main.rs:20-44 | returns a new 100 x 100 array whose every cell `[y, x]` is the classification of its own sample; no cell is left `Empty`; its row-major contents equal `NoiseMap(noise)`. The loop invariants say that finished rows are classified and later rows still hold `Empty` |

## Left out

- The Perlin noise implementation (`noise::Perlin`, seed 43) is a foreign floating-point library. It is the abstract parameter `noise`. Nothing is assumed about it except where `CellTileBands` takes its range [-1, 1] as a hypothesis.
- Exact `f64` rounding in `x as f64 / width as f64 * scale` and in `(noise_value + 1.0) / 2.0` is not modelled. Arithmetic is on `real`. `real` has no NaN, so the source's `get_tile(NaN)` giving Steel (both `<` guards fail on NaN) has no counterpart; the generator never passes a NaN.
- `print_noise_array` (src/main.rs:54-73) is console output. Only its tile-to-digit choice is modelled (`TileDigit`). Its fixed 30 x 30 window would index out of range on grids smaller than 30 rows or columns. It is always called on the 100 x 100 grid here, so this does not arise.
- `main` and `generate_ground` (src/main.rs:13-18, 75-78) wire the generator into the Bevy application and print the result. They are not part of this model.
- Mining, world/grid coordinate mapping, and the Air, Cave and spawn-marker overrides belong to other revisions of the game. The modelled `src/main.rs` has none of them, so they are not part of this model. The same holds for the later thresholds (0.3 and a fourth band).
