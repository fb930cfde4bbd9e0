# Perlin noise generator of NoiseMapViewer, in Dafny

`perlin.js` in NoiseMapViewer implements Ken Perlin's "improved noise"
(2002) and exports `generatePerlinNoise`, which samples it over a grid into a
flat array. `main.js` does not import it (main.js:2 imports only `utils.js`);
the viewer recomputes its noise map with a GPU compute pass (`updateNoiseMap`,
main.js:185-198). This project models `perlin.js`.

- `PerlinNoise` (`perlin.dfy`) is the model.
  - The `Perlin` class owns the 512-entry lookup table, `permutation`. The constructor builds it in two index loops: 256 raw entries, then copied out to 512 entries.
  - `Fade`, `Lerp` and `Grad` are the pure helpers of `noise`.
  - `Perlin.CornerHashes` is the chained lattice hashing, and `Perlin.Blend` is the trilinear blend of the eight corner gradients.
  - `Perlin.Noise` locates the lattice cell of a point and then blends.
  - `GeneratePerlinNoise` builds a fresh `Perlin`. It then samples `noise(x * scale, y * scale, 0)` over a width x height grid in row-major order. The nested loops are `SampleGrid` and `SampleRow`, which are stated over any noise function. `Samples` and `GridCells` state their result.
- `PerlinProperties` (`perlin_properties.dfy`) holds the lemmas about the model:
  - the shape of the fade curve and of interpolation;
  - the gradient table that `grad` encodes;
  - zero noise on the integer lattice;
  - period 256 along every axis;
  - neighbouring cells agree on their shared faces, so noise is continuous across lattice planes. This is what the duplicated table is for: an index one past the first 256 entries reads the entry at the wrapped index;
  - a bound on the noise value.

Every table read in `noise` is in bounds. The preconditions of `Perlin.Blend` and the contract of `Perlin.CornerHashes` ensure this. Every lattice index lies in [0,255], negative coordinates included. Every chained index lies in [0,510], so its `+ 1` neighbour is at most 511.

The table entries are drawn independently, so the table need not be a permutation. The model never assumes that it is.

A consequence worth knowing: at the default `scale` of 1.0, every grid cell is an integer lattice point, so `generatePerlinNoise` returns all zeros (`DefaultScaleIsFlat`).

## Model

| member | source | states |
|---|---|---|
| PerlinNoise.DrawEntry | perlin.js:7 | `floor(r * 256)` for a draw r in [0,1) is a byte, and it is the integer part of `r * 256` |
| PerlinNoise.Perlin.constructor | perlin.js:3-13 | the table has 512 entries, each a byte; entry i is the raw entry drawn for `i & 255`, so the second half repeats the first |
| PerlinNoise.LatticeIndex | perlin.js:32-34 | `floor(c) & 255` lies in [0,255] for every real c, negative ones included |
| PerlinNoise.Offset | perlin.js:35-37 | `c - floor(c)` lies in [0,1) |
| PerlinNoise.Perlin.CornerHashes | perlin.js:41-46 | for byte-sized cell indices, `a`, `b`, `aa`, `ab`, `ba` and `bb` are indices whose `+ 1` neighbour is still inside the 512-entry table |
| PerlinProperties.Wraps | perlin.js:9-12 | reading one past index 255 reads entry 0: the read past a byte index equals the read at the wrapped index |
| PerlinProperties.ChainWraps | perlin.js:41-46 | the chained read `p[e + Y + 1]` equals `p[e + ((Y + 1) & 255)]` for an entry e and a byte Y |
| PerlinNoise.Fade | perlin.js:15-17 | the quintic `6t^5 - 15t^4 + 10t^3`; its properties are stated by `FadeEndpoints`, `FadeSymmetric`, `FadeUnit` and `FadeNonNegative` |
| PerlinNoise.Lerp | perlin.js:19-21 | linear interpolation; its properties are stated by `LerpEndpoints` and `LerpWithin` |
| PerlinNoise.Grad | perlin.js:23-28 | the corner contribution; its properties are stated by `GradIsDotProduct`, `GradLowNibble`, `GradAtOrigin` and `GradBounded` |
| PerlinNoise.Perlin.Blend | perlin.js:48-55 | the trilinear blend of the eight corners, every table read in bounds; its properties are stated by `FaceX`, `FaceY`, `FaceZ` and `BlendBounded` |
| PerlinNoise.Perlin.Noise | perlin.js:30-56 | noise at a real point, every table read in bounds; its properties are stated by `NoiseVanishesAtLattice`, `NoisePeriodic`, `ContinuousAcrossX`/`Y`/`Z` and `NoiseBounded` |
| PerlinNoise.Sample | perlin.js:65 | the sample `noise(x * scale, y * scale, 0)` of one cell; its properties are stated by `SamplesAt`, `SampleOnLattice` and `GridLayout` |
| PerlinProperties.FadeEndpoints | perlin.js:15-17 | fade(0) = 0 and fade(1) = 1 |
| PerlinProperties.FadeSymmetric | perlin.js:15-17 | fade(t) + fade(1 - t) = 1 |
| PerlinProperties.FadeUnit | perlin.js:15-17 | fade maps [0,1] into [0,1] |
| PerlinProperties.FadeNonNegative | perlin.js:15-17 | fade is non-negative on [0,1] |
| PerlinProperties.LerpEndpoints | perlin.js:19-21 | lerp(0, a, b) = a and lerp(1, a, b) = b |
| PerlinProperties.LerpWithin | perlin.js:19-21 | with weight in [0,1], interpolating two values of [-m,m] stays in [-m,m] |
| PerlinProperties.GradIsDotProduct | perlin.js:23-28 | grad is the dot product of the offset with the direction `Gradients[hash & 15]` of the cube-edge gradient table |
| PerlinProperties.GradientsAreEdgeDirections | perlin.js:23-28 | each of the sixteen directions has two components of +1 or -1 and one 0 |
| PerlinProperties.GradLowNibble | perlin.js:24 | grad depends only on the low four bits of the hash |
| PerlinProperties.GradAtOrigin | perlin.js:23-28 | grad at the zero offset is 0 for every hash |
| PerlinProperties.GradBounded | perlin.js:23-28 | with offsets in [-1,1], a corner contributes a value in [-2,2] |
| PerlinProperties.FloorShift | perlin.js:32-37 | shifting a coordinate by an integer n shifts its floor by n |
| PerlinProperties.CellDecomposition | perlin.js:32-37 | the split of a coordinate into an integer cell and an offset in [0,1) is unique: any such split is the floor, the offset and (wrapped) the lattice index that `noise` uses |
| PerlinProperties.IntegerCoordinate | perlin.js:32-37 | an integer coordinate n has offset 0 and lattice index `n & 255` |
| PerlinProperties.ShiftByPeriod | perlin.js:32-37 | a shift by a multiple of 256 leaves the lattice index and the offset unchanged |
| PerlinProperties.NoiseVanishesAtLattice | perlin.js:30-56 | noise is 0 at every integer point, for every table |
| PerlinProperties.NoisePeriodic | perlin.js:30-56 | noise is unchanged by shifts of multiples of 256 along each axis |
| PerlinProperties.FaceX | perlin.js:41-55 | cell X at x-offset 1 blends to the same value as cell `(X + 1) & 255` at x-offset 0 |
| PerlinProperties.FaceY | perlin.js:41-55 | the same agreement between neighbouring cells along y |
| PerlinProperties.FaceZ | perlin.js:41-55 | the same agreement between neighbouring cells along z |
| PerlinProperties.ContinuousAcrossX | perlin.js:30-56 | the cell below the plane x = n, evaluated on its upper face, gives the noise on that plane |
| PerlinProperties.ContinuousAcrossY | perlin.js:30-56 | the same across the plane y = n |
| PerlinProperties.ContinuousAcrossZ | perlin.js:30-56 | the same across the plane z = n |
| PerlinProperties.BlendBounded | perlin.js:48-55 | for offsets in [0,1] the trilinear blend lies in [-2,2] |
| PerlinProperties.NoiseBounded | perlin.js:30-56 | noise lies in [-2,2] everywhere |
| PerlinNoise.Samples | perlin.js:63-67 | one sample per visited cell, in visiting order |
| PerlinNoise.SamplesAt | perlin.js:65-66 | sample k is the noise taken at the k-th visited cell |
| PerlinNoise.RowCellsAt | perlin.js:64 | the inner loop visits n cells, and the x-th is (x, y) |
| PerlinNoise.GridCellsLength | perlin.js:63-64 | the nested loops visit rows * width cells |
| PerlinNoise.RowMajorLayout | perlin.js:63-64 | position `y * width + x` of the visiting order is cell (x, y) |
| PerlinNoise.GridLayout | perlin.js:63-67 | the output has `width * height` values, and the one at `y * width + x` is `noise(x * scale, y * scale, 0)` |
| PerlinNoise.SampleRow | perlin.js:64-67 | the inner loop appends the samples of row y, x ascending, to the array built so far |
| PerlinNoise.SampleGrid | perlin.js:62-69 | the nested loops return exactly `width * height` values (none if either is not positive), the samples of the cells in row-major order |
| PerlinNoise.GeneratePerlinNoise | perlin.js:60-70 | a fresh valid table built from the draws, then the row-major samples of its `noise` over the grid |
| PerlinNoise.SampledAt | perlin.js:62-69 | for any noise function, the sampled array has `width * height` values and the one at `y * width + x` is `noise(x * scale, y * scale, 0)` |
| PerlinNoise.GeneratedAt | perlin.js:60-70 | the generator's output at `y * width + x` is its table's noise at `(x * scale, y * scale, 0)` |
| PerlinProperties.SampleOnLattice | perlin.js:65 | with an integer scale k, cell (x, y) is sampled at the lattice point (x k, y k, 0) |
| PerlinProperties.IntegerScaleIsFlat | perlin.js:60-69 | with an integer scale every sample is 0 |
| PerlinProperties.DefaultScaleIsFlat | perlin.js:60-69 | at the default scale 1.0 every value of the generated map is 0 |

## Left out

- `main.js` is not part of this model. It holds WebGPU device, buffer and pipeline setup, render passes, UI polling and mouse handlers: browser graphics and UI glue. The same goes for its per-frame light easing, which calls `utils.distance`, `utils.lerp1D` and `utils.clamp`, which `utils.js` does not define (main.js:247-250).
- `utils.js` is not part of this model. It loads shader files with `fetch` and hands them to the GPU API, which is I/O only.
- `Math.random()` is not modelled. The constructor takes the 256 draws as a parameter, each in [0,1), and computes `floor(r * 256)` from each as the source does.
- IEEE-754 double arithmetic is not modelled. Coordinates, offsets, fade weights and noise values are exact reals. `NoiseBounded` gives [-2,2] over the reals; no floating-point bound is claimed.
- `NaN` and infinite coordinates are not modelled, because reals have neither.
- `Math.floor(x) & 255` is modelled as the Euclidean `floor(x) % 256`. JavaScript first converts the floor to a 32-bit integer. That conversion is a reduction modulo 2^32, and 256 divides 2^32, so the low eight bits, and hence the result, are the same for every integral floor.
- `GeneratePerlinNoise`: width and height are integers in the model. JavaScript would also accept fractional bounds; the loops would then run for every integer below them. A non-positive width or height gives an empty array, as in the source.
- `GeneratePerlinNoise`: the default argument `scale = 1.0` has no counterpart in Dafny. The caller always passes `scale`, and `DefaultScaleIsFlat` covers the default value.
- `GeneratePerlinNoise`: the constructed `Perlin` is returned as a ghost out-parameter only, so that the contract can name its `noise`. The source keeps it local.
- `perlin.js` samples one octave at z = 0 and returns the raw values: there is no sum over octaves, no min/max normalisation and no x0.5 scaling, so the model has none either.
