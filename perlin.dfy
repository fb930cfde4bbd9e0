/** Ken Perlin's "improved noise" (2002) over a lookup table of 256 byte-sized
    entries duplicated to 512, and the sampler that lays it out over a
    width x height grid in row-major order.

    Numbers are modelled as mathematical reals, so the identities below hold
    exactly; the IEEE-754 rounding of JavaScript's double arithmetic is not modelled. */
module PerlinNoise {

  /** Number of distinct table entries, and the length of the duplicated table. */
  const TableSize: int := 256
  const DoubledSize: int := 512

  predicate IsByte(n: int) {
    0 <= n < TableSize
  }

  /** One table entry, `Math.floor(r * 256)` for a draw `r` of `Math.random()`.
      Every entry is a byte because the draw lies in [0,1). */
  function DrawEntry(r: real): (n: int)
    requires 0.0 <= r < 1.0
    ensures IsByte(n)
    ensures n as real <= r * 256.0 < n as real + 1.0
  {
    (r * 256.0).Floor
  }

  /** `Math.floor(c) & 255`: the lattice cell of `c`, wrapped into the table.
      Taken on the floor (not a truncation), so negative coordinates wrap too. */
  function LatticeIndex(c: real): (i: int)
    ensures IsByte(i)
  {
    c.Floor % TableSize
  }

  /** `c - Math.floor(c)`: the position of `c` inside its lattice cell. */
  function Offset(c: real): (f: real)
    ensures 0.0 <= f < 1.0
  {
    c - c.Floor as real
  }

  /** The quintic smoothstep 6t^5 - 15t^4 + 10t^3. */
  function Fade(t: real): real {
    t * t * t * (t * (t * 6.0 - 15.0) + 10.0)
  }

  /** Linear interpolation from `a` (at t = 0) to `b` (at t = 1). */
  function Lerp(t: real, a: real, b: real): real {
    a + t * (b - a)
  }

  /** The contribution of a lattice corner: the low four bits of `hash` pick one
      of sixteen gradient directions, dotted with the offset (x, y, z).
      `hash & 15`, `h & 1` and `h & 2` are the Euclidean remainders below. */
  function Grad(hash: int, x: real, y: real, z: real): real {
    var h := hash % 16;
    var u := if h < 8 then x else y;
    var v := if h < 4 then y else if h == 12 || h == 14 then x else z;
    (if h % 2 == 0 then u else -u) + (if (h / 2) % 2 == 0 then v else -v)
  }

  /** The chained table indices of one lattice cell (names as in the source). */
  datatype Corners = Corners(a: int, b: int, aa: int, ab: int, ba: int, bb: int)

  class Perlin {
    /** The duplicated lookup table, `this.permutation`. */
    const permutation: seq<int>

    /** 512 byte-sized entries whose second half repeats the first. */
    ghost predicate Valid()
    {
      |permutation| == DoubledSize &&
      (forall i :: 0 <= i < DoubledSize ==> IsByte(permutation[i])) &&
      permutation[TableSize..] == permutation[..TableSize]
    }

    /** Builds the 256 raw entries from the given draws (each entry independent,
        so duplicates are possible), then copies them out to 512 entries with
        `p[i & 255]`. */
    constructor (draws: seq<real>)
      requires |draws| == TableSize
      requires forall i :: 0 <= i < |draws| ==> 0.0 <= draws[i] < 1.0
      ensures Valid()
      ensures forall i :: 0 <= i < DoubledSize ==> permutation[i] == DrawEntry(draws[i % TableSize])
    {
      var p: seq<int> := [];
      var i := 0;
      while i < TableSize
        invariant 0 <= i <= TableSize
        invariant |p| == i
        invariant forall k :: 0 <= k < i ==> p[k] == DrawEntry(draws[k])
      {
        p := p + [DrawEntry(draws[i])];
        i := i + 1;
      }
      var table: seq<int> := [];
      i := 0;
      while i < DoubledSize
        invariant 0 <= i <= DoubledSize
        invariant |table| == i
        invariant forall k :: 0 <= k < i ==> table[k] == p[k % TableSize]
      {
        table := table + [p[i % TableSize]];
        i := i + 1;
      }
      permutation := table;
    }

    /** The lattice hashing of `noise`: `a = p[X] + Y`, `aa = p[a] + Z`, and so on.
        Each index is at most 510, so it and its `+ 1` neighbour both lie inside
        the 512-entry table; this is why the table is duplicated. */
    function CornerHashes(X: int, Y: int, Z: int): (c: Corners)
      requires Valid()
      requires IsByte(X) && IsByte(Y) && IsByte(Z)
      ensures 0 <= c.a && c.a + 1 < DoubledSize && 0 <= c.b && c.b + 1 < DoubledSize
      ensures 0 <= c.aa && c.aa + 1 < DoubledSize && 0 <= c.ab && c.ab + 1 < DoubledSize
      ensures 0 <= c.ba && c.ba + 1 < DoubledSize && 0 <= c.bb && c.bb + 1 < DoubledSize
    {
      var p := permutation;
      var a := p[X] + Y;
      var b := p[X + 1] + Y;
      Corners(a, b, p[a] + Z, p[a + 1] + Z, p[b] + Z, p[b + 1] + Z)
    }

    /** The trilinear blend of the eight corner contributions of cell (X, Y, Z)
        at offsets (x, y, z) inside it: over x innermost, then y, then z. */
    function Blend(X: int, Y: int, Z: int, x: real, y: real, z: real): real
      requires Valid()
      requires IsByte(X) && IsByte(Y) && IsByte(Z)
    {
      var p := permutation;
      var c := CornerHashes(X, Y, Z);
      var u, v, w := Fade(x), Fade(y), Fade(z);
      Lerp(w, Lerp(v, Lerp(u, Grad(p[c.aa], x, y, z),
                              Grad(p[c.ba], x - 1.0, y, z)),
                      Lerp(u, Grad(p[c.ab], x, y - 1.0, z),
                              Grad(p[c.bb], x - 1.0, y - 1.0, z))),
              Lerp(v, Lerp(u, Grad(p[c.aa + 1], x, y, z - 1.0),
                              Grad(p[c.ba + 1], x - 1.0, y, z - 1.0)),
                      Lerp(u, Grad(p[c.ab + 1], x, y - 1.0, z - 1.0),
                              Grad(p[c.bb + 1], x - 1.0, y - 1.0, z - 1.0))))
    }

    /** Noise at (x, y, z): locate the lattice cell and the offsets inside it,
        then blend. Total over all reals; every table read is in bounds. */
    function Noise(x: real, y: real, z: real): real
      requires Valid()
    {
      Blend(LatticeIndex(x), LatticeIndex(y), LatticeIndex(z), Offset(x), Offset(y), Offset(z))
    }
  }

  /** A noise function of three coordinates, such as `Perlin.Noise`. */
  type NoiseFunction = (real, real, real) --> real

  ghost predicate Total(noise: NoiseFunction) {
    forall x, y, z :: noise.requires(x, y, z)
  }

  /** A pixel position of the sampling grid. */
  datatype Cell = Cell(x: int, y: int)

  /** The noise coordinate `n * scale` of grid position `n`. */
  function Coordinate(n: int, scale: real): real {
    n as real * scale
  }

  /** `noise(x * scale, y * scale, 0)`: the sample taken at grid cell (x, y). */
  function Sample(noise: NoiseFunction, cell: Cell, scale: real): real
    requires Total(noise)
  {
    noise(Coordinate(cell.x, scale), Coordinate(cell.y, scale), 0.0)
  }

  /** The first `n` cells of row `y`, x ascending. */
  ghost function RowCells(y: int, n: nat): seq<Cell> {
    if n == 0 then [] else RowCells(y, n - 1) + [Cell(n - 1, y)]
  }

  /** The first `rows` rows of a grid `width` wide, y ascending: the order in
      which the generator visits the cells. */
  ghost function GridCells(width: nat, rows: nat): seq<Cell> {
    if rows == 0 then [] else GridCells(width, rows - 1) + RowCells(rows - 1, width)
  }

  /** The samples of `cells`, in order. */
  ghost function Samples(noise: NoiseFunction, cells: seq<Cell>, scale: real): (r: seq<real>)
    requires Total(noise)
    ensures |r| == |cells|
  {
    if cells == [] then []
    else Samples(noise, cells[..|cells| - 1], scale) + [Sample(noise, cells[|cells| - 1], scale)]
  }

  lemma {:induction false} RowCellsAt(y: int, n: nat, x: int)
    requires 0 <= x < n
    ensures |RowCells(y, n)| == n
    ensures RowCells(y, n)[x] == Cell(x, y)
  {
    if x < n - 1 {
      RowCellsAt(y, n - 1, x);
    } else if n > 1 {
      RowCellsAt(y, n - 1, 0);
    }
  }

  lemma {:induction false} GridCellsLength(width: nat, rows: nat)
    ensures |GridCells(width, rows)| == rows * width
  {
    if rows > 0 {
      GridCellsLength(width, rows - 1);
      if width > 0 {
        RowCellsAt(rows - 1, width, 0);
      }
      assert (rows - 1) * width + width == rows * width;
    }
  }

  /** Row-major layout: the visiting order has `width * rows` cells and
      position `y * width + x` is cell (x, y). */
  lemma {:induction false} RowMajorLayout(width: nat, rows: nat, y: int, x: int)
    requires 0 <= y < rows && 0 <= x < width
    ensures |GridCells(width, rows)| == rows * width
    ensures y * width + x < rows * width
    ensures GridCells(width, rows)[y * width + x] == Cell(x, y)
  {
    GridCellsLength(width, rows);
    GridCellsLength(width, rows - 1);
    if y < rows - 1 {
      RowMajorLayout(width, rows - 1, y, x);
      assert (rows - 1) * width <= rows * width;
    } else {
      RowCellsAt(y, width, x);
    }
  }

  lemma {:induction false} SamplesAt(noise: NoiseFunction, cells: seq<Cell>, scale: real, k: int)
    requires Total(noise) && 0 <= k < |cells|
    ensures Samples(noise, cells, scale)[k] == Sample(noise, cells[k], scale)
  {
    if k < |cells| - 1 {
      SamplesAt(noise, cells[..|cells| - 1], scale, k);
    }
  }

  /** The sampled grid is row-major: `width * rows` values, and the one at
      `y * width + x` is `noise(x * scale, y * scale, 0)`. */
  lemma GridLayout(noise: NoiseFunction, width: nat, rows: nat, scale: real, y: int, x: int)
    requires Total(noise)
    requires 0 <= y < rows && 0 <= x < width
    ensures |Samples(noise, GridCells(width, rows), scale)| == rows * width
    ensures y * width + x < rows * width
    ensures Samples(noise, GridCells(width, rows), scale)[y * width + x] == Sample(noise, Cell(x, y), scale)
  {
    RowMajorLayout(width, rows, y, x);
    SamplesAt(noise, GridCells(width, rows), scale, y * width + x);
  }

  lemma GridSize(width: int, height: int, y: int)
    requires 0 <= y && (if height > 0 then y == height else y == 0)
    ensures |GridCells(if width > 0 then width else 0, y)| == if width > 0 && height > 0 then width * height else 0
  {
    GridCellsLength(if width > 0 then width else 0, y);
  }

  lemma GridStep(noise: NoiseFunction, done: seq<Cell>, y: int, x: nat, scale: real)
    requires Total(noise)
    ensures Samples(noise, done + RowCells(y, x + 1), scale)
         == Samples(noise, done + RowCells(y, x), scale) + [Sample(noise, Cell(x, y), scale)]
  {
    var cells := done + RowCells(y, x + 1);
    assert cells == (done + RowCells(y, x)) + [Cell(x, y)];
    assert cells[..|cells| - 1] == done + RowCells(y, x);
  }

  /** The inner loop of `generatePerlinNoise`: pushes the samples of row `y`,
      x ascending, onto `noiseArray`, which holds the samples of `done`. */
  method SampleRow(noise: NoiseFunction, width: int, y: int, scale: real, noiseArray: seq<real>, ghost done: seq<Cell>)
    returns (extended: seq<real>)
    requires Total(noise)
    requires noiseArray == Samples(noise, done, scale)
    ensures extended == Samples(noise, done + RowCells(y, if width > 0 then width else 0), scale)
  {
    extended := noiseArray;
    var x := 0;
    assert done + RowCells(y, 0) == done;
    while x < width
      invariant 0 <= x && (if width > 0 then x <= width else x == 0)
      invariant extended == Samples(noise, done + RowCells(y, x), scale)
    {
      var value := Sample(noise, Cell(x, y), scale);
      GridStep(noise, done, y, x, scale);
      extended := extended + [value];
      x := x + 1;
    }
  }

  /** The nested loop of `generatePerlinNoise` over the noise function it
      calls: y in the outer loop, x in the inner one, each sample pushed onto
      a flat array. A non-positive width or height gives an empty array, as
      the loops then never run. */
  method SampleGrid(noise: NoiseFunction, width: int, height: int, scale: real) returns (noiseArray: seq<real>)
    requires Total(noise)
    ensures |noiseArray| == if width > 0 && height > 0 then width * height else 0
    ensures noiseArray == Samples(noise, GridCells(if width > 0 then width else 0, if height > 0 then height else 0), scale)
  {
    ghost var w: nat := if width > 0 then width else 0;
    noiseArray := [];
    var y := 0;
    while y < height
      invariant 0 <= y && (if height > 0 then y <= height else y == 0)
      invariant noiseArray == Samples(noise, GridCells(w, y), scale)
    {
      noiseArray := SampleRow(noise, width, y, scale, noiseArray, GridCells(w, y));
      assert GridCells(w, y) + RowCells(y, w) == GridCells(w, y + 1);
      y := y + 1;
    }
    GridSize(width, height, y);
  }

  /** `generatePerlinNoise(width, height, scale)`: a fresh table from `draws`,
      then `noise(x * scale, y * scale, 0)` sampled over the grid in row-major
      order. */
  method GeneratePerlinNoise(draws: seq<real>, width: int, height: int, scale: real)
    returns (noiseArray: seq<real>, ghost perlin: Perlin)
    requires |draws| == TableSize
    requires forall i :: 0 <= i < |draws| ==> 0.0 <= draws[i] < 1.0
    ensures fresh(perlin) && perlin.Valid()
    ensures forall i :: 0 <= i < DoubledSize ==> perlin.permutation[i] == DrawEntry(draws[i % TableSize])
    ensures |noiseArray| == if width > 0 && height > 0 then width * height else 0
    ensures noiseArray == Samples(perlin.Noise, GridCells(if width > 0 then width else 0, if height > 0 then height else 0), scale)
  {
    var generator := new Perlin(draws);
    perlin := generator;
    noiseArray := SampleGrid(generator.Noise, width, height, scale);
  }

  /** Where a value of the sampled map comes from: the value at
      `y * width + x` is `noise(x * scale, y * scale, 0)`. */
  lemma SampledAt(noise: NoiseFunction, noiseArray: seq<real>, width: int, height: int, scale: real, y: int, x: int)
    requires Total(noise)
    requires noiseArray == Samples(noise, GridCells(if width > 0 then width else 0, if height > 0 then height else 0), scale)
    requires 0 <= y < height && 0 <= x < width
    ensures |noiseArray| == width * height
    ensures 0 <= y * width + x < |noiseArray|
    ensures noiseArray[y * width + x] == noise(Coordinate(x, scale), Coordinate(y, scale), 0.0)
  {
    assert noiseArray == Samples(noise, GridCells(width, height), scale);
    GridLayout(noise, width, height, scale, y, x);
    assert height * width == width * height;
    ProductOfNaturals(y, width);
    SampleOfCell(noise, x, y, scale);
  }

  // Proof step only: keeps the non-linear bound in `SampledAt` cheap for the solver.
  lemma ProductOfNaturals(a: nat, b: nat)
    ensures 0 <= a * b
  {
  }

  // Proof step only: unfolds `Sample` for `SampledAt` without the solver's costly search.
  lemma SampleOfCell(noise: NoiseFunction, x: int, y: int, scale: real)
    requires Total(noise)
    ensures Sample(noise, Cell(x, y), scale) == noise(Coordinate(x, scale), Coordinate(y, scale), 0.0)
  {
  }

  /** The same for the generator's own output and table. */
  lemma GeneratedAt(perlin: Perlin, noiseArray: seq<real>, width: int, height: int, scale: real, y: int, x: int)
    requires perlin.Valid()
    requires noiseArray == Samples(perlin.Noise, GridCells(if width > 0 then width else 0, if height > 0 then height else 0), scale)
    requires 0 <= y < height && 0 <= x < width
    ensures |noiseArray| == width * height
    ensures 0 <= y * width + x < |noiseArray|
    ensures noiseArray[y * width + x] == perlin.Noise(Coordinate(x, scale), Coordinate(y, scale), 0.0)
  {
    SampledAt(perlin.Noise, noiseArray, width, height, scale, y, x);
  }
}
