/** What the noise model promises: the shape of the fade curve and of linear
    interpolation, the sixteen gradient directions picked by the low four bits
    of a hash, zero noise on the integer lattice, periodicity 256 along every
    axis, agreement of neighbouring cells on their shared faces (which is what
    the duplicated table buys), and a bound on the noise value. */
module PerlinProperties {
  import opened PerlinNoise

  // ---------------------------------------------------------------- fade, lerp

  lemma FadeEndpoints()
    ensures Fade(0.0) == 0.0 && Fade(1.0) == 1.0
  {
  }

  /** The fade curve is point-symmetric about (1/2, 1/2). */
  lemma FadeSymmetric(t: real)
    ensures Fade(t) + Fade(1.0 - t) == 1.0
  {
  }

  /** On the unit interval the fade curve stays inside the unit interval. */
  lemma FadeUnit(t: real)
    requires 0.0 <= t <= 1.0
    ensures 0.0 <= Fade(t) <= 1.0
  {
    FadeNonNegative(t);
    FadeNonNegative(1.0 - t);
    FadeSymmetric(t);
  }

  lemma FadeNonNegative(t: real)
    requires 0.0 <= t <= 1.0
    ensures 0.0 <= Fade(t)
  {
    var q := t * (t * 6.0 - 15.0) + 10.0;
    assert q - 1.0 == 3.0 * ((3.0 - 2.0 * t) * (1.0 - t));
    ProductNonNegative(3.0 - 2.0 * t, 1.0 - t);
    var c := t * t * t;
    ProductNonNegative(t, t);
    ProductNonNegative(t * t, t);
    ProductNonNegative(c, q);
    assert Fade(t) == c * q;
  }

  lemma ProductNonNegative(a: real, b: real)
    requires 0.0 <= a && 0.0 <= b
    ensures 0.0 <= a * b
  {
  }

  lemma LerpEndpoints(a: real, b: real)
    ensures Lerp(0.0, a, b) == a && Lerp(1.0, a, b) == b
  {
  }

  /** Interpolating with a weight in [0,1] between two values of [-m,m]
      gives a value of [-m,m]. */
  lemma LerpWithin(t: real, a: real, b: real, m: real)
    requires 0.0 <= t <= 1.0
    requires -m <= a <= m && -m <= b <= m
    ensures -m <= Lerp(t, a, b) <= m
  {
    assert Lerp(t, a, b) == (1.0 - t) * a + t * b;
    ProductNonNegative(1.0 - t, m - a);
    ProductNonNegative(1.0 - t, a + m);
    ProductNonNegative(t, m - b);
    ProductNonNegative(t, b + m);
  }

  // ---------------------------------------------------------------- gradients

  /** A gradient direction with integer components. */
  datatype Vector = Vector(dx: int, dy: int, dz: int)

  /** The twelve directions from the centre of a cube to the midpoints of its
      edges, in the order the hash picks them, padded to sixteen by repeating
      four of them. */
  const Gradients: seq<Vector> := [
    Vector(1, 1, 0), Vector(-1, 1, 0), Vector(1, -1, 0), Vector(-1, -1, 0),
    Vector(1, 0, 1), Vector(-1, 0, 1), Vector(1, 0, -1), Vector(-1, 0, -1),
    Vector(0, 1, 1), Vector(0, -1, 1), Vector(0, 1, -1), Vector(0, -1, -1),
    Vector(1, 1, 0), Vector(0, -1, 1), Vector(-1, 1, 0), Vector(0, -1, -1)]

  function Dot(g: Vector, x: real, y: real, z: real): real {
    g.dx as real * x + g.dy as real * y + g.dz as real * z
  }

  function Abs(n: int): nat {
    if n < 0 then -n else n
  }

  /** Every table direction is a cube-edge direction: two components are
      +1 or -1 and the third is 0. */
  lemma GradientsAreEdgeDirections(i: int)
    requires 0 <= i < |Gradients|
    ensures -1 <= Gradients[i].dx <= 1 && -1 <= Gradients[i].dy <= 1 && -1 <= Gradients[i].dz <= 1
    ensures Abs(Gradients[i].dx) + Abs(Gradients[i].dy) + Abs(Gradients[i].dz) == 2
  {
  }

  /** `grad` is the dot product of the offset with the direction that the
      low four bits of the hash select. */
  lemma GradIsDotProduct(hash: int, x: real, y: real, z: real)
    ensures Grad(hash, x, y, z) == Dot(Gradients[hash % 16], x, y, z)
  {
    var h := hash % 16;
    if h < 4 {
      assert h == 0 || h == 1 || h == 2 || h == 3;
    } else if h < 8 {
      assert h == 4 || h == 5 || h == 6 || h == 7;
    } else if h < 12 {
      assert h == 8 || h == 9 || h == 10 || h == 11;
    } else {
      assert h == 12 || h == 13 || h == 14 || h == 15;
    }
  }

  /** Only the low four bits of the hash matter. */
  lemma GradLowNibble(hash: int, k: int, x: real, y: real, z: real)
    ensures Grad(hash + 16 * k, x, y, z) == Grad(hash, x, y, z)
  {
    assert (hash + 16 * k) % 16 == hash % 16;
  }

  lemma GradAtOrigin(hash: int)
    ensures Grad(hash, 0.0, 0.0, 0.0) == 0.0
  {
  }

  /** With every offset component in [-1,1], a corner contributes at most 2
      in absolute value. */
  lemma GradBounded(hash: int, x: real, y: real, z: real)
    requires -1.0 <= x <= 1.0 && -1.0 <= y <= 1.0 && -1.0 <= z <= 1.0
    ensures -2.0 <= Grad(hash, x, y, z) <= 2.0
  {
  }

  // ---------------------------------------------------------------- lattice coordinates

  /** Shifting a coordinate by an integer shifts its floor by that integer. */
  lemma FloorShift(c: real, n: int)
    ensures (c + n as real).Floor == c.Floor + n
  {
    var m := c.Floor + n;
    assert m as real <= c + n as real < m as real + 1.0;
  }

  /** Splitting a coordinate into an integer cell and an offset in [0,1) is
      unique: any such split is the one `noise` takes. */
  lemma CellDecomposition(c: real, n: int, f: real)
    requires 0.0 <= f < 1.0 && c == n as real + f
    ensures c.Floor == n && Offset(c) == f && LatticeIndex(c) == n % TableSize
  {
  }

  lemma IntegerCoordinate(n: int)
    ensures Offset(n as real) == 0.0
    ensures LatticeIndex(n as real) == n % TableSize
  {
    FloorShift(0.0, n);
  }

  // ---------------------------------------------------------------- noise

  /** Noise vanishes at every integer lattice point, whatever the table:
      all offsets and fade weights are 0 there, so only the first corner's
      gradient counts, and it is dotted with the zero offset. */
  lemma NoiseVanishesAtLattice(perlin: Perlin, i: int, j: int, k: int)
    requires perlin.Valid()
    ensures perlin.Noise(i as real, j as real, k as real) == 0.0
  {
    IntegerCoordinate(i);
    IntegerCoordinate(j);
    IntegerCoordinate(k);
    FadeEndpoints();
    var c := perlin.CornerHashes(i % TableSize, j % TableSize, k % TableSize);
    GradAtOrigin(perlin.permutation[c.aa]);
  }

  /** Noise repeats every 256 units along each axis. */
  lemma NoisePeriodic(perlin: Perlin, x: real, y: real, z: real, i: int, j: int, k: int)
    requires perlin.Valid()
    ensures perlin.Noise(x + (TableSize * i) as real, y + (TableSize * j) as real, z + (TableSize * k) as real)
         == perlin.Noise(x, y, z)
  {
    ShiftByPeriod(x, i);
    ShiftByPeriod(y, j);
    ShiftByPeriod(z, k);
  }

  lemma ShiftByPeriod(c: real, i: int)
    ensures LatticeIndex(c + (TableSize * i) as real) == LatticeIndex(c)
    ensures Offset(c + (TableSize * i) as real) == Offset(c)
  {
    FloorShift(c, TableSize * i);
    assert (c.Floor + TableSize * i) % TableSize == c.Floor % TableSize;
  }

  /** The table read one past a byte-sized index is the read at the next
      index wrapped into [0,255]: the second half of the table repeats the
      first. */
  lemma Wraps(perlin: Perlin, n: int)
    requires perlin.Valid() && IsByte(n)
    ensures perlin.permutation[n + 1] == perlin.permutation[(n + 1) % TableSize]
  {
    if n == TableSize - 1 {
      assert perlin.permutation[TableSize..][0] == perlin.permutation[..TableSize][0];
    }
  }

  /** Reads at `e + Y` and `e + Y + 1` for a table entry `e` and a byte `Y`:
      moving to the next `Y`, wrapped, reads the same entries. */
  lemma ChainWraps(perlin: Perlin, e: int, n: int)
    requires perlin.Valid() && IsByte(e) && IsByte(n)
    ensures perlin.permutation[e + n + 1] == perlin.permutation[e + (n + 1) % TableSize]
  {
    if n == TableSize - 1 {
      var t := perlin.permutation;
      assert t[TableSize..][e] == t[..TableSize][e];
    }
  }

  /** Neighbouring cells along x agree on their shared face: the cell at X,
      at offset x = 1, blends the same corners as the cell at X + 1 (wrapped)
      at offset x = 0. For X = 255 this needs the read past the first half. */
  lemma FaceX(perlin: Perlin, X: int, Y: int, Z: int, y: real, z: real)
    requires perlin.Valid() && IsByte(X) && IsByte(Y) && IsByte(Z)
    ensures perlin.Blend(X, Y, Z, 1.0, y, z) == perlin.Blend((X + 1) % TableSize, Y, Z, 0.0, y, z)
  {
    FadeEndpoints();
    Wraps(perlin, X);
  }

  /** Neighbouring cells along y agree on their shared face. */
  lemma FaceY(perlin: Perlin, X: int, Y: int, Z: int, x: real, z: real)
    requires perlin.Valid() && IsByte(X) && IsByte(Y) && IsByte(Z)
    ensures perlin.Blend(X, Y, Z, x, 1.0, z) == perlin.Blend(X, (Y + 1) % TableSize, Z, x, 0.0, z)
  {
    FadeEndpoints();
    var p := perlin.permutation;
    ChainWraps(perlin, p[X], Y);
    ChainWraps(perlin, p[X + 1], Y);
  }

  /** Neighbouring cells along z agree on their shared face. */
  lemma FaceZ(perlin: Perlin, X: int, Y: int, Z: int, x: real, y: real)
    requires perlin.Valid() && IsByte(X) && IsByte(Y) && IsByte(Z)
    ensures perlin.Blend(X, Y, Z, x, y, 1.0) == perlin.Blend(X, Y, (Z + 1) % TableSize, x, y, 0.0)
  {
    FadeEndpoints();
    var p := perlin.permutation;
    var c := perlin.CornerHashes(X, Y, Z);
    var d := perlin.CornerHashes(X, Y, (Z + 1) % TableSize);
    ChainWraps(perlin, p[c.a], Z);
    ChainWraps(perlin, p[c.a + 1], Z);
    ChainWraps(perlin, p[c.b], Z);
    ChainWraps(perlin, p[c.b + 1], Z);
    assert p[d.aa] == p[c.aa + 1] && p[d.ab] == p[c.ab + 1];
    assert p[d.ba] == p[c.ba + 1] && p[d.bb] == p[c.bb + 1];
    var u, v := Fade(x), Fade(y);
    var upper := Lerp(v, Lerp(u, Grad(p[c.aa + 1], x, y, 0.0), Grad(p[c.ba + 1], x - 1.0, y, 0.0)),
                         Lerp(u, Grad(p[c.ab + 1], x, y - 1.0, 0.0), Grad(p[c.bb + 1], x - 1.0, y - 1.0, 0.0)));
    assert perlin.Blend(X, Y, Z, x, y, 1.0) == upper;
    assert perlin.Blend(X, Y, (Z + 1) % TableSize, x, y, 0.0) == upper;
  }

  /** Noise is continuous across the lattice plane x = n: the cell on the
      lower side, evaluated on its upper face, gives the noise on the plane. */
  lemma ContinuousAcrossX(perlin: Perlin, n: int, y: real, z: real)
    requires perlin.Valid()
    ensures perlin.Blend(LatticeIndex((n - 1) as real), LatticeIndex(y), LatticeIndex(z), 1.0, Offset(y), Offset(z))
         == perlin.Noise(n as real, y, z)
  {
    IntegerCoordinate(n - 1);
    IntegerCoordinate(n);
    assert ((n - 1) % TableSize + 1) % TableSize == n % TableSize;
    FaceX(perlin, LatticeIndex((n - 1) as real), LatticeIndex(y), LatticeIndex(z), Offset(y), Offset(z));
  }

  /** Noise is continuous across the lattice plane y = n. */
  lemma ContinuousAcrossY(perlin: Perlin, x: real, n: int, z: real)
    requires perlin.Valid()
    ensures perlin.Blend(LatticeIndex(x), LatticeIndex((n - 1) as real), LatticeIndex(z), Offset(x), 1.0, Offset(z))
         == perlin.Noise(x, n as real, z)
  {
    IntegerCoordinate(n - 1);
    IntegerCoordinate(n);
    assert ((n - 1) % TableSize + 1) % TableSize == n % TableSize;
    FaceY(perlin, LatticeIndex(x), LatticeIndex((n - 1) as real), LatticeIndex(z), Offset(x), Offset(z));
  }

  /** Noise is continuous across the lattice plane z = n. */
  lemma ContinuousAcrossZ(perlin: Perlin, x: real, y: real, n: int)
    requires perlin.Valid()
    ensures perlin.Blend(LatticeIndex(x), LatticeIndex(y), LatticeIndex((n - 1) as real), Offset(x), Offset(y), 1.0)
         == perlin.Noise(x, y, n as real)
  {
    IntegerCoordinate(n - 1);
    IntegerCoordinate(n);
    assert ((n - 1) % TableSize + 1) % TableSize == n % TableSize;
    FaceZ(perlin, LatticeIndex(x), LatticeIndex(y), LatticeIndex((n - 1) as real), Offset(x), Offset(y));
  }

  /** Inside a cell (offsets in [0,1]) the blend lies in [-2,2]. */
  lemma BlendBounded(perlin: Perlin, X: int, Y: int, Z: int, x: real, y: real, z: real)
    requires perlin.Valid() && IsByte(X) && IsByte(Y) && IsByte(Z)
    requires 0.0 <= x <= 1.0 && 0.0 <= y <= 1.0 && 0.0 <= z <= 1.0
    ensures -2.0 <= perlin.Blend(X, Y, Z, x, y, z) <= 2.0
  {
    var p := perlin.permutation;
    var c := perlin.CornerHashes(X, Y, Z);
    var u, v, w := Fade(x), Fade(y), Fade(z);
    FadeUnit(x);
    FadeUnit(y);
    FadeUnit(z);
    var g0 := Grad(p[c.aa], x, y, z);
    var g1 := Grad(p[c.ba], x - 1.0, y, z);
    var g2 := Grad(p[c.ab], x, y - 1.0, z);
    var g3 := Grad(p[c.bb], x - 1.0, y - 1.0, z);
    var g4 := Grad(p[c.aa + 1], x, y, z - 1.0);
    var g5 := Grad(p[c.ba + 1], x - 1.0, y, z - 1.0);
    var g6 := Grad(p[c.ab + 1], x, y - 1.0, z - 1.0);
    var g7 := Grad(p[c.bb + 1], x - 1.0, y - 1.0, z - 1.0);
    GradBounded(p[c.aa], x, y, z);
    GradBounded(p[c.ba], x - 1.0, y, z);
    GradBounded(p[c.ab], x, y - 1.0, z);
    GradBounded(p[c.bb], x - 1.0, y - 1.0, z);
    GradBounded(p[c.aa + 1], x, y, z - 1.0);
    GradBounded(p[c.ba + 1], x - 1.0, y, z - 1.0);
    GradBounded(p[c.ab + 1], x, y - 1.0, z - 1.0);
    GradBounded(p[c.bb + 1], x - 1.0, y - 1.0, z - 1.0);
    LerpWithin(u, g0, g1, 2.0);
    LerpWithin(u, g2, g3, 2.0);
    LerpWithin(u, g4, g5, 2.0);
    LerpWithin(u, g6, g7, 2.0);
    LerpWithin(v, Lerp(u, g0, g1), Lerp(u, g2, g3), 2.0);
    LerpWithin(v, Lerp(u, g4, g5), Lerp(u, g6, g7), 2.0);
    LerpWithin(w, Lerp(v, Lerp(u, g0, g1), Lerp(u, g2, g3)), Lerp(v, Lerp(u, g4, g5), Lerp(u, g6, g7)), 2.0);
  }

  /** Noise lies in [-2,2] everywhere (over exact reals). */
  lemma NoiseBounded(perlin: Perlin, x: real, y: real, z: real)
    requires perlin.Valid()
    ensures -2.0 <= perlin.Noise(x, y, z) <= 2.0
  {
    BlendBounded(perlin, LatticeIndex(x), LatticeIndex(y), LatticeIndex(z), Offset(x), Offset(y), Offset(z));
  }

  // ---------------------------------------------------------------- the grid

  /** Sampling at integer multiples of an integer scale lands on lattice
      points only, so every sample is 0. */
  lemma IntegerScaleIsFlat(perlin: Perlin, cells: seq<Cell>, k: int, i: int)
    requires perlin.Valid() && 0 <= i < |cells|
    ensures Samples(perlin.Noise, cells, k as real)[i] == 0.0
  {
    var c := cells[i];
    SamplesAt(perlin.Noise, cells, k as real, i);
    SampleOnLattice(perlin.Noise, c, k);
    NoiseVanishesAtLattice(perlin, c.x * k, c.y * k, 0);
  }

  /** With an integer scale, cell (x, y) is sampled at the lattice point
      (x * k, y * k, 0). */
  lemma SampleOnLattice(noise: NoiseFunction, c: Cell, k: int)
    requires Total(noise)
    ensures Sample(noise, c, k as real) == noise((c.x * k) as real, (c.y * k) as real, 0.0)
  {
    assert Coordinate(c.x, k as real) == (c.x * k) as real;
    assert Coordinate(c.y, k as real) == (c.y * k) as real;
  }

  /** At its default scale of 1.0 the generator returns an all-zero map. */
  lemma DefaultScaleIsFlat(perlin: Perlin, width: nat, height: nat)
    requires perlin.Valid()
    ensures forall v :: v in Samples(perlin.Noise, GridCells(width, height), 1.0) ==> v == 0.0
  {
    var s := Samples(perlin.Noise, GridCells(width, height), 1.0);
    forall v | v in s
      ensures v == 0.0
    {
      var i :| 0 <= i < |s| && s[i] == v;
      IntegerScaleIsFlat(perlin, GridCells(width, height), 1, i);
    }
  }
}
