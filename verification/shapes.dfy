/** The particle buffer generator (utils/shapes.ts): `count` particles laid
    out as consecutive (x, y, z) triples. The scan shape is a deterministic
    row-major grid; the other shapes sample random draws through library
    trigonometry, which is taken as parameters here. */
module Shapes {
  import opened Types
  import opened Numeric

  /** The `Math.random()` values one particle consumes, in the order the
      source draws them (no shape uses more than four). */
  datatype Draws = Draws(u0: real, u1: real, u2: real, u3: real)

  /** Every draw lies in [0, 1), as `Math.random()` promises. */
  predicate UnitDraws(d: Draws)
  {
    0.0 <= d.u0 < 1.0 && 0.0 <= d.u1 < 1.0 && 0.0 <= d.u2 < 1.0 && 0.0 <= d.u3 < 1.0
  }

  /** The library functions the shapes use: `Math.PI`, `Math.sin`,
      `Math.cos`, `Math.sqrt`, `Math.cbrt`, `Math.acos`, and the two fixed
      quaternion rotations (flower: -pi/4 about x; rings: pi/6 about z). */
  datatype MathLib = MathLib(
    pi: real,
    sin: real -> real,
    cos: real -> real,
    sqrt: real -> real,
    cbrt: real -> real,
    acos: real -> real,
    flowerTilt: Vec3 -> Vec3,
    ringTilt: Vec3 -> Vec3)

  /** Width and height of the scan plane: 8 wide at a 16:9 aspect ratio. */
  const ScanWidth: real := 8.0
  const ScanHeight: real := 8.0 / (16.0 / 9.0)

  /** Share of saturn particles above which a draw lands on the planet. */
  const PlanetThreshold: real := 0.4
  const RingInner: real := 2.2
  const RingWidth: real := 2.0

  // ---------------------------------------------------------------------
  // The scan grid

  /** `Math.ceil(Math.sqrt(n))` on the naturals: the least `s` with `s * s >= n`. */
  function CeilSqrt(n: nat): (s: nat)
    ensures n <= s * s
    ensures 0 < s ==> (s - 1) * (s - 1) < n
  {
    CeilSqrtFrom(n, 0)
  }

  /** The least `s >= from` with `s * s >= n`, given that every smaller
      candidate falls short. */
  function CeilSqrtFrom(n: nat, from: nat): (s: nat)
    requires 0 < from ==> (from - 1) * (from - 1) < n
    requires from <= n + 1
    decreases n + 1 - from
    ensures from <= s && n <= s * s
    ensures 0 < s ==> (s - 1) * (s - 1) < n
  {
    if n <= from * from then from
    else
      SquareDominates(from);
      CeilSqrtFrom(n, from + 1)
  }

  /** A natural is at most its square. */
  lemma SquareDominates(a: nat)
    ensures a <= a * a
  {
    if a > 0 {
      MulMono(a, 1, a);
    }
  }

  /** Multiplying by a natural preserves order. */
  lemma MulMono(a: nat, b: nat, c: nat)
    requires b <= c
    ensures a * b <= a * c
  {
  }

  /** The side of the scan grid for `count` particles. */
  function ScanSide(count: nat): nat
  {
    CeilSqrt(count)
  }

  /** Particle `i` of the grid sits in row `i / side`, column `i % side`. */
  function ScanRow(count: nat, i: nat): nat
    requires i < count
  {
    i / ScanSide(count)
  }

  function ScanCol(count: nat, i: nat): nat
    requires i < count
  {
    i % ScanSide(count)
  }

  /** Both grid indices of every particle are below the side. */
  lemma ScanCellInGrid(count: nat, i: nat)
    requires i < count
    ensures ScanRow(count, i) < ScanSide(count) && ScanCol(count, i) < ScanSide(count)
    ensures i == ScanRow(count, i) * ScanSide(count) + ScanCol(count, i)
  {
    var side := ScanSide(count);
    var row, col := i / side, i % side;
    assert i == row * side + col;
    if row >= side {
      MulMono(side, side, row);
      assert false;
    }
  }

  /** No two particles share a grid cell. */
  lemma ScanCellsDistinct(count: nat, i: nat, j: nat)
    requires i < count && j < count && i != j
    ensures ScanRow(count, i) != ScanRow(count, j) || ScanCol(count, i) != ScanCol(count, j)
  {
    ScanCellInGrid(count, i);
    ScanCellInGrid(count, j);
  }

  /** The position of grid particle `i`: the column fraction across the
      width, the row fraction up the height, on the z = 0 plane. */
  function ScanPoint(count: nat, i: nat): Vec3
    requires i < count
  {
    var side := ScanSide(count) as real;
    var u := ScanCol(count, i) as real / side;
    var v := ScanRow(count, i) as real / side;
    Vec3((u - 0.5) * ScanWidth, (v - 0.5) * ScanHeight, 0.0)
  }

  /** A fraction `k / side` of an index below the side lies in [0, 1). */
  lemma UnitFraction(k: nat, side: nat)
    requires k < side
    ensures 0.0 <= k as real / side as real < 1.0
  {
    var f := k as real / side as real;
    assert f * side as real == k as real;
    if f >= 1.0 {
      MulNonneg(f - 1.0, side as real);
      assert false;
    }
  }

  /** The grid spans x in [-4, 4) and y in [-2.25, 2.25) on the z = 0 plane. */
  lemma ScanPointInPlane(count: nat, i: nat)
    requires i < count
    ensures var p := ScanPoint(count, i);
      -4.0 <= p.x < 4.0 && -2.25 <= p.y < 2.25 && p.z == 0.0
  {
    ScanCellInGrid(count, i);
    UnitFraction(ScanCol(count, i), ScanSide(count));
    UnitFraction(ScanRow(count, i), ScanSide(count));
  }

  // ---------------------------------------------------------------------
  // The random shapes

  /** Heart: a parametric heart curve scaled by `0.2 sqrt(u1)`, thickened in z. */
  function HeartPoint(d: Draws, lib: MathLib): Vec3
  {
    var t := d.u0 * lib.pi * 2.0;
    var r := lib.sqrt(d.u1);
    var s := lib.sin(t);
    var hx := 16.0 * (s * s * s);
    var hy := 13.0 * lib.cos(t) - 5.0 * lib.cos(2.0 * t) - 2.0 * lib.cos(3.0 * t) - lib.cos(4.0 * t);
    Vec3(hx * r * 0.2, hy * r * 0.2, (d.u2 - 0.5) * 2.0)
  }

  /** Flower: a four-petal rose curve with radius `3 cos(4 theta) sqrt(u1) + 1`,
      before the tilt. */
  function FlowerFlat(d: Draws, lib: MathLib): Vec3
  {
    var theta := d.u0 * lib.pi * 2.0;
    var rad := lib.sqrt(d.u1);
    var rFinal := 3.0 * lib.cos(4.0 * theta) * rad + 1.0;
    Vec3(rFinal * lib.cos(theta), rFinal * lib.sin(theta), (d.u2 - 0.5) * 1.5)
  }

  function FlowerPoint(d: Draws, lib: MathLib): Vec3
  {
    lib.flowerTilt(FlowerFlat(d, lib))
  }

  /** A point in a ball of radius `r`, by polar angle `phi` and azimuth `theta`. */
  function Spherical(r: real, phi: real, theta: real, lib: MathLib): Vec3
  {
    Vec3(r * lib.sin(phi) * lib.cos(theta), r * lib.sin(phi) * lib.sin(theta), r * lib.cos(phi))
  }

  /** Saturn's planet: radius `1.5 cbrt(u3)`. */
  function PlanetPoint(d: Draws, lib: MathLib): Vec3
  {
    Spherical(1.5 * lib.cbrt(d.u3), lib.acos(d.u2 * 2.0 - 1.0), d.u1 * lib.pi * 2.0, lib)
  }

  /** The radius of a ring particle. */
  function RingRadius(d: Draws): real
  {
    RingInner + d.u2 * RingWidth
  }

  /** Saturn's rings, flat on the xz plane before the tilt, with a thin
      jitter in y. */
  function RingFlat(d: Draws, lib: MathLib): Vec3
  {
    var theta := d.u1 * lib.pi * 2.0;
    var r := RingRadius(d);
    Vec3(r * lib.cos(theta), (d.u3 - 0.5) * 0.1, r * lib.sin(theta))
  }

  /** Saturn: the planet for a first draw above 0.4, the tilted rings otherwise. */
  function SaturnPoint(d: Draws, lib: MathLib): Vec3
  {
    if d.u0 > PlanetThreshold then PlanetPoint(d, lib) else lib.ringTilt(RingFlat(d, lib))
  }

  /** Fireworks: a ball of radius `4 sqrt(u2)`. */
  function FireworksRadius(d: Draws, lib: MathLib): real
  {
    4.0 * lib.sqrt(d.u2)
  }

  function FireworksPoint(d: Draws, lib: MathLib): Vec3
  {
    Spherical(FireworksRadius(d, lib), lib.acos(d.u1 * 2.0 - 1.0), d.u0 * lib.pi * 2.0, lib)
  }

  /** Particle `i` of `count` for `shape`, from its draws. */
  function ParticlePoint(shape: ShapeType, count: nat, i: nat, d: Draws, lib: MathLib): Vec3
    requires i < count
  {
    match shape
    case Heart => HeartPoint(d, lib)
    case Flower => FlowerPoint(d, lib)
    case Saturn => SaturnPoint(d, lib)
    case Scan => ScanPoint(count, i)
    case Fireworks => FireworksPoint(d, lib)
  }

  /** The heart's thickness lies in [-1, 1) and the flower's in [-0.75, 0.75). */
  lemma ThicknessRanges(d: Draws, lib: MathLib)
    requires UnitDraws(d)
    ensures -1.0 <= HeartPoint(d, lib).z < 1.0
    ensures -0.75 <= FlowerFlat(d, lib).z < 0.75
  {
  }

  /** A ring particle's radius lies in [2.2, 4.2) and its jitter in
      [-0.05, 0.05). */
  lemma RingRanges(d: Draws, lib: MathLib)
    requires UnitDraws(d)
    ensures 2.2 <= RingRadius(d) < 4.2
    ensures -0.05 <= RingFlat(d, lib).y < 0.05
  {
  }

  /** The square root of a draw lies in [0, 1). */
  lemma SqrtOfDraw(sqrt: real -> real, u: real)
    requires IsSqrt(sqrt) && 0.0 <= u < 1.0
    ensures 0.0 <= sqrt(u) < 1.0
  {
    var s := sqrt(u);
    assert s * s == u;
    if s >= 1.0 {
      MulNonneg(s - 1.0, s + 1.0);
      assert false;
    }
  }

  /** The fireworks radius lies in [0, 4). */
  lemma FireworksRadiusRange(d: Draws, lib: MathLib)
    requires UnitDraws(d) && IsSqrt(lib.sqrt)
    ensures 0.0 <= FireworksRadius(d, lib) < 4.0
  {
    SqrtOfDraw(lib.sqrt, d.u2);
  }

  // ---------------------------------------------------------------------
  // The buffer

  /** Fill a zeroed buffer of `3 count` slots, particle `i` writing slots
      `3i`, `3i + 1` and `3i + 2` with its x, y and z. `draws(i)` are the
      random draws of particle `i`. */
  method GenerateParticles(shape: ShapeType, count: nat, draws: nat -> Draws, lib: MathLib)
    returns (positions: array<real>)
    ensures fresh(positions)
    ensures positions.Length == 3 * count
    ensures forall i, c :: 0 <= i < count && 0 <= c < 3 ==>
      positions[3 * i + c] == Coord(ParticlePoint(shape, count, i, draws(i), lib), c)
  {
    positions := new real[3 * count](_ => 0.0);
    for i := 0 to count
      invariant forall j, c :: 0 <= j < i && 0 <= c < 3 ==>
        positions[3 * j + c] == Coord(ParticlePoint(shape, count, j, draws(j), lib), c)
    {
      var p := ParticlePoint(shape, count, i, draws(i), lib);
      var idx := i * 3;
      positions[idx] := p.x;
      positions[idx + 1] := p.y;
      positions[idx + 2] := p.z;
    }
  }
}
