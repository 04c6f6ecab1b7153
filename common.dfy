/**
 * Definitions shared by the two swarm simulators, the flight planner and the
 * API layer: points, clipped index windows, the terrain palette, the
 * "first strict minimum" scan both classifiers use, the age colour buckets,
 * and the mathematical library (trigonometry and the Euclidean norm), which is
 * passed in as values rather than modelled.
 */
module Common {

  /** `np.pi`, taken as an exact real number. */
  const PI: real := 3.141592653589793

  datatype Point = Point(x: real, y: real)

  /** A half-open index range `[lo, hi)`. */
  datatype Span = Span(lo: int, hi: int)

  function Abs(v: real): real { if v < 0.0 then -v else v }

  function MaxInt(a: int, b: int): int { if a >= b then a else b }

  function MinInt(a: int, b: int): int { if a <= b then a else b }

  function ClampReal(v: real, lo: real, hi: real): real
  {
    if v < lo then lo else if v > hi then hi else v
  }

  /** Python's and Numba's `int(v)` on a float: truncation toward zero. */
  function Trunc(v: real): int
  {
    if v >= 0.0 then v.Floor else -((-v).Floor)
  }

  /**
   * The sensing window around cell `c` of extent `extent`:
   * `max(0, c - r) .. min(extent, c + r + 1)`.
   */
  function Window(c: int, r: int, extent: int): (s: Span)
    requires 0 <= c < extent && 0 <= r
    ensures 0 <= s.lo <= c < s.hi <= extent
    ensures s.hi - s.lo <= 2 * r + 1
    ensures c - r >= 0 ==> s.lo == c - r
    ensures c + r + 1 <= extent ==> s.hi == c + r + 1
  {
    Span(MaxInt(0, c - r), MinInt(extent, c + r + 1))
  }

  // ---------------------------------------------------------------------
  // Colours
  // ---------------------------------------------------------------------

  /** A raw RGB pixel: three channels of an 8-bit image. */
  ghost predicate IsPixel(p: seq<int>)
  {
    |p| == 3 && forall j :: 0 <= j < 3 ==> 0 <= p[j] <= 255
  }

  /** An image of `h` rows and `w` columns of raw pixels. */
  ghost predicate IsRaster(img: seq<seq<seq<int>>>, h: int, w: int)
  {
    |img| == h &&
    forall y :: 0 <= y < h ==> |img[y]| == w && forall x :: 0 <= x < w ==> IsPixel(img[y][x])
  }

  /** `pixel / 255.0`: the channels of a raw pixel scaled into [0, 1]. */
  function Normalize(p: seq<int>): (c: seq<real>)
    requires |p| == 3
    ensures |c| == 3
    ensures IsPixel(p) ==> forall j :: 0 <= j < 3 ==> 0.0 <= c[j] <= 1.0
  {
    [p[0] as real / 255.0, p[1] as real / 255.0, p[2] as real / 255.0]
  }

  /** The terrain palette, in declaration order: sparse forest, dense forest, water, road. */
  const PALETTE: seq<seq<real>> := [
    [144.0 / 255.0, 238.0 / 255.0, 144.0 / 255.0],
    [0.0, 100.0 / 255.0, 0.0],
    [0.0, 102.0 / 255.0, 204.0 / 255.0],
    [51.0 / 255.0, 51.0 / 255.0, 51.0 / 255.0]
  ]

  /** Terrain codes, the positions of the palette entries. */
  const SPARSE_FOREST: int := 0
  const DENSE_FOREST: int := 1
  const WATER: int := 2
  const ROAD: int := 3

  /** Sum of the squared differences of the first `n` channels. */
  function PartialSqDist(p: seq<real>, c: seq<real>, n: nat): real
    requires n <= |p| && n <= |c|
  {
    if n == 0 then 0.0
    else PartialSqDist(p, c, n - 1) + (p[n - 1] - c[n - 1]) * (p[n - 1] - c[n - 1])
  }

  /** Squared Euclidean distance between two colours of three channels. */
  function SqDist(p: seq<real>, c: seq<real>): real
    requires |p| == 3 && |c| == 3
  {
    PartialSqDist(p, c, 3)
  }

  /** The squared distance of a colour to each palette entry, in palette order. */
  function Distances(p: seq<real>): (d: seq<real>)
    requires |p| == 3
    ensures |d| == 4
    ensures forall i :: 0 <= i < 4 ==> d[i] == SqDist(p, PALETTE[i])
  {
    [SqDist(p, PALETTE[0]), SqDist(p, PALETTE[1]), SqDist(p, PALETTE[2]), SqDist(p, PALETTE[3])]
  }

  lemma {:induction false} SquaresOfUnitChannelsBounded(p: seq<real>, c: seq<real>, n: nat)
    requires n <= |p| && n <= |c|
    requires forall j :: 0 <= j < n ==> 0.0 <= p[j] <= 1.0 && 0.0 <= c[j] <= 1.0
    ensures 0.0 <= PartialSqDist(p, c, n) <= n as real
  {
    if n > 0 {
      SquaresOfUnitChannelsBounded(p, c, n - 1);
      var d := p[n - 1] - c[n - 1];
      SquareOfUnit(d);
      assert PartialSqDist(p, c, n) == PartialSqDist(p, c, n - 1) + d * d;
    }
  }

  /** Every palette channel lies in [0, 1]. */
  lemma PaletteInUnitCube()
    ensures forall i, j :: 0 <= i < 4 && 0 <= j < 3 ==> 0.0 <= PALETTE[i][j] <= 1.0
  {
  }

  /** A colour with channels in [0, 1] is at squared distance at most 3 from every palette entry. */
  lemma DistancesOfUnitColourBounded(p: seq<real>)
    requires |p| == 3 && forall j :: 0 <= j < 3 ==> 0.0 <= p[j] <= 1.0
    ensures forall i :: 0 <= i < 4 ==> 0.0 <= Distances(p)[i] <= 3.0
  {
    PaletteInUnitCube();
    forall i | 0 <= i < 4
      ensures 0.0 <= Distances(p)[i] <= 3.0
    {
      SquaresOfUnitChannelsBounded(p, PALETTE[i], 3);
    }
  }

  // ---------------------------------------------------------------------
  // The first strict minimum
  // ---------------------------------------------------------------------

  /**
   * The index a left-to-right scan keeps when it replaces its candidate only
   * on a strictly smaller value: a minimum, and the first one.
   */
  function FirstMin(d: seq<real>): (k: nat)
    requires |d| > 0
    ensures k < |d|
    ensures forall j :: 0 <= j < |d| ==> d[k] <= d[j]
    ensures forall j :: 0 <= j < k ==> d[j] > d[k]
  {
    if |d| == 1 then 0
    else
      var k := FirstMin(d[..|d| - 1]);
      if d[|d| - 1] < d[k] then |d| - 1 else k
  }

  /** One more step of the scan: what a strict `<` comparison against the running minimum does. */
  lemma FirstMinStep(d: seq<real>, t: nat)
    requires 0 < t < |d|
    ensures FirstMin(d[..t + 1]) ==
      (if d[t] < d[FirstMin(d[..t])] then t else FirstMin(d[..t]))
  {
    assert d[..t + 1][..t] == d[..t];
  }

  /** The two properties of `FirstMin` determine it. */
  lemma FirstMinUnique(d: seq<real>, k: nat)
    requires k < |d|
    requires forall j :: 0 <= j < |d| ==> d[k] <= d[j]
    requires forall j :: 0 <= j < k ==> d[j] > d[k]
    ensures FirstMin(d) == k
  {
  }

  // ---------------------------------------------------------------------
  // Age buckets for the cosmetic colour
  // ---------------------------------------------------------------------

  datatype AgeBucket = Bright | Medium | Dull

  /** `age < 0.4` bright, `age < 0.7` medium, otherwise dull. */
  function BucketOf(age: real): (b: AgeBucket)
    ensures b == Bright <==> age < 0.4
    ensures b == Medium <==> 0.4 <= age < 0.7
    ensures b == Dull <==> 0.7 <= age
  {
    if age < 0.4 then Bright else if age < 0.7 then Medium else Dull
  }

  function BucketRank(b: AgeBucket): nat
  {
    match b
    case Bright => 0
    case Medium => 1
    case Dull => 2
  }

  /** Older agents never get a brighter bucket. */
  lemma BucketMonotone(a1: real, a2: real)
    requires a1 <= a2
    ensures BucketRank(BucketOf(a1)) <= BucketRank(BucketOf(a2))
  {
  }

  /** The three candidate colours of a bucket. */
  function BucketColours(b: AgeBucket): (cs: seq<seq<real>>)
    ensures |cs| == 3
  {
    match b
    case Bright => [[1.0, 0.0, 0.0], [1.0, 0.5, 0.0], [1.0, 1.0, 0.0]]
    case Medium => [[0.8, 0.2, 0.2], [0.8, 0.4, 0.1], [0.7, 0.7, 0.2]]
    case Dull => [[0.6, 0.3, 0.3], [0.6, 0.4, 0.2], [0.5, 0.5, 0.3]]
  }

  /** `random.choice(colors)` with the choice supplied as `pick`. */
  function PickColour(age: real, pick: nat): (c: seq<real>)
    requires pick < 3
    ensures c in BucketColours(BucketOf(age))
  {
    BucketColours(BucketOf(age))[pick]
  }

  // ---------------------------------------------------------------------
  // The mathematical library, supplied by the caller
  // ---------------------------------------------------------------------

  /**
   * `cos`, `sin`, `arctan2` and the Euclidean norm of a 2-vector. They are
   * not modelled; the caller passes them, and `Lawful` states the only facts
   * the proofs rely on.
   */
  datatype MathLib = MathLib(
    cos: real -> real,
    sin: real -> real,
    atan2: (real, real) -> real,
    hypot: (real, real) -> real)

  ghost predicate Lawful(m: MathLib)
  {
    (forall a :: -1.0 <= m.cos(a) <= 1.0) &&
    (forall a :: -1.0 <= m.sin(a) <= 1.0) &&
    (forall a, b :: 0.0 <= m.hypot(a, b))
  }

  // ---------------------------------------------------------------------
  // The few facts about products of reals the proofs rely on
  // ---------------------------------------------------------------------

  lemma MulNonneg(x: real, y: real)
    requires x >= 0.0 && y >= 0.0
    ensures x * y >= 0.0
  {
  }

  lemma MulPos(x: real, y: real)
    requires x > 0.0 && y > 0.0
    ensures x * y > 0.0
  {
  }

  /** Multiplying by a non-negative factor keeps `<=`. */
  lemma MulLeftMono(k: real, u: real, v: real)
    requires k >= 0.0 && u <= v
    ensures k * u <= k * v
  {
    MulNonneg(k, v - u);
    assert k * (v - u) == k * v - k * u;
  }

  lemma AbsMul(x: real, y: real)
    ensures Abs(x * y) == Abs(x) * Abs(y)
  {
    if x >= 0.0 && y >= 0.0 {
      MulNonneg(x, y);
    } else if x < 0.0 && y >= 0.0 {
      MulNonneg(-x, y);
      assert (-x) * y == -(x * y);
    } else if x >= 0.0 && y < 0.0 {
      MulNonneg(x, -y);
      assert x * (-y) == -(x * y);
    } else {
      MulNonneg(-x, -y);
      assert (-x) * (-y) == x * y;
    }
  }

  /** A value bounded by `bound` in magnitude, scaled by `k >= 0`, is bounded by `bound * k`. */
  lemma BoundedTimesNonneg(n: real, bound: real, k: real)
    requires -bound <= n <= bound && 0.0 <= k
    ensures Abs(n * k) <= bound * k
  {
    AbsMul(n, k);
    MulLeftMono(k, Abs(n), bound);
    assert Abs(n) * k == k * Abs(n) && bound * k == k * bound;
  }

  /** Scaling by a unit-bounded factor never lengthens a step. */
  lemma ScaledStepBounded(c: real, s: real)
    requires -1.0 <= c <= 1.0
    ensures Abs(c * s) <= Abs(s)
  {
    AbsMul(c, s);
    MulLeftMono(Abs(s), Abs(c), 1.0);
    assert Abs(c) * Abs(s) == Abs(s) * Abs(c);
  }

  /** The product of two numbers in [0, 1] lies in [0, 1]. */
  lemma MulUnitBounds(e: real, f: real)
    requires 0.0 <= e <= 1.0 && 0.0 <= f <= 1.0
    ensures 0.0 <= e * f <= 1.0
  {
    MulNonneg(e, f);
    MulLeftMono(e, f, 1.0);
  }

  /** A number in [-1, 1] has its square in [0, 1]. */
  lemma SquareOfUnit(d: real)
    requires -1.0 <= d <= 1.0
    ensures 0.0 <= d * d <= 1.0
  {
    MulUnitBounds(Abs(d), Abs(d));
    assert Abs(d) * Abs(d) == d * d;
  }

  /** A factor bounded by `bound` in magnitude scales any `k` to at most `bound * |k|`. */
  lemma BoundedTimesAny(n: real, bound: real, k: real)
    requires Abs(n) <= bound
    ensures Abs(n * k) <= bound * Abs(k)
  {
    AbsMul(n, k);
    MulLeftMono(Abs(k), Abs(n), bound);
    assert Abs(n) * Abs(k) == Abs(k) * Abs(n) && bound * Abs(k) == Abs(k) * bound;
  }

  /** Dividing by a non-zero number and multiplying back gives the number. */
  lemma DivMul(a: real, d: real)
    requires d != 0.0
    ensures d * (a / d) == a
  {
  }

  /** A product with a non-zero factor vanishes only when the other factor does. */
  lemma ProductZero(m: real, w: real)
    requires m != 0.0 && m * w == 0.0
    ensures w == 0.0
  {
  }

  // ---------------------------------------------------------------------
  // Start-up draws, shared by both simulators
  // ---------------------------------------------------------------------

  /** The speed multiplier per unit of youth. */
  const AGE_SPEED_FACTOR: real := 2.0

  /**
   * The random draws one agent consumes at start-up: the polar angle and
   * radius of its offset from the centre, its heading, its base speed, its
   * age and which of its bucket's three colours it gets.
   */
  datatype SpawnDraw = SpawnDraw(polar: real, radius: real, heading: real, baseSpeed: real, age: real, colourPick: nat)

  /** The ranges the uniform draws and the colour choice take their values from. */
  ghost predicate SpawnDrawInRange(d: SpawnDraw, width: int, height: int,
                                   speedLo: real, speedHi: real, ageLo: real, ageHi: real)
  {
    0.0 <= d.polar < 2.0 * PI &&
    0.0 <= d.radius < MinInt(width, height) as real / 4.0 &&
    0.0 <= d.heading < 2.0 * PI &&
    speedLo <= d.baseSpeed < speedHi &&
    ageLo <= d.age < ageHi &&
    d.colourPick < 3
  }

  /** `base_speed * AGE_SPEED_FACTOR * (1.1 - age)`. */
  function SpawnSpeed(baseSpeed: real, age: real): real
  {
    baseSpeed * (AGE_SPEED_FACTOR * (1.1 - age))
  }

  /** Of two agents with the same non-negative base speed, the older one is not faster. */
  lemma SpawnSpeedAntitone(baseSpeed: real, a1: real, a2: real)
    requires 0.0 <= baseSpeed && a1 <= a2
    ensures SpawnSpeed(baseSpeed, a2) <= SpawnSpeed(baseSpeed, a1)
  {
    MulLeftMono(baseSpeed, AGE_SPEED_FACTOR * (1.1 - a2), AGE_SPEED_FACTOR * (1.1 - a1));
  }

  /** The start position: the integer centre `extent // 2` plus the polar offset. */
  function SpawnX(width: int, d: SpawnDraw, m: MathLib): real
  {
    (width / 2) as real + d.radius * m.cos(d.polar)
  }

  function SpawnY(height: int, d: SpawnDraw, m: MathLib): real
  {
    (height / 2) as real + d.radius * m.sin(d.polar)
  }

  /** An offset of less than a quarter of an extent from the integer centre stays inside `[0, extent)`. */
  lemma CentreOffsetInside(extent: int, c: real, r: real)
    requires extent >= 2 && -1.0 <= c <= 1.0 && 0.0 <= r < extent as real / 4.0
    ensures 0.0 <= (extent / 2) as real + r * c < extent as real
  {
    ScaledStepBounded(c, r);
    assert r * c == c * r;
    assert (extent / 2) as real >= (extent as real - 1.0) / 2.0;
    assert (extent / 2) as real <= extent as real / 2.0;
  }

  /** On a grid of at least 2 by 2 every agent starts on the grid. */
  lemma SpawnInside(width: int, height: int, d: SpawnDraw, m: MathLib,
                    speedLo: real, speedHi: real, ageLo: real, ageHi: real)
    requires width >= 2 && height >= 2 && Lawful(m)
    requires SpawnDrawInRange(d, width, height, speedLo, speedHi, ageLo, ageHi)
    ensures 0.0 <= SpawnX(width, d, m) < width as real
    ensures 0.0 <= SpawnY(height, d, m) < height as real
  {
    assert MinInt(width, height) as real <= width as real && MinInt(width, height) as real <= height as real;
    CentreOffsetInside(width, m.cos(d.polar), d.radius);
    CentreOffsetInside(height, m.sin(d.polar), d.radius);
  }
}
