/**
 * The earlier swarm simulator: dictionary-keyed palette classification, the
 * clipped sampling window of the terrain influence, and the agent tick that
 * blends the heading with a terrain force, normalises the heading difference
 * with a floored modulo and wraps positions with the same modulo.
 */
module Swarm2 {
  import opened Common

  const NUM_BOTS: nat := 250
  const SPEED_LO: real := 3.0
  const SPEED_HI: real := 7.0
  const AGE_LO: real := 0.1
  const AGE_HI: real := 2.0
  const SAMPLE_RADIUS: int := 5

  /** The added constant that keeps the blended direction's norm away from zero. */
  const NORM_EPSILON: real := 0.000001

  // ---------------------------------------------------------------------
  // Classification
  // ---------------------------------------------------------------------

  /** The keys of the terrain colour table. */
  datatype TerrainKey = SparseForest | DenseForest | Water | Road

  /** The table's keys in declaration order, which is its iteration order. */
  const TERRAIN_KEYS: seq<TerrainKey> := [SparseForest, DenseForest, Water, Road]

  /** `list(TERRAIN_COLORS.keys()).index(key)`. */
  function KeyIndex(k: TerrainKey): (i: nat)
    ensures i < 4 && TERRAIN_KEYS[i] == k
  {
    match k
    case SparseForest => 0
    case DenseForest => 1
    case Water => 2
    case Road => 3
  }

  /** The keys are distinct: the index of the key at position `i` is `i`. */
  lemma KeyIndexInverse(i: nat)
    requires i < 4
    ensures KeyIndex(TERRAIN_KEYS[i]) == i
  {
  }

  /**
   * `closest_terrain_color`: the key whose colour is nearest, where `min`
   * over the table keeps the first key of least distance. Distances are
   * compared squared; see README.
   */
  function ClosestTerrainColor(pixel: seq<real>): (k: TerrainKey)
    requires |pixel| == 3
    ensures forall j :: 0 <= j < 4 ==> Distances(pixel)[KeyIndex(k)] <= Distances(pixel)[j]
    ensures forall j :: 0 <= j < KeyIndex(k) ==> Distances(pixel)[j] > Distances(pixel)[KeyIndex(k)]
  {
    TERRAIN_KEYS[FirstMin(Distances(pixel))]
  }

  /** The dictionary classifier and the array classifier assign every colour the same code. */
  lemma ClassifiersAgree(pixel: seq<real>)
    requires |pixel| == 3
    ensures KeyIndex(ClosestTerrainColor(pixel)) == FirstMin(Distances(pixel))
  {
    var d := Distances(pixel);
    FirstMinUnique(d, KeyIndex(ClosestTerrainColor(pixel)));
  }

  /** `_classify_terrain`: every pixel, row by row, gets the index of its closest key. */
  method ClassifyTerrain(bg: seq<seq<seq<int>>>, height: nat, width: nat) returns (terrain: array2<int>)
    requires IsRaster(bg, height, width)
    ensures fresh(terrain)
    ensures terrain.Length0 == height && terrain.Length1 == width
    ensures forall y, x :: 0 <= y < height && 0 <= x < width ==>
      terrain[y, x] == KeyIndex(ClosestTerrainColor(Normalize(bg[y][x])))
  {
    terrain := new int[height, width]((_, _) => 0);
    for y := 0 to height
      invariant forall yy, xx :: 0 <= yy < y && 0 <= xx < width ==>
        terrain[yy, xx] == KeyIndex(ClosestTerrainColor(Normalize(bg[yy][xx])))
    {
      ClassifyRow(terrain, bg, height, width, y);
    }
  }

  /** The inner loop of `classify_terrain`: row `y` is labelled, the other rows are left alone. */
  method ClassifyRow(terrain: array2<int>, bg: seq<seq<seq<int>>>, height: nat, width: nat, y: nat)
    requires IsRaster(bg, height, width) && y < height
    requires terrain.Length0 == height && terrain.Length1 == width
    modifies terrain
    ensures forall yy, xx :: 0 <= yy < height && 0 <= xx < width && yy != y ==> terrain[yy, xx] == old(terrain[yy, xx])
    ensures forall xx :: 0 <= xx < width ==> terrain[y, xx] == KeyIndex(ClosestTerrainColor(Normalize(bg[y][xx])))
  {
    for x := 0 to width
      invariant forall yy, xx :: 0 <= yy < height && 0 <= xx < width && yy != y ==> terrain[yy, xx] == old(terrain[yy, xx])
      invariant forall xx :: 0 <= xx < x ==> terrain[y, xx] == KeyIndex(ClosestTerrainColor(Normalize(bg[y][xx])))
    {
      var pixel := Normalize(bg[y][x]);
      var terrainType := ClosestTerrainColor(pixel);
      terrain[y, x] := KeyIndex(terrainType);
    }
  }

  // ---------------------------------------------------------------------
  // The sampling window of the terrain influence
  // ---------------------------------------------------------------------

  /** The sampled cell and the clipped window around it. */
  datatype Patch = Patch(xInt: int, yInt: int, xs: Span, ys: Span)

  /** `int(np.clip(v, 0, extent - 1))`: clip first, then truncate. */
  function ClipIndex(v: real, extent: int): (i: int)
    requires extent >= 1
    ensures 0 <= i < extent
    ensures 0.0 <= v < extent as real ==> i == v.Floor
  {
    Trunc(ClampReal(v, 0.0, (extent - 1) as real))
  }

  /** Clipping before truncating gives the same cell as truncating before clamping. */
  lemma ClipIndexMatchesClampedTrunc(v: real, extent: int)
    requires extent >= 1
    ensures ClipIndex(v, extent) == MaxInt(0, MinInt(extent - 1, Trunc(v)))
  {
    if v < 0.0 {
      assert Trunc(v) <= 0;
    } else if v > (extent - 1) as real {
      assert Trunc(v) >= extent - 1;
    }
  }

  /** The window of `_get_terrain_influence`: radius 5 around the clipped cell. */
  function InfluencePatch(x: real, y: real, width: int, height: int): (p: Patch)
    requires width >= 1 && height >= 1
    ensures 0 <= p.xInt < width && 0 <= p.yInt < height
    ensures 0 <= p.xs.lo <= p.xInt < p.xs.hi <= width
    ensures 0 <= p.ys.lo <= p.yInt < p.ys.hi <= height
    ensures p.xs.hi - p.xs.lo <= 2 * SAMPLE_RADIUS + 1 && p.ys.hi - p.ys.lo <= 2 * SAMPLE_RADIUS + 1
  {
    var xInt := ClipIndex(x, width);
    var yInt := ClipIndex(y, height);
    Patch(xInt, yInt, Window(xInt, SAMPLE_RADIUS, width), Window(yInt, SAMPLE_RADIUS, height))
  }

  /** The patch never is empty: it holds at least the sampled cell. */
  lemma InfluencePatchNonEmpty(x: real, y: real, width: int, height: int)
    requires width >= 1 && height >= 1
    ensures var p := InfluencePatch(x, y, width, height);
      (p.xs.hi - p.xs.lo) * (p.ys.hi - p.ys.lo) >= 1
  {
    var p := InfluencePatch(x, y, width, height);
    PositiveProduct(p.xs.hi - p.xs.lo, p.ys.hi - p.ys.lo);
  }

  lemma PositiveProduct(a: int, b: int)
    requires a >= 1 && b >= 1
    ensures a * b >= 1
  {
    assert a * b == a * (b - 1) + a;
    assert a * (b - 1) >= 0;
  }

  // ---------------------------------------------------------------------
  // Floored modulo
  // ---------------------------------------------------------------------

  /** The floored quotient `a // m`. */
  function FloorDiv(a: real, m: real): int
    requires m > 0.0
  {
    (a / m).Floor
  }

  /** `q = floor(u)` with `a = m * u` brackets `a` between `m * q` and `m * q + m`. */
  lemma ScaledFloorBracket(a: real, m: real, u: real)
    requires m > 0.0 && m * u == a
    ensures m * (u.Floor as real) <= a < m * (u.Floor as real) + m
  {
    var q := u.Floor as real;
    MulNonneg(m, u - q);
    MulPos(m, q + 1.0 - u);
    assert m * (u - q) == m * u - m * q;
    assert m * (q + 1.0 - u) == m * q + m - m * u;
  }

  /** The floored quotient brackets its dividend: `m * q <= a < m * q + m`. */
  lemma FloorDivBounds(a: real, m: real)
    requires m > 0.0
    ensures m * (FloorDiv(a, m) as real) <= a < m * (FloorDiv(a, m) as real) + m
  {
    ScaledFloorBracket(a, m, a / m);
  }

  /** Python's float `a % m` for a positive modulus: `a - m * floor(a / m)`. */
  function PyMod(a: real, m: real): (r: real)
    requires m > 0.0
    ensures 0.0 <= r < m
    ensures r == a - m * (FloorDiv(a, m) as real)
  {
    FloorDivBounds(a, m);
    a - m * (FloorDiv(a, m) as real)
  }

  /** Scaling by `m > 0` sends negatives below 0 and values from 1 up to at least `m`. */
  lemma ScaleSigns(m: real, u: real)
    requires m > 0.0
    ensures u < 0.0 ==> m * u < 0.0
    ensures u >= 1.0 ==> m * u >= m
  {
    if u < 0.0 {
      MulPos(m, -u);
      assert m * (-u) == -(m * u);
    }
    if u >= 1.0 {
      MulLeftMono(m, 1.0, u);
    }
  }

  /** The quotient of a value in `[0, m)` by `m` lies in `[0, 1)`. */
  lemma UnitQuotient(a: real, m: real, u: real)
    requires m > 0.0 && m * u == a && 0.0 <= a < m
    ensures 0.0 <= u < 1.0
  {
    ScaleSigns(m, u);
  }

  /** A value already in `[0, m)` is its own modulo. */
  lemma PyModIdentity(a: real, m: real)
    requires m > 0.0 && 0.0 <= a < m
    ensures PyMod(a, m) == a
  {
    UnitQuotient(a, m, a / m);
  }

  /** `(d + pi) % (2 pi) - pi`: the heading difference brought into [-pi, pi). */
  function AngleDiff(d: real): (r: real)
    ensures -PI <= r < PI
  {
    PyMod(d + PI, 2.0 * PI) - PI
  }

  /** The normalised difference points the same way: it differs from `d` by whole turns. */
  lemma AngleDiffWholeTurns(d: real)
    ensures AngleDiff(d) == d - 2.0 * PI * (FloorDiv(d + PI, 2.0 * PI) as real)
  {
  }

  /** A difference already in [-pi, pi) is left as it is. */
  lemma AngleDiffIdentity(d: real)
    requires -PI <= d < PI
    ensures AngleDiff(d) == d
  {
    PyModIdentity(d + PI, 2.0 * PI);
  }

  // ---------------------------------------------------------------------
  // Agents
  // ---------------------------------------------------------------------

  /** One entry of `self.bots`. */
  datatype Bot = Bot(x: real, y: real, angle: real, speed: real, age: real, baseSpeed: real, colour: seq<real>)

  /** The agent one start-up draw produces. */
  function SpawnBot(width: int, height: int, d: SpawnDraw, m: MathLib): (b: Bot)
    requires d.colourPick < 3
    ensures b.speed == SpawnSpeed(b.baseSpeed, b.age)
    ensures b.colour in BucketColours(BucketOf(b.age))
  {
    Bot(SpawnX(width, d, m), SpawnY(height, d, m), d.heading, SpawnSpeed(d.baseSpeed, d.age), d.age,
        d.baseSpeed, PickColour(d.age, d.colourPick))
  }

  /** With ages drawn up to 2, an agent older than 1.1 gets a negative speed: it moves backwards. */
  lemma SpeedNegativePastAgeLimit(baseSpeed: real, age: real)
    requires baseSpeed > 0.0 && age > 1.1
    ensures SpawnSpeed(baseSpeed, age) < 0.0
  {
    var k := AGE_SPEED_FACTOR * (1.1 - age);
    MulPos(baseSpeed, -k);
    assert baseSpeed * (-k) == -SpawnSpeed(baseSpeed, age);
  }

  /** Every spawned speed lies strictly between -12.6 and 14. */
  lemma SpawnSpeedRange(baseSpeed: real, age: real)
    requires SPEED_LO <= baseSpeed < SPEED_HI && AGE_LO <= age < AGE_HI
    ensures -12.6 < SpawnSpeed(baseSpeed, age) < 14.0
  {
    var k := AGE_SPEED_FACTOR * (1.1 - age);
    assert -1.8 < k <= 2.0;
    assert SpawnSpeed(baseSpeed, age) == k * baseSpeed;
    if k > 0.0 {
      MulPos(k, 7.0 - baseSpeed);
      assert k * (7.0 - baseSpeed) == 7.0 * k - k * baseSpeed;
    } else if k < 0.0 {
      MulPos(-k, 7.0 - baseSpeed);
      assert (-k) * (7.0 - baseSpeed) == k * baseSpeed - 7.0 * k;
    }
  }

  /** The steering strength: younger agents follow the terrain more. */
  function InfluenceStrength(age: real): (s: real)
    ensures 0.0 <= age < 2.0 ==> 0.0 < s <= 0.6
    ensures age < 2.0 ==> 0.0 < s
  {
    0.3 * (2.0 - age)
  }

  /**
   * The heading after blending: the unit-length mix of the current direction
   * and the scaled terrain force gives a target, and the heading moves a
   * tenth of the normalised way towards it.
   */
  function BlendedHeading(b: Bot, force: Point, m: MathLib): real
    requires Lawful(m)
  {
    b.angle + 0.1 * AngleDiff(Target(b, force, m) - b.angle)
  }

  /** The heading of the normalised blend of the current direction and the scaled force. */
  function Target(b: Bot, force: Point, m: MathLib): real
    requires Lawful(m)
  {
    var s := InfluenceStrength(b.age);
    var dx := m.cos(b.angle) + s * force.x;
    var dy := m.sin(b.angle) + s * force.y;
    var n := m.hypot(dx, dy) + NORM_EPSILON;
    m.atan2(dy / n, dx / n)
  }

  /** The age-scaled drift added after blending. */
  function DriftTerm(drift: real, age: real): real
  {
    drift * (1.0 - age * 0.3)
  }

  /** One tick of one agent: blend, drift, move, then wrap both coordinates with `%`. */
  function TickBot(b: Bot, force: Point, drift: real, width: int, height: int, m: MathLib): (nb: Bot)
    requires Lawful(m) && width >= 1 && height >= 1
    ensures nb.speed == b.speed && nb.age == b.age && nb.baseSpeed == b.baseSpeed && nb.colour == b.colour
    ensures 0.0 <= nb.x < width as real && 0.0 <= nb.y < height as real
  {
    var a := BlendedHeading(b, force, m) + DriftTerm(drift, b.age);
    b.(x := PyMod(b.x + m.cos(a) * b.speed, width as real),
       y := PyMod(b.y + m.sin(a) * b.speed, height as real),
       angle := a)
  }

  /** A drift drawn from [-0.02, 0.02] moves the heading by at most `0.02 |1 - 0.3 age|`. */
  lemma DriftBounded(drift: real, age: real)
    requires -0.02 <= drift <= 0.02
    ensures Abs(DriftTerm(drift, age)) <= 0.02 * Abs(1.0 - age * 0.3)
  {
    BoundedTimesAny(drift, 0.02, 1.0 - age * 0.3);
  }

  /**
   * The whole heading change of a tick is the tenth of a normalised
   * difference plus the drift: at most `0.1 pi + 0.02 |1 - 0.3 age|`.
   */
  lemma HeadingChangeBounded(b: Bot, force: Point, drift: real, width: int, height: int, m: MathLib)
    requires Lawful(m) && width >= 1 && height >= 1 && -0.02 <= drift <= 0.02
    ensures Abs(TickBot(b, force, drift, width, height, m).angle - b.angle) <= 0.1 * PI + 0.02 * Abs(1.0 - b.age * 0.3)
  {
    var diff := AngleDiff(Target(b, force, m) - b.angle);
    BoundedTimesNonneg(diff, PI, 0.1);
    assert Abs(0.1 * diff) <= 0.1 * PI;
    DriftBounded(drift, b.age);
    assert TickBot(b, force, drift, width, height, m).angle - b.angle == diff * 0.1 + DriftTerm(drift, b.age);
  }

  /**
   * `SwarmBot`: the background's terrain classes and the list of agents,
   * each a record the tick rewrites.
   */
  class SwarmBot {
    const width: int
    const height: int
    const terrain: array2<int>
    var bots: seq<Bot>

    ghost predicate Valid()
      reads this
    {
      width >= 1 && height >= 1 && terrain.Length0 == height && terrain.Length1 == width
    }

    /** Every agent is on the grid. */
    ghost predicate Inside()
      reads this
    {
      forall i :: 0 <= i < |bots| ==> 0.0 <= bots[i].x < width as real && 0.0 <= bots[i].y < height as real
    }

    /**
     * `__init__`, with the image given as its pixel raster and the random
     * draws given per agent; the elevation source is not modelled.
     */
    constructor (bg: seq<seq<seq<int>>>, width: nat, height: nat, spawns: seq<SpawnDraw>, m: MathLib)
      requires width >= 1 && height >= 1 && IsRaster(bg, height, width)
      requires |spawns| == NUM_BOTS
      requires forall i :: 0 <= i < NUM_BOTS ==> SpawnDrawInRange(spawns[i], width, height, SPEED_LO, SPEED_HI, AGE_LO, AGE_HI)
      ensures Valid()
      ensures this.width == width && this.height == height && fresh(terrain)
      ensures forall y, x :: 0 <= y < height && 0 <= x < width ==>
        terrain[y, x] == KeyIndex(ClosestTerrainColor(Normalize(bg[y][x])))
      ensures |bots| == NUM_BOTS
      ensures forall i :: 0 <= i < NUM_BOTS ==> spawns[i].colourPick < 3 && bots[i] == SpawnBot(width, height, spawns[i], m)
      ensures Lawful(m) && width >= 2 && height >= 2 ==> Inside()
    {
      this.width := width;
      this.height := height;
      var t := ClassifyTerrain(bg, height, width);
      terrain := t;
      var bs: seq<Bot> := [];
      for i := 0 to NUM_BOTS
        invariant |bs| == i
        invariant forall k :: 0 <= k < i ==> bs[k] == SpawnBot(width, height, spawns[k], m)
      {
        var d := spawns[i];
        var x, y := SpawnX(width, d, m), SpawnY(height, d, m);
        var speed := d.baseSpeed * (AGE_SPEED_FACTOR * (1.1 - d.age));
        var colour := PickColour(d.age, d.colourPick);
        bs := bs + [Bot(x, y, d.heading, speed, d.age, d.baseSpeed, colour)];
      }
      bots := bs;
      new;
      if Lawful(m) && width >= 2 && height >= 2 {
        forall i | 0 <= i < NUM_BOTS
          ensures 0.0 <= bots[i].x < width as real && 0.0 <= bots[i].y < height as real
        {
          SpawnInside(width, height, spawns[i], m, SPEED_LO, SPEED_HI, AGE_LO, AGE_HI);
        }
      }
    }

    /**
     * `update_bots_with_terrain`: every agent, in list order, gets its
     * `TickBot` with the terrain force `influence` supplies for its position
     * and its drift draw. The sensing radius is accepted and not used. After
     * the tick every agent is on the grid, whatever its speed.
     */
    method UpdateBotsWithTerrain(sensingRadius: int, influence: (real, real) -> Point, drifts: seq<real>, m: MathLib)
      requires Valid() && Lawful(m) && |drifts| == |bots|
      modifies this
      ensures Valid()
      ensures |bots| == |old(bots)|
      ensures forall i :: 0 <= i < |bots| ==>
        bots[i] == TickBot(old(bots)[i], influence(old(bots)[i].x, old(bots)[i].y), drifts[i], width, height, m)
      ensures Inside()
    {
      ghost var start := bots;
      for i := 0 to |bots|
        invariant |bots| == |start|
        invariant forall k :: 0 <= k < i ==>
          bots[k] == TickBot(start[k], influence(start[k].x, start[k].y), drifts[k], width, height, m)
        invariant forall k :: i <= k < |bots| ==> bots[k] == start[k]
      {
        var bot := bots[i];
        bots := bots[i := TickBot(bot, influence(bot.x, bot.y), drifts[i], width, height, m)];
      }
    }
  }
}
