/**
 * The optimised swarm simulator: palette classification of the background
 * image (per pixel and chunk by chunk), the per-agent tick over arrays, and
 * the simulator object that owns the agent arrays.
 */
module Anim {
  import opened Common

  const SPEED_LO: real := 1.0
  const SPEED_HI: real := 3.0
  const ELEVATION_PREFERENCE: real := 0.65
  const AGE_LO: real := 0.1
  const AGE_HI: real := 1.0
  const SENSING_RADIUS: int := 3
  const CHUNK_SIZE: int := 1000

  /** The starting value of the running minimum in the per-pixel classifier. */
  const MIN_DIST_START: real := 999.0

  // ---------------------------------------------------------------------
  // Terrain classification
  // ---------------------------------------------------------------------

  /**
   * Per-pixel classification: the palette index at least squared distance,
   * the first one on ties. The running minimum starts at 999, so a colour at
   * distance 999 or more from every entry is reported as index 0.
   */
  method FastClosestTerrain(pixel: seq<real>) returns (closest: nat)
    requires |pixel| == 3
    ensures closest < 4
    ensures (exists i :: 0 <= i < 4 && Distances(pixel)[i] < MIN_DIST_START) ==>
      closest == FirstMin(Distances(pixel))
    ensures (forall i :: 0 <= i < 4 ==> Distances(pixel)[i] >= MIN_DIST_START) ==> closest == 0
  {
    ghost var d := Distances(pixel);
    var minDist := MIN_DIST_START;
    closest := 0;
    for i := 0 to 4
      invariant closest < 4
      invariant minDist < MIN_DIST_START ==>
        closest < i && closest == FirstMin(d[..i]) && minDist == d[closest]
      invariant minDist >= MIN_DIST_START ==>
        minDist == MIN_DIST_START && closest == 0 && forall k :: 0 <= k < i ==> d[k] >= MIN_DIST_START
    {
      var dist := ChannelDistance(pixel, i);
      if minDist < MIN_DIST_START {
        FirstMinStep(d, i);
      } else if dist < minDist {
        FirstMinUnique(d[..i + 1], i);
      }
      if dist < minDist {
        minDist := dist;
        closest := i;
      }
    }
    assert d[..4] == d;
  }

  /** On an 8-bit image pixel the starting bound never matters: the result is the first nearest entry. */
  lemma FastClosestOnImagePixel(p: seq<int>)
    requires IsPixel(p)
    ensures exists i :: 0 <= i < 4 && Distances(Normalize(p))[i] < MIN_DIST_START
  {
    DistancesOfUnitColourBounded(Normalize(p));
    assert Distances(Normalize(p))[0] < MIN_DIST_START;
  }

  /** The inner channel loop: the squared distance of `pixel` to palette entry `i`. */
  method ChannelDistance(pixel: seq<real>, i: nat) returns (dist: real)
    requires |pixel| == 3 && i < 4
    ensures dist == Distances(pixel)[i]
  {
    dist := 0.0;
    for j := 0 to 3
      invariant dist == PartialSqDist(pixel, PALETTE[i], j)
    {
      var diff := pixel[j] - PALETTE[i][j];
      dist := dist + diff * diff;
    }
  }

  /**
   * What palette pass `t` does to one cell whose code and running minimum
   * were `oldCode` and `oldMin` and whose distance to entry `t` is `d`:
   * pass 0 sets code 0 and minimum `d`; a later pass sets code `t` and
   * minimum `d` where `d < oldMin` (the mask) and leaves the cell otherwise.
   */
  ghost predicate PassedCell(newCode: int, newMin: real, oldCode: int, oldMin: real, d: real, t: int)
  {
    if t == 0 || d < oldMin then newCode == t && newMin == d
    else newCode == oldCode && newMin == oldMin
  }

  /** Palette pass `t` over row `y` of a chunk, columns `x0 .. x1 - 1`. */
  method RowPass(terrain: array2<int>, minDist: array2<real>, bg: seq<seq<seq<int>>>,
                 t: int, y0: int, y: int, x0: int, x1: int)
    requires IsRaster(bg, terrain.Length0, terrain.Length1)
    requires 0 <= y0 <= y < y0 + minDist.Length0 <= terrain.Length0
    requires 0 <= x0 <= x1 <= terrain.Length1 && minDist.Length1 == x1 - x0
    requires 0 <= t < 4
    modifies terrain, minDist
    ensures forall yy, xx :: (0 <= yy < terrain.Length0 && 0 <= xx < terrain.Length1 &&
      !(yy == y && x0 <= xx < x1)) ==> terrain[yy, xx] == old(terrain[yy, xx])
    ensures forall r, c :: (0 <= r < minDist.Length0 && 0 <= c < minDist.Length1 && r != y - y0) ==>
      minDist[r, c] == old(minDist[r, c])
    ensures forall xx :: x0 <= xx < x1 ==>
      PassedCell(terrain[y, xx], minDist[y - y0, xx - x0], old(terrain[y, xx]), old(minDist[y - y0, xx - x0]),
                 Distances(Normalize(bg[y][xx]))[t], t)
  {
    var x := x0;
    while x < x1
      invariant x0 <= x <= x1
      invariant forall yy, xx :: (0 <= yy < terrain.Length0 && 0 <= xx < terrain.Length1 &&
        !(yy == y && x0 <= xx < x)) ==> terrain[yy, xx] == old(terrain[yy, xx])
      invariant forall r, c :: (0 <= r < minDist.Length0 && 0 <= c < minDist.Length1 &&
        (r != y - y0 || x - x0 <= c)) ==> minDist[r, c] == old(minDist[r, c])
      invariant forall xx :: x0 <= xx < x ==>
        PassedCell(terrain[y, xx], minDist[y - y0, xx - x0], old(terrain[y, xx]), old(minDist[y - y0, xx - x0]),
                   Distances(Normalize(bg[y][xx]))[t], t)
    {
      var dist := SqDist(Normalize(bg[y][x]), PALETTE[t]);
      if t == 0 {
        minDist[y - y0, x - x0] := dist;
        terrain[y, x] := 0;
      } else if dist < minDist[y - y0, x - x0] {
        terrain[y, x] := t;
        minDist[y - y0, x - x0] := dist;
      }
      x := x + 1;
    }
  }

  /**
   * One palette pass over a chunk (`distances < min_distances` as the mask,
   * `np.minimum` for the running minimum), row by row.
   */
  method ChunkPass(terrain: array2<int>, minDist: array2<real>, bg: seq<seq<seq<int>>>,
                   t: int, y0: int, y1: int, x0: int, x1: int)
    requires IsRaster(bg, terrain.Length0, terrain.Length1)
    requires 0 <= y0 <= y1 <= terrain.Length0 && 0 <= x0 <= x1 <= terrain.Length1
    requires minDist.Length0 == y1 - y0 && minDist.Length1 == x1 - x0
    requires 0 <= t < 4
    modifies terrain, minDist
    ensures forall y, x :: (0 <= y < terrain.Length0 && 0 <= x < terrain.Length1 &&
      !(y0 <= y < y1 && x0 <= x < x1)) ==> terrain[y, x] == old(terrain[y, x])
    ensures forall y, x :: y0 <= y < y1 && x0 <= x < x1 ==>
      PassedCell(terrain[y, x], minDist[y - y0, x - x0], old(terrain[y, x]), old(minDist[y - y0, x - x0]),
                 Distances(Normalize(bg[y][x]))[t], t)
  {
    var y := y0;
    while y < y1
      invariant y0 <= y <= y1
      invariant forall yy, xx :: (0 <= yy < terrain.Length0 && 0 <= xx < terrain.Length1 &&
        !(y0 <= yy < y && x0 <= xx < x1)) ==> terrain[yy, xx] == old(terrain[yy, xx])
      invariant forall r, c :: y - y0 <= r < minDist.Length0 && 0 <= c < minDist.Length1 ==>
        minDist[r, c] == old(minDist[r, c])
      invariant forall yy, xx :: y0 <= yy < y && x0 <= xx < x1 ==>
        PassedCell(terrain[yy, xx], minDist[yy - y0, xx - x0], old(terrain[yy, xx]), old(minDist[yy - y0, xx - x0]),
                   Distances(Normalize(bg[yy][xx]))[t], t)
    {
      RowPass(terrain, minDist, bg, t, y0, y, x0, x1);
      y := y + 1;
    }
  }

  /** Classify one chunk: the four palette passes leave the first nearest index in every cell. */
  method ClassifyChunk(terrain: array2<int>, bg: seq<seq<seq<int>>>, y0: int, y1: int, x0: int, x1: int)
    requires IsRaster(bg, terrain.Length0, terrain.Length1)
    requires 0 <= y0 <= y1 <= terrain.Length0 && 0 <= x0 <= x1 <= terrain.Length1
    modifies terrain
    ensures forall y, x :: (0 <= y < terrain.Length0 && 0 <= x < terrain.Length1 &&
      !(y0 <= y < y1 && x0 <= x < x1)) ==> terrain[y, x] == old(terrain[y, x])
    ensures forall y, x :: y0 <= y < y1 && x0 <= x < x1 ==>
      terrain[y, x] == FirstMin(Distances(Normalize(bg[y][x])))
  {
    var minDist := new real[y1 - y0, x1 - x0];
    for t := 0 to 4
      invariant forall y, x :: (0 <= y < terrain.Length0 && 0 <= x < terrain.Length1 &&
        !(y0 <= y < y1 && x0 <= x < x1)) ==> terrain[y, x] == old(terrain[y, x])
      invariant t > 0 ==> forall y, x :: y0 <= y < y1 && x0 <= x < x1 ==>
        0 <= terrain[y, x] < 4 &&
        terrain[y, x] == FirstMin(Distances(Normalize(bg[y][x]))[..t]) &&
        minDist[y - y0, x - x0] == Distances(Normalize(bg[y][x]))[terrain[y, x]]
    {
      ChunkPass(terrain, minDist, bg, t, y0, y1, x0, x1);
      forall y, x | y0 <= y < y1 && x0 <= x < x1
        ensures 0 <= terrain[y, x] < 4
        ensures terrain[y, x] == FirstMin(Distances(Normalize(bg[y][x]))[..t + 1])
        ensures minDist[y - y0, x - x0] == Distances(Normalize(bg[y][x]))[terrain[y, x]]
      {
        if t > 0 {
          FirstMinStep(Distances(Normalize(bg[y][x])), t);
        }
      }
    }
    forall y, x | y0 <= y < y1 && x0 <= x < x1
      ensures terrain[y, x] == FirstMin(Distances(Normalize(bg[y][x])))
    {
      assert Distances(Normalize(bg[y][x]))[..4] == Distances(Normalize(bg[y][x]));
    }
  }

  /**
   * The chunked classifier: chunks of 1000 x 1000 pixels tile the image row
   * band by row band, and every cell ends with the first nearest palette index.
   */
  method ClassifyTerrainVectorized(bg: seq<seq<seq<int>>>, height: nat, width: nat) returns (terrain: array2<int>)
    requires IsRaster(bg, height, width)
    ensures fresh(terrain)
    ensures terrain.Length0 == height && terrain.Length1 == width
    ensures forall y, x :: 0 <= y < height && 0 <= x < width ==>
      terrain[y, x] == FirstMin(Distances(Normalize(bg[y][x])))
  {
    terrain := new int[height, width]((_, _) => 0);
    var yStart := 0;
    while yStart < height
      invariant 0 <= yStart
      invariant forall y, x :: 0 <= y < height && y < yStart && 0 <= x < width ==>
        terrain[y, x] == FirstMin(Distances(Normalize(bg[y][x])))
    {
      var yEnd := MinInt(yStart + CHUNK_SIZE, height);
      var xStart := 0;
      while xStart < width
        invariant 0 <= xStart
        invariant forall y, x :: 0 <= y < yStart && 0 <= x < width ==>
          terrain[y, x] == FirstMin(Distances(Normalize(bg[y][x])))
        invariant forall y, x :: yStart <= y < yEnd && 0 <= x < width && x < xStart ==>
          terrain[y, x] == FirstMin(Distances(Normalize(bg[y][x])))
      {
        var xEnd := MinInt(xStart + CHUNK_SIZE, width);
        ClassifyChunk(terrain, bg, yStart, yEnd, xStart, xEnd);
        xStart := xStart + CHUNK_SIZE;
      }
      yStart := yStart + CHUNK_SIZE;
    }
  }

  // ---------------------------------------------------------------------
  // The per-agent tick
  // ---------------------------------------------------------------------

  /** The random numbers one agent's tick uses (`random.random()` and `np.random.uniform`). */
  datatype TickDraw = TickDraw(edgeCoin: real, edgeTurn: real, elevationCoin: real, jitter: real)

  /** The three steering rules, and none. */
  datatype Branch = WaterEdge | RoadFollow | Downhill | NoSteer

  /** The part of an agent a tick writes. */
  datatype Motion = Motion(x: real, y: real, angle: real)

  /** The integer cell of a coordinate, truncated and clamped into `0 .. extent - 1`. */
  function CellIndex(v: real, extent: int): (c: int)
    requires extent >= 1
    ensures 0 <= c <= extent - 1
    ensures 0.0 <= v < extent as real ==> c == v.Floor
  {
    MaxInt(0, MinInt(extent - 1, Trunc(v)))
  }

  /** Number of cells of row `y`, columns `x0 .. x1 - 1`, that hold `code`. */
  function CountRow(t: array2<int>, y: int, x0: int, x1: int, code: int): nat
    reads t
    requires 0 <= y < t.Length0 && 0 <= x0 <= x1 <= t.Length1
    decreases x1 - x0
  {
    if x1 == x0 then 0
    else CountRow(t, y, x0, x1 - 1, code) + (if t[y, x1 - 1] == code then 1 else 0)
  }

  /** Number of cells of the window `ys` x `xs` that hold `code`. */
  function CountRect(t: array2<int>, ys: Span, xs: Span, code: int): nat
    reads t
    requires 0 <= ys.lo <= ys.hi <= t.Length0 && 0 <= xs.lo <= xs.hi <= t.Length1
    decreases ys.hi - ys.lo
  {
    if ys.hi == ys.lo then 0
    else CountRect(t, Span(ys.lo, ys.hi - 1), xs, code) + CountRow(t, ys.hi - 1, xs.lo, xs.hi, code)
  }

  lemma {:induction false} WaterRoadWithinRow(t: array2<int>, y: int, x0: int, x1: int)
    requires 0 <= y < t.Length0 && 0 <= x0 <= x1 <= t.Length1
    ensures CountRow(t, y, x0, x1, WATER) + CountRow(t, y, x0, x1, ROAD) <= x1 - x0
    decreases x1 - x0
  {
    if x1 > x0 {
      WaterRoadWithinRow(t, y, x0, x1 - 1);
    }
  }

  /** Water and road cells are counted apart, so together they never exceed the window. */
  lemma {:induction false} WaterRoadWithinWindow(t: array2<int>, ys: Span, xs: Span)
    requires 0 <= ys.lo <= ys.hi <= t.Length0 && 0 <= xs.lo <= xs.hi <= t.Length1
    ensures CountRect(t, ys, xs, WATER) + CountRect(t, ys, xs, ROAD) <= (ys.hi - ys.lo) * (xs.hi - xs.lo)
    decreases ys.hi - ys.lo
  {
    if ys.hi > ys.lo {
      WaterRoadWithinWindow(t, Span(ys.lo, ys.hi - 1), xs);
      WaterRoadWithinRow(t, ys.hi - 1, xs.lo, xs.hi);
      assert (ys.hi - ys.lo) * (xs.hi - xs.lo) == (ys.hi - 1 - ys.lo) * (xs.hi - xs.lo) + (xs.hi - xs.lo);
    }
  }

  /** The sensing loop: count every cell of the window, and the water and road cells among them. */
  method SenseCounts(terrain: array2<int>, ys: Span, xs: Span) returns (water: nat, road: nat, total: nat)
    requires 0 <= ys.lo <= ys.hi <= terrain.Length0 && 0 <= xs.lo <= xs.hi <= terrain.Length1
    ensures water == CountRect(terrain, ys, xs, WATER)
    ensures road == CountRect(terrain, ys, xs, ROAD)
    ensures total == (ys.hi - ys.lo) * (xs.hi - xs.lo)
    ensures water + road <= total
  {
    water, road, total := 0, 0, 0;
    var yi := ys.lo;
    while yi < ys.hi
      invariant ys.lo <= yi <= ys.hi
      invariant water == CountRect(terrain, Span(ys.lo, yi), xs, WATER)
      invariant road == CountRect(terrain, Span(ys.lo, yi), xs, ROAD)
      invariant total == (yi - ys.lo) * (xs.hi - xs.lo)
    {
      var rowWater, rowRoad, rowTotal := SenseRow(terrain, yi, xs);
      CountRectStep(terrain, ys.lo, yi, xs);
      water, road, total := water + rowWater, road + rowRoad, total + rowTotal;
      RowsTimesWidth(yi - ys.lo, xs.hi - xs.lo);
      yi := yi + 1;
    }
    WaterRoadWithinWindow(terrain, ys, xs);
  }

  lemma RowsTimesWidth(rows: int, w: int)
    ensures (rows + 1) * w == rows * w + w
  {
  }

  lemma CountRectStep(t: array2<int>, lo: int, y: int, xs: Span)
    requires 0 <= lo <= y < t.Length0 && 0 <= xs.lo <= xs.hi <= t.Length1
    ensures CountRect(t, Span(lo, y + 1), xs, WATER) == CountRect(t, Span(lo, y), xs, WATER) + CountRow(t, y, xs.lo, xs.hi, WATER)
    ensures CountRect(t, Span(lo, y + 1), xs, ROAD) == CountRect(t, Span(lo, y), xs, ROAD) + CountRow(t, y, xs.lo, xs.hi, ROAD)
  {
  }

  /** The inner sensing loop over one row of the window. */
  method SenseRow(terrain: array2<int>, yi: int, xs: Span) returns (water: nat, road: nat, total: nat)
    requires 0 <= yi < terrain.Length0 && 0 <= xs.lo <= xs.hi <= terrain.Length1
    ensures water == CountRow(terrain, yi, xs.lo, xs.hi, WATER)
    ensures road == CountRow(terrain, yi, xs.lo, xs.hi, ROAD)
    ensures total == xs.hi - xs.lo
  {
    water, road, total := 0, 0, 0;
    var xi := xs.lo;
    while xi < xs.hi
      invariant xs.lo <= xi <= xs.hi
      invariant water == CountRow(terrain, yi, xs.lo, xi, WATER)
      invariant road == CountRow(terrain, yi, xs.lo, xi, ROAD)
      invariant total == xi - xs.lo
    {
      var terrainType := terrain[yi, xi];
      total := total + 1;
      if terrainType == WATER {
        water := water + 1;
      } else if terrainType == ROAD {
        road := road + 1;
      }
      xi := xi + 1;
    }
  }

  /** `1 - 0.3 age`: how strongly an agent's steering applies. */
  function AngleAdjustFactor(age: real): (f: real)
    ensures 0.0 <= age <= 1.0 ==> 0.7 <= f <= 1.0
    ensures age <= 1.0 / 0.3 ==> 0.0 <= f
  {
    1.0 - age * 0.3
  }

  /** The age-adjusted probability of the downhill rule, clamped into [0.1, 0.9]. */
  function AgeElevationPreference(pref: real, age: real): (p: real)
    ensures 0.1 <= p <= 0.9
  {
    var raw := pref * (1.0 + (age - 0.5) * 0.2);
    var capped := if 0.9 <= raw then 0.9 else raw;
    if 0.1 >= capped then 0.1 else capped
  }

  /** Inside the clamp the age-adjusted preference is the raw product itself. */
  lemma AgeElevationPreferenceUnclamped(pref: real, age: real)
    requires 0.1 <= pref * (1.0 + (age - 0.5) * 0.2) <= 0.9
    ensures AgeElevationPreference(pref, age) == pref * (1.0 + (age - 0.5) * 0.2)
  {
  }

  /**
   * The rule that fires, in priority order: water edge, then road, then
   * (with the coin) downhill.
   */
  function Decide(water: nat, road: nat, total: nat, elevationCoin: real, pref: real): (b: Branch)
    ensures b == WaterEdge <==> 0 < water && (water as real) < (total as real) * 0.8
    ensures b == RoadFollow <==> !(0 < water && (water as real) < (total as real) * 0.8) && road > water
    ensures b == Downhill <==>
      !(0 < water && (water as real) < (total as real) * 0.8) && road <= water && elevationCoin < pref
  {
    if water > 0 && (water as real) < (total as real) * 0.8 then WaterEdge
    else if road > water then RoadFollow
    else if elevationCoin < pref then Downhill
    else NoSteer
  }

  /**
   * The downhill rule is reachable only with no water in view or water
   * covering at least 80% of the window, and no more road than water: water
   * below that share always takes precedence.
   */
  lemma DownhillOnlyAwayFromWaterEdge(water: nat, road: nat, total: nat, coin: real, pref: real)
    requires Decide(water, road, total, coin, pref) == Downhill
    ensures water == 0 || (water as real) >= (total as real) * 0.8
    ensures road <= water
  {
  }

  /** `angle_diff` reduced by whole turns while above pi. */
  function ReduceAbove(d: real): (r: real)
    ensures r <= PI
    ensures d > PI ==> r > -PI
    decreases if d > PI then d.Floor else 0
  {
    if d > PI then ReduceAbove(d - 2.0 * PI) else d
  }

  /** `angle_diff` raised by whole turns while below -pi. */
  function ReduceBelow(d: real): (r: real)
    ensures r >= -PI
    ensures d <= PI ==> r <= PI
    decreases if d < -PI then (-d).Floor else 0
  {
    if d < -PI then ReduceBelow(d + 2.0 * PI) else d
  }

  /** The two correction loops in sequence: a difference in [-pi, pi]. */
  function NormalizedDiff(d: real): (r: real)
    ensures -PI <= r <= PI
  {
    ReduceBelow(ReduceAbove(d))
  }

  /** The number of whole turns `ReduceAbove` removes. */
  function TurnsAbove(d: real): nat
    decreases if d > PI then d.Floor else 0
  {
    if d > PI then TurnsAbove(d - 2.0 * PI) + 1 else 0
  }

  /** The number of whole turns `ReduceBelow` adds. */
  function TurnsBelow(d: real): nat
    decreases if d < -PI then (-d).Floor else 0
  {
    if d < -PI then TurnsBelow(d + 2.0 * PI) + 1 else 0
  }

  lemma {:induction false} ReduceAboveByTurns(d: real)
    ensures ReduceAbove(d) == d - 2.0 * PI * (TurnsAbove(d) as real)
    decreases if d > PI then d.Floor else 0
  {
    if d > PI {
      ReduceAboveByTurns(d - 2.0 * PI);
    }
  }

  lemma {:induction false} ReduceBelowByTurns(d: real)
    ensures ReduceBelow(d) == d + 2.0 * PI * (TurnsBelow(d) as real)
    decreases if d < -PI then (-d).Floor else 0
  {
    if d < -PI {
      ReduceBelowByTurns(d + 2.0 * PI);
    }
  }

  /** Normalising changes the angle by a whole number of turns only. */
  lemma NormalizedDiffSameDirection(d: real)
    ensures NormalizedDiff(d) == d + 2.0 * PI * ((TurnsBelow(ReduceAbove(d)) as int - TurnsAbove(d) as int) as real)
  {
    ReduceAboveByTurns(d);
    ReduceBelowByTurns(ReduceAbove(d));
  }

  /** The two `while` loops that bring the heading difference into [-pi, pi]. */
  method NormalizeAngleDiff(d: real) returns (r: real)
    ensures r == NormalizedDiff(d)
    ensures -PI <= r <= PI
  {
    r := d;
    while r > PI
      invariant ReduceAbove(r) == ReduceAbove(d)
      decreases if r > PI then r.Floor else 0
    {
      r := r - 2.0 * PI;
    }
    ghost var mid := r;
    while r < -PI
      invariant ReduceBelow(r) == ReduceBelow(mid)
      decreases if r < -PI then (-r).Floor else 0
    {
      r := r + 2.0 * PI;
    }
  }

  /** The directed heading adjustment of the rule that fired. */
  function Steering(b: Branch, draw: TickDraw, factor: real, gx: real, gy: real, angle: real, m: MathLib): real
  {
    match b
    case WaterEdge => if draw.edgeCoin < 0.6 then 0.0 + draw.edgeTurn * factor else 0.0
    case RoadFollow => 0.0 + 0.3 * factor
    case Downhill =>
      if Abs(gx) > 0.1 || Abs(gy) > 0.1 then NormalizedDiff(m.atan2(-gy, -gx) - angle) * 0.3 * factor
      else 0.0
    case NoSteer => 0.0
  }

  /** The downhill rule turns the agent only on a slope steeper than 0.1 along some axis. */
  lemma DownhillNeedsSlope(draw: TickDraw, factor: real, gx: real, gy: real, angle: real, m: MathLib)
    requires Steering(Downhill, draw, factor, gx, gy, angle, m) != 0.0
    ensures Abs(gx) > 0.1 || Abs(gy) > 0.1
  {
  }

  /** The steering proportional to the normalised difference never exceeds 0.3 pi times the factor. */
  lemma DownhillSteeringBounded(draw: TickDraw, factor: real, gx: real, gy: real, angle: real, m: MathLib)
    requires 0.0 <= factor
    ensures Abs(Steering(Downhill, draw, factor, gx, gy, angle, m)) <= 0.3 * PI * factor
  {
    if Abs(gx) > 0.1 || Abs(gy) > 0.1 {
      var n := NormalizedDiff(m.atan2(-gy, -gx) - angle);
      assert Steering(Downhill, draw, factor, gx, gy, angle, m) == n * (0.3 * factor);
      BoundedTimesNonneg(n, PI, 0.3 * factor);
    }
  }

  /** One wrap-around correction: add or subtract the extent once. */
  function WrapOnce(p: real, extent: real): (w: real)
    ensures w == p || w == p + extent || w == p - extent
    ensures 0.0 <= p < extent ==> w == p
  {
    if p < 0.0 then extent + p else if p >= extent then p - extent else p
  }

  /** A position at most one extent outside the range is brought back into `[0, extent)`. */
  lemma WrapOnceInside(p: real, extent: real)
    requires 0.0 < extent && -extent <= p < 2.0 * extent
    ensures 0.0 <= WrapOnce(p, extent) < extent
  {
  }

  /** Where an agent senses from: its clamped cell and the clipped window around it. */
  datatype Sensing = Sensing(xInt: int, yInt: int, xs: Span, ys: Span)

  function SensingAt(x: real, y: real, width: int, height: int, radius: int): (c: Sensing)
    requires width >= 1 && height >= 1 && radius >= 0
    ensures 0 <= c.xInt < width && 0 <= c.yInt < height
    ensures 0 <= c.xs.lo <= c.xInt < c.xs.hi <= width && 0 <= c.ys.lo <= c.yInt < c.ys.hi <= height
    ensures c.xs.hi - c.xs.lo <= 2 * radius + 1 && c.ys.hi - c.ys.lo <= 2 * radius + 1
  {
    var xInt := CellIndex(x, width);
    var yInt := CellIndex(y, height);
    Sensing(xInt, yInt, Window(xInt, radius, width), Window(yInt, radius, height))
  }

  /** The rule that fires for an agent sensing from `c`. */
  function BranchAt(terrain: array2<int>, c: Sensing, age: real, pref: real, draw: TickDraw): Branch
    reads terrain
    requires 0 <= c.xs.lo <= c.xs.hi <= terrain.Length1 && 0 <= c.ys.lo <= c.ys.hi <= terrain.Length0
  {
    Decide(CountRect(terrain, c.ys, c.xs, WATER), CountRect(terrain, c.ys, c.xs, ROAD),
           (c.ys.hi - c.ys.lo) * (c.xs.hi - c.xs.lo), draw.elevationCoin, AgeElevationPreference(pref, age))
  }

  /** The new heading: old heading plus the rule's adjustment and the age-scaled jitter. */
  function NewHeading(terrain: array2<int>, gradients: array3<real>, x: real, y: real, angle: real, age: real,
                      width: int, height: int, radius: int, pref: real, draw: TickDraw, m: MathLib): real
    reads terrain, gradients
    requires width >= 1 && height >= 1 && radius >= 0
    requires terrain.Length0 == height && terrain.Length1 == width
    requires gradients.Length0 == height && gradients.Length1 == width && gradients.Length2 == 2
  {
    var c := SensingAt(x, y, width, height, radius);
    Heading(angle, age, BranchAt(terrain, c, age, pref, draw), draw,
            gradients[c.yInt, c.xInt, 0], gradients[c.yInt, c.xInt, 1], m)
  }

  /** Old heading plus the adjustment of rule `b` and the age-scaled jitter. */
  function Heading(angle: real, age: real, b: Branch, draw: TickDraw, gx: real, gy: real, m: MathLib): real
  {
    angle + (Steering(b, draw, AngleAdjustFactor(age), gx, gy, angle, m) + draw.jitter * (1.0 - age * 0.5))
  }

  /** The decision block of the agent loop: the adjustment of whichever rule fires. */
  method DecideAdjustment(water: nat, road: nat, total: nat, agePref: real, factor: real,
                          gx: real, gy: real, angle: real, draw: TickDraw, m: MathLib)
    returns (adjust: real)
    ensures adjust == Steering(Decide(water, road, total, draw.elevationCoin, agePref), draw, factor, gx, gy, angle, m)
  {
    ghost var b := Decide(water, road, total, draw.elevationCoin, agePref);
    adjust := 0.0;
    if water > 0 && (water as real) < (total as real) * 0.8 {
      assert b == WaterEdge;
      if draw.edgeCoin < 0.6 {
        adjust := adjust + draw.edgeTurn * factor;
      }
    } else if road > water {
      assert b == RoadFollow;
      adjust := adjust + 0.3 * factor;
    } else if draw.elevationCoin < agePref {
      assert b == Downhill;
      if Abs(gx) > 0.1 || Abs(gy) > 0.1 {
        var target := m.atan2(-gy, -gx);
        var diff := NormalizeAngleDiff(target - angle);
        adjust := diff * 0.3 * factor;
      }
    } else {
      assert b == NoSteer;
    }
  }

  /** The body of the agent loop up to the heading update: sensing, the rules and the jitter. */
  method SteerAgent(terrain: array2<int>, gradients: array3<real>, x: real, y: real, angle: real, age: real,
                    width: int, height: int, radius: int, pref: real, draw: TickDraw, m: MathLib)
    returns (newAngle: real)
    requires width >= 1 && height >= 1 && radius >= 0
    requires terrain.Length0 == height && terrain.Length1 == width
    requires gradients.Length0 == height && gradients.Length1 == width && gradients.Length2 == 2
    ensures newAngle == NewHeading(terrain, gradients, x, y, angle, age, width, height, radius, pref, draw, m)
  {
    var c := SensingAt(x, y, width, height, radius);
    var water, road, total := SenseCounts(terrain, c.ys, c.xs);
    var gx := gradients[c.yInt, c.xInt, 0];
    var gy := gradients[c.yInt, c.xInt, 1];
    var adjust := DecideAdjustment(water, road, total, AgeElevationPreference(pref, age), AngleAdjustFactor(age),
                                   gx, gy, angle, draw, m);
    ghost var b := BranchAt(terrain, c, age, pref, draw);
    assert adjust == Steering(b, draw, AngleAdjustFactor(age), gx, gy, angle, m);
    var jitter := draw.jitter * (1.0 - age * 0.5);
    newAngle := angle + (adjust + jitter);
    assert newAngle == Heading(angle, age, b, draw, gx, gy, m);
  }

  /** The whole tick of one agent: new heading, a step of `speed` along it, then wrap-around on each axis. */
  function BotStep(terrain: array2<int>, gradients: array3<real>, x: real, y: real, angle: real, speed: real, age: real,
                   width: int, height: int, radius: int, pref: real, draw: TickDraw, m: MathLib): Motion
    reads terrain, gradients
    requires width >= 1 && height >= 1 && radius >= 0
    requires terrain.Length0 == height && terrain.Length1 == width
    requires gradients.Length0 == height && gradients.Length1 == width && gradients.Length2 == 2
  {
    Move(x, y, NewHeading(terrain, gradients, x, y, angle, age, width, height, radius, pref, draw, m),
         speed, width, height, m)
  }

  /** A step of `speed` along heading `a`, then wrap-around on each axis. */
  function Move(x: real, y: real, a: real, speed: real, width: int, height: int, m: MathLib): Motion
  {
    Motion(WrapOnce(x + m.cos(a) * speed, width as real), WrapOnce(y + m.sin(a) * speed, height as real), a)
  }

  /** The boundary block for one axis: one correction by the extent. */
  method WrapAxis(p: real, extent: real) returns (q: real)
    ensures q == WrapOnce(p, extent)
  {
    q := p;
    if q < 0.0 {
      q := extent + q;
    } else if q >= extent {
      q := q - extent;
    }
  }

  /** The movement and boundary block of the agent loop. */
  method MoveAgent(x: real, y: real, a: real, speed: real, width: int, height: int, m: MathLib)
    returns (nx: real, ny: real)
    ensures Motion(nx, ny, a) == Move(x, y, a, speed, width, height, m)
    ensures (width >= 1 && height >= 1 && Lawful(m) && Abs(speed) < width as real && Abs(speed) < height as real &&
      0.0 <= x < width as real && 0.0 <= y < height as real) ==>
      0.0 <= nx < width as real && 0.0 <= ny < height as real
  {
    nx := WrapAxis(x + m.cos(a) * speed, width as real);
    ny := WrapAxis(y + m.sin(a) * speed, height as real);
    if width >= 1 && height >= 1 && Lawful(m) && Abs(speed) < width as real && Abs(speed) < height as real &&
       0.0 <= x < width as real && 0.0 <= y < height as real {
      MoveStaysInside(x, y, a, speed, width, height, m);
    }
  }

  /** Along one axis: from inside `[0, extent)`, a step shorter than the extent wraps back inside. */
  lemma AxisStepInside(p: real, c: real, speed: real, extent: real)
    requires -1.0 <= c <= 1.0 && 0.0 <= p < extent && Abs(speed) < extent
    ensures 0.0 <= WrapOnce(p + c * speed, extent) < extent
  {
    ScaledStepBounded(c, speed);
    WrapOnceInside(p + c * speed, extent);
  }

  /**
   * Wrap-around keeps an agent on the grid: from a position inside it, a
   * step of length below both extents, along any heading, ends inside it again.
   */
  lemma MoveStaysInside(x: real, y: real, a: real, speed: real, width: int, height: int, m: MathLib)
    requires width >= 1 && height >= 1 && Lawful(m)
    requires 0.0 <= x < width as real && 0.0 <= y < height as real
    requires Abs(speed) < width as real && Abs(speed) < height as real
    ensures 0.0 <= WrapOnce(x + m.cos(a) * speed, width as real) < width as real
    ensures 0.0 <= WrapOnce(y + m.sin(a) * speed, height as real) < height as real
  {
    AxisStepInside(x, m.cos(a), speed, width as real);
    AxisStepInside(y, m.sin(a), speed, height as real);
  }

  /** Every row of an `n` by 2 position array lies on the grid. */
  ghost predicate OnGrid(positions: array2<real>, width: int, height: int)
    reads positions
  {
    positions.Length1 == 2 &&
    forall i :: 0 <= i < positions.Length0 ==>
      0.0 <= positions[i, 0] < width as real && 0.0 <= positions[i, 1] < height as real
  }

  /** One iteration of the agent loop: agent `i` senses, turns, moves and wraps; no other agent changes. */
  method UpdateBot(positions: array2<real>, angles: array<real>, speeds: array<real>, ages: array<real>,
                   terrain: array2<int>, gradients: array3<real>, width: int, height: int,
                   radius: int, pref: real, draw: TickDraw, m: MathLib, i: int)
    requires positions.Length1 == 2 && 0 <= i < positions.Length0
    requires angles.Length == positions.Length0 && speeds.Length == positions.Length0
    requires ages.Length == positions.Length0
    requires angles != speeds && angles != ages
    requires width >= 1 && height >= 1 && radius >= 0
    requires terrain.Length0 == height && terrain.Length1 == width
    requires gradients.Length0 == height && gradients.Length1 == width && gradients.Length2 == 2
    modifies positions, angles
    ensures Motion(positions[i, 0], positions[i, 1], angles[i]) ==
      BotStep(terrain, gradients, old(positions[i, 0]), old(positions[i, 1]), old(angles[i]), speeds[i], ages[i],
              width, height, radius, pref, draw, m)
    ensures forall j :: 0 <= j < positions.Length0 && j != i ==>
      positions[j, 0] == old(positions[j, 0]) && positions[j, 1] == old(positions[j, 1]) && angles[j] == old(angles[j])
    ensures (Lawful(m) && Abs(speeds[i]) < width as real && Abs(speeds[i]) < height as real &&
      0.0 <= old(positions[i, 0]) < width as real && 0.0 <= old(positions[i, 1]) < height as real) ==>
      0.0 <= positions[i, 0] < width as real && 0.0 <= positions[i, 1] < height as real
  {
    var a := SteerAgent(terrain, gradients, positions[i, 0], positions[i, 1], angles[i], ages[i],
                        width, height, radius, pref, draw, m);
    var nx, ny := MoveAgent(positions[i, 0], positions[i, 1], a, speeds[i], width, height, m);
    angles[i] := a;
    positions[i, 0], positions[i, 1] := nx, ny;
  }

  /**
   * `update_bots_vectorized`: one tick for every agent, in place. Each
   * agent's position and heading become its `BotStep`; speeds, ages and the
   * rasters are only read.
   */
  method UpdateBots(positions: array2<real>, angles: array<real>, speeds: array<real>, ages: array<real>,
                    terrain: array2<int>, gradients: array3<real>, width: int, height: int,
                    radius: int, pref: real, draws: seq<TickDraw>, m: MathLib)
    requires positions.Length1 == 2
    requires angles.Length == positions.Length0 && speeds.Length == positions.Length0
    requires ages.Length == positions.Length0 && |draws| == positions.Length0
    requires angles != speeds && angles != ages
    requires width >= 1 && height >= 1 && radius >= 0
    requires terrain.Length0 == height && terrain.Length1 == width
    requires gradients.Length0 == height && gradients.Length1 == width && gradients.Length2 == 2
    modifies positions, angles
    ensures forall i :: 0 <= i < positions.Length0 ==>
      Motion(positions[i, 0], positions[i, 1], angles[i]) ==
      BotStep(terrain, gradients, old(positions[i, 0]), old(positions[i, 1]), old(angles[i]), speeds[i], ages[i],
              width, height, radius, pref, draws[i], m)
    ensures (Lawful(m) && old(OnGrid(positions, width, height)) &&
      forall i :: 0 <= i < speeds.Length ==> Abs(speeds[i]) < width as real && Abs(speeds[i]) < height as real) ==>
      OnGrid(positions, width, height)
  {
    var n := positions.Length0;
    var i := 0;
    while i < n
      invariant 0 <= i <= n
      invariant forall j :: 0 <= j < i ==>
        Motion(positions[j, 0], positions[j, 1], angles[j]) ==
        BotStep(terrain, gradients, old(positions[j, 0]), old(positions[j, 1]), old(angles[j]), speeds[j], ages[j],
                width, height, radius, pref, draws[j], m)
      invariant forall j :: i <= j < n ==>
        positions[j, 0] == old(positions[j, 0]) && positions[j, 1] == old(positions[j, 1]) && angles[j] == old(angles[j])
      invariant (Lawful(m) && old(OnGrid(positions, width, height)) &&
        forall j :: 0 <= j < speeds.Length ==> Abs(speeds[j]) < width as real && Abs(speeds[j]) < height as real) ==>
        OnGrid(positions, width, height)
    {
      UpdateBot(positions, angles, speeds, ages, terrain, gradients, width, height, radius, pref, draws[i], m, i);
      i := i + 1;
    }
  }

  // ---------------------------------------------------------------------
  // The simulator object
  // ---------------------------------------------------------------------

  /** Every spawned speed lies strictly between 0.2 and 6. */
  lemma SpawnSpeedRange(baseSpeed: real, age: real)
    requires SPEED_LO <= baseSpeed < SPEED_HI && AGE_LO <= age < AGE_HI
    ensures 0.2 < SpawnSpeed(baseSpeed, age) < 6.0
  {
    var k := AGE_SPEED_FACTOR * (1.1 - age);
    assert 0.2 < k <= 2.0;
    MulLeftMono(k, 1.0, baseSpeed);
    MulPos(k, 3.0 - baseSpeed);
    assert k * (3.0 - baseSpeed) == 3.0 * k - k * baseSpeed;
    assert SpawnSpeed(baseSpeed, age) == k * baseSpeed;
  }

  /** The start positions: each agent at its drawn offset from the centre of the image. */
  method SpawnPositions(spawns: seq<SpawnDraw>, width: nat, height: nat, m: MathLib) returns (positions: array2<real>)
    requires forall i :: 0 <= i < |spawns| ==> SpawnDrawInRange(spawns[i], width, height, SPEED_LO, SPEED_HI, AGE_LO, AGE_HI)
    ensures fresh(positions) && positions.Length0 == |spawns| && positions.Length1 == 2
    ensures forall i :: 0 <= i < |spawns| ==>
      positions[i, 0] == SpawnX(width, spawns[i], m) && positions[i, 1] == SpawnY(height, spawns[i], m)
    ensures Lawful(m) && width >= 2 && height >= 2 ==> OnGrid(positions, width, height)
  {
    positions := new real[|spawns|, 2]((i, j) =>
      if 0 <= i < |spawns| then (if j == 0 then SpawnX(width, spawns[i], m) else SpawnY(height, spawns[i], m))
      else 0.0);
    if Lawful(m) && width >= 2 && height >= 2 {
      forall i | 0 <= i < |spawns|
        ensures 0.0 <= positions[i, 0] < width as real && 0.0 <= positions[i, 1] < height as real
      {
        SpawnInside(width, height, spawns[i], m, SPEED_LO, SPEED_HI, AGE_LO, AGE_HI);
      }
    }
  }

  /** The start headings, as drawn. */
  method SpawnAngles(spawns: seq<SpawnDraw>) returns (angles: array<real>)
    ensures fresh(angles) && angles.Length == |spawns|
    ensures forall i :: 0 <= i < |spawns| ==> angles[i] == spawns[i].heading
  {
    angles := new real[|spawns|](i => if 0 <= i < |spawns| then spawns[i].heading else 0.0);
  }

  /** The ages, as drawn. */
  method SpawnAges(spawns: seq<SpawnDraw>) returns (ages: array<real>)
    ensures fresh(ages) && ages.Length == |spawns|
    ensures forall i :: 0 <= i < |spawns| ==> ages[i] == spawns[i].age
  {
    ages := new real[|spawns|](i => if 0 <= i < |spawns| then spawns[i].age else 0.0);
  }

  /** The speeds, scaled by age; all of them within (0.2, 6). */
  method SpawnSpeeds(spawns: seq<SpawnDraw>, width: nat, height: nat) returns (speeds: array<real>)
    requires forall i :: 0 <= i < |spawns| ==> SpawnDrawInRange(spawns[i], width, height, SPEED_LO, SPEED_HI, AGE_LO, AGE_HI)
    ensures fresh(speeds) && speeds.Length == |spawns|
    ensures forall i :: 0 <= i < |spawns| ==> speeds[i] == SpawnSpeed(spawns[i].baseSpeed, spawns[i].age)
    ensures forall i :: 0 <= i < |spawns| ==> 0.2 < speeds[i] < 6.0
  {
    speeds := new real[|spawns|](i =>
      if 0 <= i < |spawns| then SpawnSpeed(spawns[i].baseSpeed, spawns[i].age) else 0.0);
    forall i | 0 <= i < |spawns|
      ensures 0.2 < speeds[i] < 6.0
    {
      SpawnSpeedRange(spawns[i].baseSpeed, spawns[i].age);
    }
  }

  /** The colours, by age bucket and drawn pick. */
  method SpawnColours(spawns: seq<SpawnDraw>) returns (colours: seq<seq<real>>)
    requires forall i :: 0 <= i < |spawns| ==> spawns[i].colourPick < 3
    ensures |colours| == |spawns|
    ensures forall i :: 0 <= i < |spawns| ==> colours[i] == PickColour(spawns[i].age, spawns[i].colourPick)
  {
    colours := [];
    for i := 0 to |spawns|
      invariant |colours| == i
      invariant forall k :: 0 <= k < i ==> colours[k] == PickColour(spawns[k].age, spawns[k].colourPick)
    {
      colours := colours + [PickColour(spawns[i].age, spawns[i].colourPick)];
    }
  }

  /**
   * `OptimizedSwarmBot`: the background's terrain classes, the gradient
   * raster, and one entry per agent in each of the position, heading, speed
   * and age arrays, plus the display colours.
   */
  class OptimizedSwarm {
    const width: int
    const height: int
    const numBots: nat
    const terrain: array2<int>
    const gradients: array3<real>
    const positions: array2<real>
    const angles: array<real>
    const speeds: array<real>
    const ages: array<real>
    var colours: seq<seq<real>>

    /** Array shapes, the arrays the tick writes kept apart from the ones it reads, and the drawn ranges. */
    ghost predicate Valid()
      reads this, ages, speeds
    {
      width >= 1 && height >= 1 &&
      terrain.Length0 == height && terrain.Length1 == width &&
      gradients.Length0 == height && gradients.Length1 == width && gradients.Length2 == 2 &&
      positions.Length0 == numBots && positions.Length1 == 2 &&
      angles.Length == numBots && speeds.Length == numBots && ages.Length == numBots &&
      angles != speeds && angles != ages &&
      |colours| == numBots &&
      (forall i :: 0 <= i < numBots ==> AGE_LO <= ages[i] < AGE_HI) &&
      (forall i :: 0 <= i < numBots ==> 0.2 < speeds[i] < 6.0)
    }

    /** Every agent is on the grid. */
    ghost predicate Inside()
      reads this, positions
    {
      OnGrid(positions, width, height)
    }

    /**
     * `__init__`, with the image given as its pixel raster, the gradient raster
     * computed outside (the elevation source is not modelled) and the random
     * draws given per agent.
     */
    constructor (numBots: nat, bg: seq<seq<seq<int>>>, width: nat, height: nat, gradients: array3<real>,
                 spawns: seq<SpawnDraw>, m: MathLib)
      requires width >= 1 && height >= 1 && IsRaster(bg, height, width)
      requires gradients.Length0 == height && gradients.Length1 == width && gradients.Length2 == 2
      requires |spawns| == numBots && forall i :: 0 <= i < numBots ==> SpawnDrawInRange(spawns[i], width, height, SPEED_LO, SPEED_HI, AGE_LO, AGE_HI)
      ensures Valid()
      ensures this.width == width && this.height == height && this.numBots == numBots && this.gradients == gradients
      ensures fresh(terrain) && fresh(positions) && fresh(angles) && fresh(speeds) && fresh(ages)
      ensures forall y, x :: 0 <= y < height && 0 <= x < width ==>
        terrain[y, x] == FirstMin(Distances(Normalize(bg[y][x])))
      ensures forall i :: 0 <= i < numBots ==>
        positions[i, 0] == SpawnX(width, spawns[i], m) && positions[i, 1] == SpawnY(height, spawns[i], m) &&
        angles[i] == spawns[i].heading && ages[i] == spawns[i].age &&
        speeds[i] == SpawnSpeed(spawns[i].baseSpeed, spawns[i].age)
      ensures |colours| == numBots && forall i :: 0 <= i < numBots ==>
        spawns[i].colourPick < 3 && colours[i] == PickColour(spawns[i].age, spawns[i].colourPick)
      ensures Lawful(m) && width >= 2 && height >= 2 ==> Inside()
    {
      this.width := width;
      this.height := height;
      this.numBots := numBots;
      this.gradients := gradients;
      var t := ClassifyTerrainVectorized(bg, height, width);
      var p := SpawnPositions(spawns, width, height, m);
      var a := SpawnAngles(spawns);
      var g := SpawnAges(spawns);
      var v := SpawnSpeeds(spawns, width, height);
      var c := SpawnColours(spawns);
      terrain, positions, angles, ages, speeds, colours := t, p, a, g, v, c;
    }

    /**
     * One animation frame: `update_bots_vectorized` with the sensing radius
     * and elevation preference of the module. On a grid of at least 6 by 6
     * (longer than any spawned speed) agents on the grid stay on it.
     */
    method Tick(draws: seq<TickDraw>, m: MathLib)
      requires Valid() && |draws| == numBots
      modifies positions, angles
      ensures Valid()
      ensures forall i :: 0 <= i < numBots ==>
        Motion(positions[i, 0], positions[i, 1], angles[i]) ==
        BotStep(terrain, gradients, old(positions[i, 0]), old(positions[i, 1]), old(angles[i]), speeds[i], ages[i],
                width, height, SENSING_RADIUS, ELEVATION_PREFERENCE, draws[i], m)
      ensures Lawful(m) && width >= 6 && height >= 6 && old(Inside()) ==> Inside()
    {
      UpdateBots(positions, angles, speeds, ages, terrain, gradients, width, height,
                 SENSING_RADIUS, ELEVATION_PREFERENCE, draws, m);
    }
  }
}
