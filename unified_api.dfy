/**
 * The arithmetic of the web service: bounding-box validation, the mapping
 * from simulation pixels to longitude and latitude, the heatmap records
 * built from a finished simulation, and the input check and start point of
 * the flight plan.
 */
module UnifiedApi {
  import opened Common
  import Anim

  // ---------------------------------------------------------------------
  // Bounding boxes
  // ---------------------------------------------------------------------

  datatype BoundingBox = BoundingBox(south: real, west: real, north: real, east: real)

  datatype BoundsError = SouthNotBelowNorth | WestNotBelowEast

  /** The outcome of `validate_bounds`: the box itself, or the first check it fails. */
  datatype Validation = Accepted(box: BoundingBox) | Rejected(error: BoundsError)

  /** `BoundingBox.validate_bounds`. */
  function ValidateBounds(b: BoundingBox): (r: Validation)
    ensures r.Accepted? <==> b.south < b.north && b.west < b.east
    ensures r.Accepted? ==> r.box == b
    ensures b.south >= b.north ==> r == Rejected(SouthNotBelowNorth)
    ensures b.south < b.north && b.west >= b.east ==> r == Rejected(WestNotBelowEast)
  {
    if b.south >= b.north then Rejected(SouthNotBelowNorth)
    else if b.west >= b.east then Rejected(WestNotBelowEast)
    else Accepted(b)
  }

  /** The two malformed boxes the service's client is expected to have refused. */
  lemma ClientInvalidCases()
    ensures ValidateBounds(BoundingBox(40.5, -74.7, 40.3, -74.6)) == Rejected(SouthNotBelowNorth)
    ensures ValidateBounds(BoundingBox(40.3, -74.6, 40.5, -74.7)) == Rejected(WestNotBelowEast)
  {
  }

  /** Validation changes nothing: validating an accepted box accepts it again. */
  lemma ValidateIdempotent(b: BoundingBox)
    requires ValidateBounds(b).Accepted?
    ensures ValidateBounds(ValidateBounds(b).box) == ValidateBounds(b)
  {
  }

  // ---------------------------------------------------------------------
  // Simulation pixels to geographic coordinates
  // ---------------------------------------------------------------------

  /** The side of the square the simulation's pixel coordinates are scaled from. */
  const SIM_EXTENT: real := 2000.0

  /** x maps linearly from west (x = 0) to east (x = 2000). */
  function ToLng(b: BoundingBox, x: real): real
  {
    b.west + (x / SIM_EXTENT) * (b.east - b.west)
  }

  /** y is flipped: y = 0 is the north edge and y = 2000 the south edge. */
  function ToLat(b: BoundingBox, y: real): real
  {
    b.north - (y / SIM_EXTENT) * (b.north - b.south)
  }

  /** The corners of the simulation square land on the box's edges. */
  lemma MappingEndpoints(b: BoundingBox)
    ensures ToLng(b, 0.0) == b.west && ToLng(b, SIM_EXTENT) == b.east
    ensures ToLat(b, 0.0) == b.north && ToLat(b, SIM_EXTENT) == b.south
  {
  }

  /** Further east in the simulation is further east on the map. */
  lemma LngMonotone(b: BoundingBox, x1: real, x2: real)
    requires b.west < b.east && x1 <= x2
    ensures ToLng(b, x1) <= ToLng(b, x2)
  {
    var d := b.east - b.west;
    MulLeftMono(d, x1 / SIM_EXTENT, x2 / SIM_EXTENT);
    assert (x1 / SIM_EXTENT) * d == d * (x1 / SIM_EXTENT);
    assert (x2 / SIM_EXTENT) * d == d * (x2 / SIM_EXTENT);
  }

  /** Further down in the simulation is further south on the map. */
  lemma LatAntitone(b: BoundingBox, y1: real, y2: real)
    requires b.south < b.north && y1 <= y2
    ensures ToLat(b, y1) >= ToLat(b, y2)
  {
    var d := b.north - b.south;
    MulLeftMono(d, y1 / SIM_EXTENT, y2 / SIM_EXTENT);
    assert (y1 / SIM_EXTENT) * d == d * (y1 / SIM_EXTENT);
    assert (y2 / SIM_EXTENT) * d == d * (y2 / SIM_EXTENT);
  }

  /** A point of the box. */
  predicate InBox(b: BoundingBox, lng: real, lat: real)
  {
    b.west <= lng <= b.east && b.south <= lat <= b.north
  }

  /** For an accepted box, every point of the simulation square lands inside the box. */
  lemma MappingInsideBox(b: BoundingBox, x: real, y: real)
    requires ValidateBounds(b).Accepted?
    requires 0.0 <= x <= SIM_EXTENT && 0.0 <= y <= SIM_EXTENT
    ensures InBox(b, ToLng(b, x), ToLat(b, y))
  {
    MappingEndpoints(b);
    LngMonotone(b, 0.0, x);
    LngMonotone(b, x, SIM_EXTENT);
    LatAntitone(b, 0.0, y);
    LatAntitone(b, y, SIM_EXTENT);
  }

  // ---------------------------------------------------------------------
  // Heatmap records
  // ---------------------------------------------------------------------

  /** The number of agents the service reads back. */
  const NUM_BOTS: nat := 300

  datatype HeatRecord = HeatRecord(x: real, y: real, intensity: real, speed: real)

  datatype GeoCentre = GeoCentre(lat: real, lng: real)

  /** The heatmap response, or the status of the error every failure is reported as. */
  datatype HeatmapResponse =
    | Heatmap(numPoints: nat, coordinates: seq<HeatRecord>, bbox: BoundingBox, center: GeoCentre)
    | HeatmapError(status: nat)

  /** The record for agent `i`: its position mapped into the box, its age as intensity, and its speed. */
  function RecordOf(b: BoundingBox, sim: Anim.OptimizedSwarm, i: nat): (r: HeatRecord)
    requires i < sim.positions.Length0 && sim.positions.Length1 == 2
    requires i < sim.ages.Length && i < sim.speeds.Length
    reads sim.positions, sim.ages, sim.speeds
    ensures (ValidateBounds(b).Accepted? && 0.0 <= sim.positions[i, 0] <= SIM_EXTENT &&
             0.0 <= sim.positions[i, 1] <= SIM_EXTENT) ==> InBox(b, r.x, r.y)
  {
    if ValidateBounds(b).Accepted? && 0.0 <= sim.positions[i, 0] <= SIM_EXTENT &&
       0.0 <= sim.positions[i, 1] <= SIM_EXTENT then
      MappingInsideBox(b, sim.positions[i, 0], sim.positions[i, 1]);
      HeatRecord(ToLng(b, sim.positions[i, 0]), ToLat(b, sim.positions[i, 1]), sim.ages[i], sim.speeds[i])
    else
      HeatRecord(ToLng(b, sim.positions[i, 0]), ToLat(b, sim.positions[i, 1]), sim.ages[i], sim.speeds[i])
  }

  /**
   * `generate_heatmap_from_bbox` after the simulation has run: the box is
   * validated first (the segmentation image is built from it), then one
   * record is emitted per agent index below `NUM_BOTS`. Any exception, a
   * rejected box or an index past the swarm's size, becomes status 500.
   */
  method GenerateHeatmap(b: BoundingBox, sim: Anim.OptimizedSwarm) returns (r: HeatmapResponse)
    requires sim.Valid()
    ensures ValidateBounds(b).Rejected? ==> r == HeatmapError(500)
    ensures ValidateBounds(b).Accepted? && sim.numBots < NUM_BOTS ==> r == HeatmapError(500)
    ensures ValidateBounds(b).Accepted? && sim.numBots >= NUM_BOTS ==>
      r.Heatmap? && r.numPoints == |r.coordinates| == NUM_BOTS && r.bbox == b &&
      r.center == GeoCentre((b.north + b.south) / 2.0, (b.east + b.west) / 2.0) &&
      forall i :: 0 <= i < NUM_BOTS ==> r.coordinates[i] == RecordOf(b, sim, i)
  {
    if ValidateBounds(b).Rejected? {
      return HeatmapError(500);
    }
    var latCenter := (b.north + b.south) / 2.0;
    var lonCenter := (b.east + b.west) / 2.0;
    var heatmapCoords: seq<HeatRecord> := [];
    for i := 0 to NUM_BOTS
      invariant i <= sim.numBots
      invariant |heatmapCoords| == i
      invariant forall j :: 0 <= j < i ==> heatmapCoords[j] == RecordOf(b, sim, j)
    {
      if i >= sim.numBots {
        return HeatmapError(500);
      }
      var normalizedX := sim.positions[i, 0] / SIM_EXTENT;
      var normalizedY := sim.positions[i, 1] / SIM_EXTENT;
      var lng := b.west + normalizedX * (b.east - b.west);
      var lat := b.north - normalizedY * (b.north - b.south);
      heatmapCoords := heatmapCoords + [HeatRecord(lng, lat, sim.ages[i], sim.speeds[i])];
    }
    r := Heatmap(|heatmapCoords|, heatmapCoords, b, GeoCentre(latCenter, lonCenter));
  }

  /**
   * When the simulated image is at most 2000 pixels on a side and every
   * agent is on it, every heatmap record lies inside the accepted box.
   */
  lemma HeatmapInsideBox(b: BoundingBox, sim: Anim.OptimizedSwarm, i: nat)
    requires ValidateBounds(b).Accepted?
    requires sim.Valid() && sim.Inside()
    requires sim.width as real <= SIM_EXTENT && sim.height as real <= SIM_EXTENT
    requires i < sim.numBots
    ensures InBox(b, RecordOf(b, sim, i).x, RecordOf(b, sim, i).y)
  {
    assert 0.0 <= sim.positions[i, 0] < sim.width as real;
    assert 0.0 <= sim.positions[i, 1] < sim.height as real;
    MappingInsideBox(b, sim.positions[i, 0], sim.positions[i, 1]);
  }

  // ---------------------------------------------------------------------
  // Flight plan input check and start point
  // ---------------------------------------------------------------------

  function SumX(s: seq<Point>): real
  {
    if |s| == 0 then 0.0 else SumX(s[..|s| - 1]) + s[|s| - 1].x
  }

  function SumY(s: seq<Point>): real
  {
    if |s| == 0 then 0.0 else SumY(s[..|s| - 1]) + s[|s| - 1].y
  }

  /** The componentwise mean of the coordinates, `np.mean` over each column. */
  function MeanPoint(s: seq<Point>): (p: Point)
    requires |s| > 0
    ensures p.x * (|s| as real) == SumX(s) && p.y * (|s| as real) == SumY(s)
  {
    Point(SumX(s) / (|s| as real), SumY(s) / (|s| as real))
  }

  /** The first step of a flight plan: the start point, or the status of the error. */
  datatype PlanStart = StartAt(start: Point) | PlanError(status: nat)

  /**
   * The input check and start point of `generate_flight_plan_from_coords`
   * as written: the 400 raised for empty input is inside the `try` whose
   * generic handler turns every exception into a 500.
   */
  function FlightPlanStartAsWritten(coords: seq<Point>): (r: PlanStart)
    ensures r.PlanError? <==> |coords| == 0
    ensures r.PlanError? ==> r.status == 500
  {
    if |coords| == 0 then PlanError(500) else StartAt(MeanPoint(coords))
  }

  /** The same step with the client error reported as such. */
  function FlightPlanStart(coords: seq<Point>): (r: PlanStart)
    ensures r.PlanError? <==> |coords| == 0
    ensures r.PlanError? ==> r.status == 400
    ensures r.StartAt? ==> r.start == MeanPoint(coords)
  {
    if |coords| == 0 then PlanError(400) else StartAt(MeanPoint(coords))
  }

  /** Empty input is reported as a server error as written, and as a client error when corrected. */
  lemma EmptyCoordinatesStatus()
    ensures FlightPlanStartAsWritten([]) == PlanError(500)
    ensures FlightPlanStart([]) == PlanError(400)
  {
  }

  /** On any non-empty input the two agree. */
  lemma FlightPlanStartAgrees(coords: seq<Point>)
    requires |coords| > 0
    ensures FlightPlanStartAsWritten(coords) == FlightPlanStart(coords)
  {
  }

  /** A sum of values each within `[lo, hi]` lies within `[n * lo, n * hi]`. */
  lemma {:induction false} SumXBounds(s: seq<Point>, lo: real, hi: real)
    requires forall i :: 0 <= i < |s| ==> lo <= s[i].x <= hi
    ensures (|s| as real) * lo <= SumX(s) <= (|s| as real) * hi
  {
    if |s| > 0 {
      var init := s[..|s| - 1];
      SumXBounds(init, lo, hi);
      var n := |init| as real;
      assert (n + 1.0) * lo == n * lo + lo && (n + 1.0) * hi == n * hi + hi;
    }
  }

  lemma {:induction false} SumYBounds(s: seq<Point>, lo: real, hi: real)
    requires forall i :: 0 <= i < |s| ==> lo <= s[i].y <= hi
    ensures (|s| as real) * lo <= SumY(s) <= (|s| as real) * hi
  {
    if |s| > 0 {
      var init := s[..|s| - 1];
      SumYBounds(init, lo, hi);
      var n := |init| as real;
      assert (n + 1.0) * lo == n * lo + lo && (n + 1.0) * hi == n * hi + hi;
    }
  }

  /** For `k > 0`, `k * lo <= k * u <= k * hi` gives `lo <= u <= hi`. */
  lemma CancelBounds(k: real, u: real, lo: real, hi: real)
    requires k > 0.0 && k * lo <= k * u <= k * hi
    ensures lo <= u <= hi
  {
    if u < lo {
      MulPos(k, lo - u);
    }
    if u > hi {
      MulPos(k, u - hi);
    }
  }

  /** The start point lies within any rectangle holding all the coordinates. */
  lemma StartWithinCoordinates(coords: seq<Point>, xLo: real, xHi: real, yLo: real, yHi: real)
    requires |coords| > 0
    requires forall i :: 0 <= i < |coords| ==> xLo <= coords[i].x <= xHi && yLo <= coords[i].y <= yHi
    ensures FlightPlanStart(coords).StartAt?
    ensures var p := FlightPlanStart(coords).start; xLo <= p.x <= xHi && yLo <= p.y <= yHi
  {
    MeanXWithin(coords, xLo, xHi);
    MeanYWithin(coords, yLo, yHi);
  }

  lemma MeanXWithin(coords: seq<Point>, lo: real, hi: real)
    requires |coords| > 0
    requires forall i :: 0 <= i < |coords| ==> lo <= coords[i].x <= hi
    ensures lo <= MeanPoint(coords).x <= hi
  {
    SumXBounds(coords, lo, hi);
    QuotientBounds(SumX(coords), |coords| as real, lo, hi);
  }

  lemma MeanYWithin(coords: seq<Point>, lo: real, hi: real)
    requires |coords| > 0
    requires forall i :: 0 <= i < |coords| ==> lo <= coords[i].y <= hi
    ensures lo <= MeanPoint(coords).y <= hi
  {
    SumYBounds(coords, lo, hi);
    QuotientBounds(SumY(coords), |coords| as real, lo, hi);
  }

  /** A sum within `[n * lo, n * hi]` divided by `n > 0` lies within `[lo, hi]`. */
  lemma QuotientBounds(sum: real, n: real, lo: real, hi: real)
    requires n > 0.0 && n * lo <= sum <= n * hi
    ensures lo <= sum / n <= hi
  {
    DivMul(sum, n);
    CancelBounds(n, sum / n, lo, hi);
  }
}
