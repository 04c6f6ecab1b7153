# Search-and-rescue swarm, flight planner and drone controller: a Dafny model

The system plans search missions for lost people. A swarm of simulated
agents walks over a terrain image: forest, water and road, classified from
the image colours. The agents steer by water edges, roads and downhill
slope. Their final positions are turned into a heat map over the requested
geographic box. A greedy nearest-neighbour planner orders the waypoints of
a flight route. A small PID loop lets a drone track the most confident
person detection, with an emergency back-off when the person fills the
frame.

This project models the computational core of that system in Dafny and
proves its properties:

- `Common` (`common.dfy`): what both simulators share.
  - The terrain palette and its squared colour distances.
  - The first-minimum scan that breaks ties towards the lowest palette index.
  - The clipped sensing window.
  - The age colour buckets and the start-up draws of an agent.
  - Trigonometry and vector norms are not computed. The caller supplies `cos`, `sin`, `atan2` and `hypot` as `MathLib`. The predicate `Lawful` bounds cos and sin to `[-1, 1]` and makes hypot non-negative; atan2 is unconstrained.
- `Anim` (`anim.dfy`): the optimised simulator of `MCS/anim.py`.
  - The per-pixel classifier `fast_closest_terrain`.
  - The chunked, mask-based `_classify_terrain_vectorized`, which writes a `terrain` array in place.
  - The per-agent tick `update_bots_vectorized`, which updates the position and heading arrays in place: sensing window, counts, three-way rule, angle normalisation and one-period wrap-around.
  - The simulator class `OptimizedSwarm`, with its constructor and one animation frame.
- `Swarm2` (`mcs2.dfy`): the earlier simulator of `MCS/mcs2.py`.
  - It keys the closest colour by name, with the first declared key winning ties.
  - It clips a 5-cell sampling window.
  - It normalises angles and wraps positions with Python's floored `%`.
  - It keeps its agents as a list of records that each tick rewrites.
- `FlightPlan` (`flightplan.dfy`): three parts of `MCS/flightplan.py`.
  - The greedy planner `plan_flight_path`.
  - The grouping of clustering labels into hot spots, with noise dropped.
  - The min–max normalisation of a density grid.
- `UnifiedApi` (`unified_api.dfy`): four parts of `unified_api.py`.
  - Bounding-box validation.
  - The y-flipped linear map from the simulation square to longitude and latitude.
  - The heat-map record loop over a simulator's agents.
  - The empty-input check and mean start point of the flight-plan endpoint.
- `YoloControl` (`yolo_imaging.dfy`): the `PID` class, the best-person selection loop, the emergency override and the dead-band `direction` helper of `stat_analysis/yolo_imaging.py`.

Modelling choices:

- Floating-point values are mathematical reals.
- Random draws are records passed in by the caller, one per agent and step.
- Square roots are avoided. A Euclidean distance that is only compared becomes a squared distance, because both give the same order.

## Model

| member | source | states |
|---|---|---|
| Common.Window | MCS/anim.py:69-72 | the clipped window lies in `[0, extent)`, contains the cell, is at most `2r + 1` wide, and keeps the edges `c - r` and `c + r + 1` wherever they are not clipped |
| Common.Normalize | MCS/anim.py:295 | dividing by 255 gives three channels, each in `[0, 1]` for an 8-bit pixel |
| Common.Distances | MCS/anim.py:44-48 | definition: four entries, entry `i` the squared RGB distance to palette colour `i`; its ranges are proved by `DistancesOfUnitColourBounded` |
| Common.PaletteInUnitCube | MCS/anim.py:29-34 | every palette channel, divided by 255, lies in `[0, 1]` |
| Common.DistancesOfUnitColourBounded | MCS/anim.py:44-48 | for a colour in the unit cube every squared distance lies in `[0, 3]` |
| Common.FirstMin | MCS/anim.py:305-315 | an index whose distance is no larger than any other, with every earlier index strictly farther: ties go to the lowest index |
| Common.FirstMinStep | MCS/anim.py:313-315 | one more palette pass moves the minimum to the new entry exactly when it is strictly smaller, which is what the `<` mask does |
| Common.FirstMinUnique | MCS/anim.py:50-52 | any index that is minimal, with every earlier index strictly larger, is the first minimum |
| Common.BucketOf | MCS/anim.py:282-287 | bright exactly when age < 0.4, medium exactly when 0.4 <= age < 0.7, dull otherwise |
| Common.BucketMonotone | MCS/anim.py:282-287 | an older agent is never in a brighter bucket |
| Common.BucketColours | MCS/anim.py:283-287 | definition: the three colours of each bucket, value for value; `PickColour` is proved to pick within them |
| Common.PickColour | MCS/anim.py:288 | the chosen colour is one of the three of the agent's age bucket |
| Common.Lawful | MCS/anim.py:128-130 | definition: the assumption on the supplied trigonometry: cos and sin lie in `[-1, 1]` and hypot is non-negative, atan2 unconstrained; `MoveStaysInside`, `SpawnInside` and `TickBot` rely on it |
| Common.SpawnDrawInRange | MCS/anim.py:268-276 | definition: the ranges of the start-up draws: polar angle and heading in `[0, 2 pi)`, radius below a quarter of the smaller extent, base speed and age in the configured ranges, colour pick below 3; `SpawnInside` and the `SpawnSpeedRange` lemmas assume it |
| Common.SpawnSpeed | MCS/anim.py:278-279 | definition: `base_speed * AGE_SPEED_FACTOR * (1.1 - age)`, shared with MCS/mcs2.py:142-143; `SpawnSpeedAntitone` and both `SpawnSpeedRange` lemmas are proved about it |
| Common.SpawnX | MCS/anim.py:266-272 | definition: the integer centre `width // 2` plus `radius * cos(polar)`, as also at MCS/mcs2.py:136-137; `SpawnInside` proves it lies in `[0, width)` |
| Common.SpawnY | MCS/anim.py:266-272 | definition: the integer centre `height // 2` plus `radius * sin(polar)`; `SpawnInside` proves it lies in `[0, height)` |
| Common.SpawnSpeedAntitone | MCS/anim.py:278-279 | for the same non-negative base speed, an older agent is not faster |
| Common.CentreOffsetInside | MCS/anim.py:266-272 | the integer centre plus an offset shorter than a quarter of the extent lies in `[0, extent)` |
| Common.SpawnInside | MCS/anim.py:266-272 | on a grid of at least 2 by 2, every agent starts inside `[0, width) x [0, height)` |
| Anim.FastClosestTerrain | MCS/anim.py:38-54 | the result is below 4; when some distance is below the start value 999 it is the first minimum, and otherwise it is 0 |
| Anim.FastClosestOnImagePixel | MCS/anim.py:41-54 | for an 8-bit pixel some distance is below 999, so the start value never decides the result |
| Anim.ChannelDistance | MCS/anim.py:45-48 | the inner channel loop computes the squared distance to palette entry `i` |
| Anim.RowPass | MCS/anim.py:305-315 | one palette pass over one chunk row: the running minimum and the label are updated as the strict mask prescribes, and no other cell is touched |
| Anim.ChunkPass | MCS/anim.py:305-315 | one palette pass over a whole chunk has the same per-cell effect, and cells outside the chunk are unchanged |
| Anim.ClassifyChunk | MCS/anim.py:303-315 | after the four passes every cell of the chunk holds the first minimum of its distances, and nothing outside the chunk changes |
| Anim.ClassifyTerrainVectorized | MCS/anim.py:290-317 | a fresh `height x width` map whose every cell is the first-minimum palette index of its pixel: the chunks cover the whole grid |
| Anim.CellIndex | MCS/anim.py:65-66 | the truncated, clamped cell lies in `0 .. extent - 1`, and equals the floor of an on-grid coordinate |
| Anim.SensingAt | MCS/anim.py:64-72 | the cell is on the grid; the window satisfies `0 <= lo <= cell < hi <= extent` on both axes, so it is never empty, and it is at most `2r + 1` wide |
| Anim.CountRect | MCS/anim.py:79-86 | definition: the number of window cells holding a terrain code, row by row; `SenseCounts` is proved to compute it and `WaterRoadWithinWindow` bounds it |
| Anim.SenseRow | MCS/anim.py:80-86 | the inner counting loop gives the water count, the road count and the width of the row |
| Anim.SenseCounts | MCS/anim.py:75-86 | the counts are the numbers of water and road cells of the window, `total_pixels` is the window's area, and water plus road never exceeds it |
| Anim.WaterRoadWithinRow | MCS/anim.py:80-86 | within a row, water and road cells together never exceed the row's width |
| Anim.WaterRoadWithinWindow | MCS/anim.py:79-86 | within the window, water and road cells together never exceed its area |
| Anim.AgeElevationPreference | MCS/anim.py:91-92 | the age-adjusted preference always lies in `[0.1, 0.9]` |
| Anim.AgeElevationPreferenceUnclamped | MCS/anim.py:91-92 | inside the clamp bounds the preference is the raw product itself |
| Anim.AngleAdjustFactor | MCS/anim.py:90 | `1 - 0.3 age`, which lies in `[0.7, 1]` for ages in `[0, 1]` and is non-negative up to age `1 / 0.3` |
| Anim.BranchAt | MCS/anim.py:98-108 | definition: the rule `Decide` picks from the window's water and road counts, its area and the clamped preference; `Decide` states its cases |
| Anim.Decide | MCS/anim.py:98-108 | exactly one rule fires: water edge iff `0 < water < 0.8 total`; road iff not that and `road > water`; downhill iff neither and the coin is below the preference |
| Anim.DownhillOnlyAwayFromWaterEdge | MCS/anim.py:98-108 | the downhill rule fires only with no water in view or water covering 80% or more, and road not exceeding water |
| Anim.DownhillNeedsSlope | MCS/anim.py:112-122 | the downhill rule changes the heading only when `abs(grad_x) > 0.1` or `abs(grad_y) > 0.1` |
| Anim.DownhillSteeringBounded | MCS/anim.py:113-122 | the downhill adjustment is at most `0.3 * pi * factor` in size |
| Anim.Steering | MCS/anim.py:95-122 | definition: the adjustment of each rule: the coin-gated uniform turn at a water edge, `0.3 * factor` on a road, the scaled normalised difference downhill on a slope, 0 otherwise; `DownhillNeedsSlope`, `DownhillSteeringBounded` and `DecideAdjustment` are proved about it |
| Anim.Heading | MCS/anim.py:124-126 | definition: old heading plus the rule's adjustment plus `jitter * (1 - 0.5 age)`; `SteerAgent` is proved to compute it |
| Anim.NewHeading | MCS/anim.py:64-126 | definition: `Heading` with the rule and the gradient read at the clamped cell of `SensingAt`; `SteerAgent` is proved to compute it |
| Anim.ReduceAbove | MCS/anim.py:117-118 | the first loop leaves a value at most pi, and one larger than pi ends above -pi |
| Anim.ReduceBelow | MCS/anim.py:119-120 | the second loop leaves a value of at least -pi, and one that was at most pi stays at most pi |
| Anim.NormalizedDiff | MCS/anim.py:116-120 | after both loops the difference lies in `[-pi, pi]` |
| Anim.ReduceAboveByTurns | MCS/anim.py:117-118 | the first loop subtracts a whole number of turns |
| Anim.ReduceBelowByTurns | MCS/anim.py:119-120 | the second loop adds a whole number of turns |
| Anim.NormalizedDiffSameDirection | MCS/anim.py:116-120 | the normalised difference differs from the input by whole turns, so it points the same way |
| Anim.NormalizeAngleDiff | MCS/anim.py:116-120 | the two while loops compute the normalised difference, which lies in `[-pi, pi]` |
| Anim.DecideAdjustment | MCS/anim.py:94-122 | the decision block's adjustment is the steering of the rule `Decide` picks |
| Anim.SteerAgent | MCS/anim.py:64-126 | the new heading is the old one plus the adjustment of the rule the window's counts select, plus the age-scaled jitter |
| Anim.WrapOnceInside | MCS/anim.py:133-141 | a single add-or-subtract correction brings anything within one extent of the range back into `[0, extent)` |
| Anim.WrapOnce | MCS/anim.py:133-141 | the corrected coordinate differs from the input by at most one extent, and a coordinate already in `[0, extent)` is unchanged; `WrapOnceInside` and `WrapAxis` are proved about it |
| Anim.WrapAxis | MCS/anim.py:133-136 | the boundary branch on one axis is the one-period correction |
| Anim.AxisStepInside | MCS/anim.py:129-141 | an on-grid coordinate, stepped by less than the extent and then corrected, stays in `[0, extent)` |
| Anim.MoveAgent | MCS/anim.py:128-141 | the move is the step along the new heading followed by the correction, and it keeps an on-grid agent on the grid when its speed is below both extents |
| Anim.MoveStaysInside | MCS/anim.py:128-141 | with lawful cos/sin and a speed below both extents, an on-grid agent stays on the grid |
| Anim.Move | MCS/anim.py:128-141 | definition: the cos/sin step of `speed` along the heading, then `WrapOnce` on each axis; `MoveAgent` is proved to compute it and `MoveStaysInside` keeps it on the grid |
| Anim.BotStep | MCS/anim.py:63-141 | definition: one agent's whole tick, `Move` along `NewHeading`; `UpdateBot`, `UpdateBots` and `OptimizedSwarm.Tick` are stated in terms of it |
| Anim.UpdateBot | MCS/anim.py:63-141 | agent `i` gets its `BotStep`; every other agent's position and heading are unchanged; an on-grid agent with a speed below both extents stays on the grid |
| Anim.UpdateBots | MCS/anim.py:56-141 | every agent's new position and heading is its `BotStep` from its old state; speeds and ages are not written; the grid stays occupied when every speed is below both extents |
| Anim.SpawnSpeedRange | MCS/anim.py:275-279 | a spawned speed lies strictly between 0.2 and 6 |
| Anim.SpawnPositions | MCS/anim.py:266-272 | a fresh `n x 2` array of the centre-plus-polar-offset positions, all on a grid of at least 2 by 2 |
| Anim.SpawnAngles | MCS/anim.py:274 | a fresh array of the drawn headings |
| Anim.SpawnAges | MCS/anim.py:276 | a fresh array of the drawn ages |
| Anim.SpawnSpeeds | MCS/anim.py:275-279 | a fresh array of `base_speed * 2 * (1.1 - age)`, each strictly between 0.2 and 6 |
| Anim.SpawnColours | MCS/anim.py:281-288 | one colour per agent, taken from its age bucket |
| Anim.OptimizedSwarm.constructor | MCS/anim.py:240-288 | the terrain map as classified, and the spawn positions, headings, ages, speeds and colours per agent; every agent starts on a grid of at least 2 by 2 |
| Anim.OptimizedSwarm.Tick | MCS/anim.py:333-342 | one frame runs the tick with sensing radius 3 and preference 0.65, keeps the object valid, and, on a grid of at least 6 by 6, keeps every agent on it |
| Swarm2.KeyIndex | MCS/mcs2.py:168 | the position of a terrain name in the declaration order, an index in `0 .. 3` naming that key |
| Swarm2.KeyIndexInverse | MCS/mcs2.py:32-37 | the position of the `i`-th declared key is `i` |
| Swarm2.ClosestTerrainColor | MCS/mcs2.py:42-47 | the key of least distance, the first declared one on ties |
| Swarm2.ClassifiersAgree | MCS/mcs2.py:45-47 | the keyed classifier gives the same index as the palette scan of the other simulator |
| Swarm2.ClassifyTerrain | MCS/mcs2.py:159-170 | a fresh `height x width` map whose every cell is the position of the pixel's closest key |
| Swarm2.ClassifyRow | MCS/mcs2.py:165-168 | the inner loop labels every cell of its row and no cell of any other row |
| Swarm2.ClipIndex | MCS/mcs2.py:179 | clip-then-truncate gives a cell in `0 .. extent - 1`, the floor of an on-grid coordinate |
| Swarm2.ClipIndexMatchesClampedTrunc | MCS/mcs2.py:247-249 | clipping before truncating gives the same cell as truncating before clipping |
| Swarm2.InfluencePatch | MCS/mcs2.py:179-186 | the cell is on the grid, and the window satisfies `0 <= lo <= cell < hi <= extent` on both axes and is at most 11 cells wide |
| Swarm2.InfluencePatchNonEmpty | MCS/mcs2.py:183-188 | the sampled patch has at least one cell |
| Swarm2.FloorDivBounds | MCS/mcs2.py:266 | the floored quotient brackets its dividend between `m * q` and `m * q + m` |
| Swarm2.PyMod | MCS/mcs2.py:277-278 | Python's `%` with a positive modulus lands in `[0, m)` and differs from the input by whole multiples of `m` |
| Swarm2.PyModIdentity | MCS/mcs2.py:277-278 | a coordinate already in `[0, m)` is left unchanged |
| Swarm2.AngleDiff | MCS/mcs2.py:264-266 | `(d + pi) % 2pi - pi` lies in `[-pi, pi)` |
| Swarm2.AngleDiffWholeTurns | MCS/mcs2.py:266 | the normalised difference differs from `d` by whole turns |
| Swarm2.AngleDiffIdentity | MCS/mcs2.py:266 | a difference already in `[-pi, pi)` is unchanged |
| Swarm2.SpawnBot | MCS/mcs2.py:134-157 | a spawned record's speed is `base_speed * 2 * (1.1 - age)`, and its colour is from its age bucket |
| Swarm2.SpeedNegativePastAgeLimit | MCS/mcs2.py:140-143 | an agent older than 1.1, which the age range allows, gets a negative speed |
| Swarm2.SpawnSpeedRange | MCS/mcs2.py:140-143 | spawned speeds lie strictly between -12.6 and 14 |
| Swarm2.InfluenceStrength | MCS/mcs2.py:258 | `0.3 (2 - age)`, positive for every age below 2 and at most 0.6 for ages in `[0, 2)` |
| Swarm2.Target | MCS/mcs2.py:255-263 | definition: the `atan2` of the current direction plus the scaled force, divided by its norm plus `1e-6`; `Lawful` keeps that divisor positive |
| Swarm2.BlendedHeading | MCS/mcs2.py:263-267 | definition: the heading moved a tenth of the `AngleDiff` towards `Target`; `HeadingChangeBounded` bounds the turn |
| Swarm2.DriftTerm | MCS/mcs2.py:270 | definition: `drift * (1 - 0.3 age)`; `DriftBounded` bounds it for a drift in `[-0.02, 0.02]` |
| Swarm2.TickBot | MCS/mcs2.py:246-278 | a tick keeps speed, age, base speed and colour, and leaves the agent inside `[0, width) x [0, height)` whatever its speed |
| Swarm2.DriftBounded | MCS/mcs2.py:270 | the drift term is at most `0.02 * abs(1 - 0.3 age)` in size |
| Swarm2.HeadingChangeBounded | MCS/mcs2.py:264-270 | one tick turns an agent by at most `0.1 pi` plus the drift bound |
| Swarm2.SwarmBot.constructor | MCS/mcs2.py:119-157 | the classified terrain map and 250 spawned records built from the draws; every agent starts on a grid of at least 2 by 2 |
| Swarm2.SwarmBot.UpdateBotsWithTerrain | MCS/mcs2.py:245-278 | every record, in list order, is replaced by its `TickBot` under the force at its position; the list keeps its length; afterwards every agent is on the grid |
| FlightPlan.LexMin | MCS/flightplan.py:122-123 | the head of the sorted `(dist, i)` list is a member that precedes every other by distance, then index |
| FlightPlan.Candidates | MCS/flightplan.py:115-119 | definition: one `(squared distance, index)` pair per unvisited index, in list order; `DistancesFrom` is proved to build it |
| FlightPlan.Nearest | MCS/flightplan.py:115-123 | the chosen index is one of the unvisited ones |
| FlightPlan.NearestIsClosest | MCS/flightplan.py:115-123 | no unvisited waypoint is nearer, and an equally near one does not have a lower index |
| FlightPlan.Remove | MCS/flightplan.py:131 | `list.remove` drops one occurrence: one shorter, same multiset less that index, unchanged if absent |
| FlightPlan.GreedyOrder | MCS/flightplan.py:111-131 | the greedy tour visits as many stops as there are unvisited indices, all of them valid |
| FlightPlan.GreedyPermutation | MCS/flightplan.py:111-131 | the tour is a permutation of the unvisited indices |
| FlightPlan.AllIndices | MCS/flightplan.py:111 | definition: `list(range(n))`; `GreedyVisitsEachOnce` is stated over it |
| FlightPlan.GreedyVisitsEachOnce | MCS/flightplan.py:111-131 | starting from all indices, every waypoint is visited exactly once |
| FlightPlan.GreedyStep | MCS/flightplan.py:114-131 | stop `t` of the tour is the nearest of the indices the first `t` stops left over, seen from the previous stop |
| FlightPlan.GreedyPicksNearest | MCS/flightplan.py:115-123 | every stop is at least as near to the previous point as any remaining waypoint, and on a tie it has the lower index |
| FlightPlan.PointsAt | MCS/flightplan.py:126-127 | definition: the waypoints at a list of indices, position by position; `TourAdvancePath` and `PlanFlightPath` are stated over it |
| FlightPlan.DistancesFrom | MCS/flightplan.py:115-119 | the distance loop builds exactly the candidate list |
| FlightPlan.NearestUnvisited | MCS/flightplan.py:115-123 | sorting and taking the head gives the nearest unvisited index |
| FlightPlan.GreedyAdvance | MCS/flightplan.py:123-131 | the tour so far, plus the rest of the tour, is the tour so far extended by the nearest stop, plus the tour from that stop over what is left |
| FlightPlan.TourAdvanceOrder | MCS/flightplan.py:123-131 | one loop iteration keeps "visited so far + greedy rest = whole tour" |
| FlightPlan.TourAdvancePath | MCS/flightplan.py:126-130 | appending the next waypoint keeps the path equal to the start followed by the visited waypoints |
| FlightPlan.PlanFlightPath | MCS/flightplan.py:96-133 | the path starts at `start` (the origin by default), has one point more than there are waypoints, and visits the waypoints in greedy order; no waypoints gives exactly `[start]` |
| FlightPlan.TieGoesToLowerIndex | MCS/flightplan.py:122-123 | of two equally near waypoints the lower index is visited first |
| FlightPlan.NearerFirst | MCS/flightplan.py:115-123 | a nearer waypoint is visited before a farther one of lower index |
| FlightPlan.MaskIndices | MCS/flightplan.py:90-91 | the positions whose label is `k`, exactly those and in increasing order |
| FlightPlan.Select | MCS/flightplan.py:90-91 | the cluster holds one point per position whose label is `k`, point `t` being the coordinate at the `t`-th such position |
| FlightPlan.ClusterLabels | MCS/flightplan.py:86-89 | the labels of the iteration order with noise `-1` skipped, exactly the non-noise ones |
| FlightPlan.ClusterLabelsDistinct | MCS/flightplan.py:83-89 | labels taken from a set stay distinct after noise is skipped |
| FlightPlan.FindHotspots | MCS/flightplan.py:80-94 | one cluster per non-noise label of the iteration order, each the points carrying that label |
| FlightPlan.HotspotLabels | MCS/flightplan.py:83-94 | the clusters' labels are exactly the distinct non-noise labels, none repeated |
| FlightPlan.ClusterNonEmpty | MCS/flightplan.py:90-92 | the cluster of a label that occurs is not empty |
| FlightPlan.ClustersDisjoint | MCS/flightplan.py:90-92 | clusters of different labels share no point |
| FlightPlan.ClustersCoverNonNoise | MCS/flightplan.py:83-94 | a point is in some cluster exactly when its label is not noise |
| FlightPlan.HotspotOfPoint | MCS/flightplan.py:86-92 | a point with a non-noise label has that label among the hotspot labels and lies in that label's cluster |
| FlightPlan.HotspotsPartition | MCS/flightplan.py:83-94 | over the returned hotspots: each is non-empty, their labels are distinct, and a point lies in the hotspot of its own label exactly when that label is not noise |
| FlightPlan.Flatten | MCS/flightplan.py:36 | every grid value is among the flattened values |
| FlightPlan.FlattenMember | MCS/flightplan.py:36 | every flattened value comes from the grid |
| FlightPlan.SeqMin | MCS/flightplan.py:36 | `Z.min()`: a member no larger than any value |
| FlightPlan.SeqMax | MCS/flightplan.py:36 | `Z.max()`: a member no smaller than any value |
| FlightPlan.ScaledGrid | MCS/flightplan.py:36 | definition: the same shape, each cell `(v - min) / (max - min)`; its range, order and ends are proved by `NormalizeDensityRange`, `NormalizeDensityMonotone` and `NormalizeDensityReachesEnds` |
| FlightPlan.NormalizeDensity | MCS/flightplan.py:36 | an empty grid fails as `ValueError` does; a constant grid gives the unguarded division by zero; otherwise a grid of the same shape |
| FlightPlan.ScaleInUnit | MCS/flightplan.py:36 | a value between the bounds scales into `[0, 1]`, with the minimum going to 0 and the maximum to 1 |
| FlightPlan.ScaleMonotone | MCS/flightplan.py:36 | scaling preserves order |
| FlightPlan.NormalizeDensityRange | MCS/flightplan.py:36 | every normalised cell lies in `[0, 1]`; the minimum cells become 0 and the maximum cells 1 |
| FlightPlan.NormalizeDensityMonotone | MCS/flightplan.py:36 | denser cells stay at least as dense after normalising |
| FlightPlan.NormalizeDensityReachesEnds | MCS/flightplan.py:36 | some cell is 0 and some cell is 1 |
| UnifiedApi.ValidateBounds | unified_api.py:55-60 | accepted exactly when south < north and west < east, returning the box unchanged; otherwise the first failing check names the error |
| UnifiedApi.ClientInvalidCases | stat_analysis/segmentation/test_api.py:71-79 | the client's "South >= North" and "West >= East" boxes are rejected with those errors |
| UnifiedApi.ValidateIdempotent | unified_api.py:55-60 | validating an accepted box again gives the same result |
| UnifiedApi.MappingEndpoints | unified_api.py:430-438 | x = 0 maps to west and x = 2000 to east; y = 0 maps to north and y = 2000 to south |
| UnifiedApi.LngMonotone | unified_api.py:436 | longitude grows with x over a valid box |
| UnifiedApi.LatAntitone | unified_api.py:438 | latitude shrinks as y grows: the y axis is flipped |
| UnifiedApi.MappingInsideBox | unified_api.py:430-438 | a point of the 2000 x 2000 square maps into `[west, east] x [south, north]` |
| UnifiedApi.ToLng | unified_api.py:436 | definition: `west + (x / 2000) (east - west)`; `MappingEndpoints`, `LngMonotone` and `MappingInsideBox` are proved about it |
| UnifiedApi.ToLat | unified_api.py:438 | definition: `north - (y / 2000) (north - south)`, the y flip; `MappingEndpoints`, `LatAntitone` and `MappingInsideBox` are proved about it |
| UnifiedApi.RecordOf | unified_api.py:432-445 | the record of agent `i` lies inside an accepted box whenever the agent's position is in the 2000 by 2000 square |
| UnifiedApi.GenerateHeatmap | unified_api.py:410-456 | a rejected box gives 500; fewer than 300 agents gives 500 (the index error caught by the handler); otherwise 300 records in index order, with `num_points` equal to their count, the box itself and its centre |
| UnifiedApi.HeatmapInsideBox | unified_api.py:428-445 | for agents on a grid no larger than 2000 x 2000, every record lies inside the box |
| UnifiedApi.FlightPlanStartAsWritten | unified_api.py:466-497 | as written, an empty coordinate list ends in status 500, because the generic handler catches the 400 |
| UnifiedApi.FlightPlanStart | unified_api.py:470-477 | an empty list is rejected with 400; otherwise the start is the componentwise mean |
| UnifiedApi.EmptyCoordinatesStatus | unified_api.py:470-471 | the empty input shows the difference: 500 as written, 400 as intended |
| UnifiedApi.FlightPlanStartAgrees | unified_api.py:476-477 | on a non-empty list the two readings give the same start |
| UnifiedApi.SumXBounds | unified_api.py:477 | the sum of `n` x values bounded by `lo` and `hi` lies between `n lo` and `n hi` |
| UnifiedApi.SumYBounds | unified_api.py:477 | the same for y |
| UnifiedApi.MeanXWithin | unified_api.py:477 | the mean x lies within any bounds of the x values |
| UnifiedApi.MeanYWithin | unified_api.py:477 | the mean y lies within any bounds of the y values |
| UnifiedApi.StartWithinCoordinates | unified_api.py:477 | the start point lies inside any box containing all the coordinates |
| UnifiedApi.MeanPoint | unified_api.py:477 | the mean times the count is the sum, in each coordinate; `MeanXWithin`, `MeanYWithin` and `StartWithinCoordinates` are proved about it |
| YoloControl.PidStep | stat_analysis/yolo_imaging.py:24-29 | definition: the new memory is the error just seen and the integral plus `error * dt`; `Pid.Compute` is proved to follow it and `RunAccumulates` sums it over a run |
| YoloControl.Derivative | stat_analysis/yolo_imaging.py:26 | 0 for a step that is not positive, and otherwise the value whose product with `dt` is the change of error |
| YoloControl.RunAccumulates | stat_analysis/yolo_imaging.py:24-29 | after any run the integral is the start plus the sum of `error * dt`, and the previous error is the last one seen |
| YoloControl.ProportionalOnly | stat_analysis/yolo_imaging.py:27 | with zero `ki` and `kd` the output is `kp * error`, whatever the memory |
| YoloControl.Pid.constructor | stat_analysis/yolo_imaging.py:17-22 | the gains are stored as given (default 0.02, 0, 0.003) and the memory starts at zero |
| YoloControl.Pid.Compute | stat_analysis/yolo_imaging.py:24-29 | the memory advances as `PidStep` says; the output is `kp e + ki integral' + kd derivative`, using the updated integral and a derivative of 0 unless `dt > 0`; the gains do not change |
| YoloControl.SelectBest | stat_analysis/yolo_imaging.py:77-82 | none exactly when no person has confidence above 0; otherwise a person of highest confidence, the first among equals |
| YoloControl.VzCommand | stat_analysis/yolo_imaging.py:107-108 | the command is either the backward command or the controller's output, and the latter below the emergency ratio |
| YoloControl.OverrideIgnoresController | stat_analysis/yolo_imaging.py:106-108 | at a size ratio of 0.95 or more the command is -0.5 whatever the controller says |
| YoloControl.BelowEmergencyPassesThrough | stat_analysis/yolo_imaging.py:106-108 | below 0.95 the controller's output passes unchanged |
| YoloControl.ForwardBack | stat_analysis/yolo_imaging.py:96-108 | the controller is driven with `0.8 - ratio` and advances even when overridden, and the command is its output unless the override applies |
| YoloControl.Direction | stat_analysis/yolo_imaging.py:117-120 | the label is HOLD, the positive label or the negative one, and HOLD inside the dead band; `DirectionCases` and `DirectionSymmetric` state the rest |
| YoloControl.DirectionCases | stat_analysis/yolo_imaging.py:117-120 | "HOLD" inside the dead band (exactly there, when the labels differ from it), the positive label at or above 0.02, and the negative label at or below -0.02 |
| YoloControl.DirectionSymmetric | stat_analysis/yolo_imaging.py:117-120 | negating the value swaps the labels |

## Left out

- Image loading, elevation download and caching, `griddata` interpolation, and `np.gradient`. They are I/O and library numerics. The terrain image is a pixel raster parameter, and the gradient grid `gradients` is an input array.
- Random number generation. Every draw is a field of a supplied record (`SpawnDraw`, `TickDraw`, the drift list). The RNG stream and the distributions are not modelled. Only the spawn draws are held to their ranges, by `SpawnDrawInRange`. The tick draws of MCS/anim.py:100-101, :108 and :125 (the edge coin `random()`, `uniform(-0.5, 0.5)`, the elevation coin `random()`, `uniform(-0.03, 0.03)`) and the drifts of MCS/mcs2.py are unconstrained, and the tick contracts hold for any values. The drift range `[-0.02, 0.02]` is assumed only by `DriftBounded` and `HeadingChangeBounded`.
- Trigonometry (`cos`, `sin`, `arctan2`) and the vector norm `np.linalg.norm` of the direction blend (MCS/mcs2.py:260). These are functions `cos`, `sin`, `atan2` and `hypot` of the supplied `MathLib`. `Lawful` states only that cos and sin lie in `[-1, 1]` and that hypot is non-negative, which is what keeps the divisor `hypot + 1e-6` of `TickBot` positive; atan2 is unconstrained.
- Floating point. Reals stand for floats: no rounding, no NaN, no overflow. The division by zero at MCS/flightplan.py:36 becomes the `ZeroRange` outcome of `NormalizeDensity`, not a NaN grid.
- `color_distance` (MCS/mcs2.py:42-43) and the `np.sqrt` distance of the planner (MCS/flightplan.py:118). Both are modelled as squared distances. The square root is monotone, so minima and ties are the same.
- The terrain force of `_get_terrain_influence` (MCS/mcs2.py:188-229): the means of masked coordinates, `arctan2` and the norm. `UpdateBotsWithTerrain` receives it as a function `influence` of position. Only the window clipping of that method (lines 179-186) is modelled, as `InfluencePatch`.
- Swarm2.SwarmBot.UpdateBotsWithTerrain: the source computes `x_int` and `y_int` (MCS/mcs2.py:247-249) and takes `sensing_radius`, and then uses neither. The model accepts the radius and ignores it too.
- Swarm2.TickBot: the blending of the current direction with the force and its normalisation (MCS/mcs2.py:255-263) is composed from `MathLib`, with no claim about the resulting angle beyond the bounded heading change.
- The animation and plotting: `animate_simulation`, `create_density_map`, the saved result files, and MCS/mcs.py.
- FlightPlan.FindHotspots: Python's iteration order over `set(labels)` is unspecified. The model takes it as a parameter `order` listing each label once. The DBSCAN clustering itself (MCS/flightplan.py:79) is a library call; the labels are an input.
- The kernel density estimate before the normalisation (MCS/flightplan.py:21-33) is a library computation. The grid `Z` is an input.
- `plan_flight_path_in_order`, `select_top_dense_grid_pois` and `select_distributed_pois`: unified_api.py imports them, and MCS/flightplan.py does not define them. The flight-plan endpoint is modelled as far as its input check and start point.
- UnifiedApi.GenerateHeatmap: the simulator named at unified_api.py:422-423 is constructed with the image path as its first argument and given a `run_simulation` call, which `OptimizedSwarmBot` does not have. The import at unified_api.py:20 names `OptimizedSwarmBot` from MCS/mcs.py, whose only class is `SwarmBot` (MCS/mcs.py:17); the model substitutes the class of that name in MCS/anim.py:239. The model takes a finished `OptimizedSwarm` and does not model those two calls. The record count 300 is `NUM_BOTS` of MCS/mcs.py:10, which unified_api.py imports.
- Pydantic field ranges (unified_api.py:50-53) and the third client case ("Invalid latitude range", test_api.py:80-83). They are enforced by the web framework before `validate_bounds` runs.
- The mean of the flight-plan start is the exact sum divided by the count. numpy's pairwise summation order is not modelled.
- The camera, YOLO inference, drawing and timing of `main` in stat_analysis/yolo_imaging.py. Only the selection loop, the forward-back PID step with its override, and `direction` are modelled. The left-right and up-down PID calls are uses of the same `Pid.Compute`.
- `math.atan2` for the target angle and `math.degrees` (stat_analysis/yolo_imaging.py:111-114): display only.
- Numba's `@njit` compiles the loops and does not change their meaning.

## Findings

| source | as written | input that shows it | evidently intended | confidence | as-written member | corrected member |
|---|---|---|---|---|---|---|
| unified_api.py:470-471, 496-497 | the 400 raised for an empty coordinate list is caught by the enclosing `except Exception`, and the caller receives 500 "Error generating flight plan" | `coordinates = []` | a client error, status 400 "No coordinates provided" | not executed | UnifiedApi.FlightPlanStartAsWritten | UnifiedApi.FlightPlanStart |
