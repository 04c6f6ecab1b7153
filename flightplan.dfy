/**
 * The route planner: greedy nearest-neighbour ordering of waypoints, the
 * grouping of clustered points by label, and the min-max normalisation of
 * the density grid.
 */
module FlightPlan {
  import opened Common

  // ---------------------------------------------------------------------
  // Greedy nearest-neighbour ordering
  // ---------------------------------------------------------------------

  /**
   * The squared Euclidean distance. The planner sorts by the square root of
   * this value, which orders the candidates the same way.
   */
  function PlanarSqDist(a: Point, b: Point): real
  {
    (a.x - b.x) * (a.x - b.x) + (a.y - b.y) * (a.y - b.y)
  }

  /** One `(dist, i)` entry of the candidate list. */
  datatype DistIdx = DistIdx(dist: real, idx: nat)

  /** Tuple order: by distance, then by index. */
  predicate PairLe(a: DistIdx, b: DistIdx)
  {
    a.dist < b.dist || (a.dist == b.dist && a.idx <= b.idx)
  }

  /** The first entry of the sorted candidate list: the least pair in tuple order. */
  function LexMin(ps: seq<DistIdx>): (p: DistIdx)
    requires |ps| > 0
    ensures p in ps
    ensures forall q :: q in ps ==> PairLe(p, q)
  {
    if |ps| == 1 then ps[0]
    else
      var rest := LexMin(ps[1..]);
      assert forall q :: q in ps ==> q == ps[0] || q in ps[1..];
      if PairLe(ps[0], rest) then ps[0] else rest
  }

  /** The candidate list built from `current` over the unvisited indices, in their order. */
  function Candidates(current: Point, waypoints: seq<Point>, unvisited: seq<nat>): (ps: seq<DistIdx>)
    requires forall t :: 0 <= t < |unvisited| ==> unvisited[t] < |waypoints|
    ensures |ps| == |unvisited|
    ensures forall t :: 0 <= t < |ps| ==> ps[t] == DistIdx(PlanarSqDist(current, waypoints[unvisited[t]]), unvisited[t])
  {
    seq(|unvisited|, t requires 0 <= t < |unvisited| => DistIdx(PlanarSqDist(current, waypoints[unvisited[t]]), unvisited[t]))
  }

  /** The index the planner moves to next. */
  function Nearest(current: Point, waypoints: seq<Point>, unvisited: seq<nat>): (k: nat)
    requires |unvisited| > 0 && forall u :: u in unvisited ==> u < |waypoints|
    ensures k in unvisited
  {
    assert forall t :: 0 <= t < |unvisited| ==> unvisited[t] in unvisited;
    var ps := Candidates(current, waypoints, unvisited);
    var p := LexMin(ps);
    assert exists t :: 0 <= t < |ps| && ps[t] == p;
    p.idx
  }

  /**
   * The next waypoint is the nearest unvisited one, and of several equally
   * near, the one of lowest index.
   */
  lemma NearestIsClosest(current: Point, waypoints: seq<Point>, unvisited: seq<nat>, j: nat)
    requires |unvisited| > 0 && forall u :: u in unvisited ==> u < |waypoints|
    requires j in unvisited
    ensures var k := Nearest(current, waypoints, unvisited);
      PlanarSqDist(current, waypoints[k]) < PlanarSqDist(current, waypoints[j]) ||
      (PlanarSqDist(current, waypoints[k]) == PlanarSqDist(current, waypoints[j]) && k <= j)
  {
    assert forall t :: 0 <= t < |unvisited| ==> unvisited[t] in unvisited;
    var ps := Candidates(current, waypoints, unvisited);
    var p := LexMin(ps);
    var t :| 0 <= t < |unvisited| && unvisited[t] == j;
    assert ps[t] in ps;
    var s :| 0 <= s < |ps| && ps[s] == p;
    assert p.idx == unvisited[s];
  }

  /** `unvisited.remove(k)`: drop the first occurrence of `k`. */
  function Remove(s: seq<nat>, k: nat): (r: seq<nat>)
    ensures k in s ==> |r| == |s| - 1 && multiset(r) == multiset(s) - multiset{k}
    ensures k !in s ==> r == s
    ensures forall u :: u in r ==> u in s
  {
    if |s| == 0 then s
    else
      assert s == [s[0]] + s[1..];
      if s[0] == k then s[1..]
      else [s[0]] + Remove(s[1..], k)
  }

  /** The greedy tour from `current` over `unvisited`, as the sequence of indices it visits. */
  function GreedyOrder(current: Point, waypoints: seq<Point>, unvisited: seq<nat>): (order: seq<nat>)
    requires forall u :: u in unvisited ==> u < |waypoints|
    ensures |order| == |unvisited|
    ensures forall t :: 0 <= t < |order| ==> order[t] < |waypoints|
    decreases |unvisited|
  {
    if |unvisited| == 0 then []
    else
      var k := Nearest(current, waypoints, unvisited);
      var rest := Remove(unvisited, k);
      var tail := GreedyOrder(waypoints[k], waypoints, rest);
      ConsBelow(k, tail, |waypoints|);
      [k] + tail
  }

  lemma ConsBelow(k: nat, tail: seq<nat>, n: nat)
    requires k < n && forall t :: 0 <= t < |tail| ==> tail[t] < n
    ensures forall t :: 0 <= t < |[k] + tail| ==> ([k] + tail)[t] < n
  {
  }

  /** The tour visits exactly the unvisited indices, each as often as listed. */
  lemma {:induction false} GreedyPermutation(current: Point, waypoints: seq<Point>, unvisited: seq<nat>)
    requires forall u :: u in unvisited ==> u < |waypoints|
    ensures multiset(GreedyOrder(current, waypoints, unvisited)) == multiset(unvisited)
    decreases |unvisited|
  {
    if |unvisited| > 0 {
      var k := Nearest(current, waypoints, unvisited);
      var rest := Remove(unvisited, k);
      GreedyPermutation(waypoints[k], waypoints, rest);
      assert multiset(unvisited) == multiset{k} + multiset(rest);
    }
  }

  /** All the indices of `n` waypoints, in order. */
  function AllIndices(n: nat): (s: seq<nat>)
    ensures |s| == n && forall t :: 0 <= t < n ==> s[t] == t
  {
    seq(n, t requires 0 <= t < n => t as nat)
  }

  /** Starting from all indices, the tour visits every waypoint exactly once. */
  lemma GreedyVisitsEachOnce(start: Point, waypoints: seq<Point>, i: nat)
    requires i < |waypoints|
    ensures multiset(GreedyOrder(start, waypoints, AllIndices(|waypoints|)))[i] == 1
  {
    var all := AllIndices(|waypoints|);
    GreedyPermutation(start, waypoints, all);
    MultiplicityInIndices(|waypoints|, i);
  }

  lemma {:induction false} MultiplicityInIndices(n: nat, i: nat)
    requires i < n
    ensures multiset(AllIndices(n))[i] == 1
  {
    if n - 1 == i {
      assert AllIndices(n) == AllIndices(n - 1) + [i];
      assert i !in AllIndices(n - 1);
    } else {
      MultiplicityInIndices(n - 1, i);
      assert AllIndices(n) == AllIndices(n - 1) + [n - 1];
    }
  }

  /** Remove every index of `ks`, one occurrence each, in order. */
  function RemoveAll(s: seq<nat>, ks: seq<nat>): seq<nat>
    decreases |ks|
  {
    if |ks| == 0 then s else RemoveAll(Remove(s, ks[0]), ks[1..])
  }

  /**
   * Step `t` of the tour goes from the previous stop to the nearest of the
   * indices not yet visited.
   */
  lemma {:induction false} GreedyStep(current: Point, waypoints: seq<Point>, unvisited: seq<nat>, t: nat)
    requires AllBelow(unvisited, |waypoints|)
    requires t < |unvisited|
    ensures var order := GreedyOrder(current, waypoints, unvisited);
      var rest := RemoveAll(unvisited, order[..t]);
      var prev := if t == 0 then current else waypoints[order[t - 1]];
      |rest| > 0 && AllBelow(rest, |waypoints|) &&
      order[t] == Nearest(prev, waypoints, rest)
    decreases t
  {
    var order := GreedyOrder(current, waypoints, unvisited);
    if t == 0 {
      assert order[..0] == [];
    } else {
      var k := Nearest(current, waypoints, unvisited);
      var rest := Remove(unvisited, k);
      assert AllBelow(rest, |waypoints|);
      var tail := GreedyOrder(waypoints[k], waypoints, rest);
      assert order == [k] + tail;
      GreedyStep(waypoints[k], waypoints, rest, t - 1);
      ConsPrefix(k, tail, t);
      RemoveAllCons(unvisited, k, tail[..t - 1]);
      assert RemoveAll(unvisited, order[..t]) == RemoveAll(rest, tail[..t - 1]);
      assert order[t] == tail[t - 1];
      if t > 1 {
        assert order[t - 1] == tail[t - 2];
      } else {
        assert order[t - 1] == k;
      }
    }
  }

  lemma ConsPrefix(k: nat, tail: seq<nat>, t: nat)
    requires 0 < t <= |tail| + 1
    ensures ([k] + tail)[..t] == [k] + tail[..t - 1]
  {
  }

  lemma RemoveAllCons(s: seq<nat>, k: nat, ks: seq<nat>)
    ensures RemoveAll(s, [k] + ks) == RemoveAll(Remove(s, k), ks)
  {
    assert ([k] + ks)[1..] == ks;
  }

  /** Every stop after the first is nearest, with ties to the lowest index, among the waypoints left. */
  lemma GreedyPicksNearest(current: Point, waypoints: seq<Point>, unvisited: seq<nat>, t: nat, j: nat)
    requires AllBelow(unvisited, |waypoints|)
    requires t < |unvisited|
    requires j in RemoveAll(unvisited, GreedyOrder(current, waypoints, unvisited)[..t])
    ensures j < |waypoints|
    ensures var order := GreedyOrder(current, waypoints, unvisited);
      var prev := if t == 0 then current else waypoints[order[t - 1]];
      var k := order[t];
      PlanarSqDist(prev, waypoints[k]) < PlanarSqDist(prev, waypoints[j]) ||
      (PlanarSqDist(prev, waypoints[k]) == PlanarSqDist(prev, waypoints[j]) && k <= j)
  {
    var order := GreedyOrder(current, waypoints, unvisited);
    var prev := if t == 0 then current else waypoints[order[t - 1]];
    GreedyStep(current, waypoints, unvisited, t);
    assert j < |waypoints|;
    NearestIsClosest(prev, waypoints, RemoveAll(unvisited, order[..t]), j);
  }

  /** The waypoints at a sequence of indices. */
  function PointsAt(waypoints: seq<Point>, order: seq<nat>): (ps: seq<Point>)
    requires forall t :: 0 <= t < |order| ==> order[t] < |waypoints|
    ensures |ps| == |order| && forall t :: 0 <= t < |order| ==> ps[t] == waypoints[order[t]]
  {
    seq(|order|, t requires 0 <= t < |order| => waypoints[order[t]])
  }

  /** The `(dist, i)` list of one step of the planner. */
  method DistancesFrom(current: Point, waypoints: seq<Point>, unvisited: seq<nat>) returns (distances: seq<DistIdx>)
    requires forall t :: 0 <= t < |unvisited| ==> unvisited[t] < |waypoints|
    ensures distances == Candidates(current, waypoints, unvisited)
  {
    distances := [];
    for t := 0 to |unvisited|
      invariant |distances| == t
      invariant forall s :: 0 <= s < t ==> distances[s] == DistIdx(PlanarSqDist(current, waypoints[unvisited[s]]), unvisited[s])
    {
      var i := unvisited[t];
      var dist := (current.x - waypoints[i].x) * (current.x - waypoints[i].x) +
                  (current.y - waypoints[i].y) * (current.y - waypoints[i].y);
      distances := distances + [DistIdx(dist, i)];
    }
  }

  /** Sort the `(dist, i)` list of one step and take the index of its first entry. */
  method NearestUnvisited(current: Point, waypoints: seq<Point>, unvisited: seq<nat>) returns (nearestIndex: nat)
    requires |unvisited| > 0 && forall u :: u in unvisited ==> u < |waypoints|
    ensures nearestIndex == Nearest(current, waypoints, unvisited)
    ensures nearestIndex in unvisited && nearestIndex < |waypoints|
  {
    assert forall t :: 0 <= t < |unvisited| ==> unvisited[t] in unvisited;
    var distances := DistancesFrom(current, waypoints, unvisited);
    nearestIndex := LexMin(distances).idx;
  }

  /** Every index listed is below `n`. */
  predicate AllBelow(s: seq<nat>, n: nat)
  {
    forall u :: u in s ==> u < n
  }

  /** The loop of the planner keeps its invariant over one step: the planned order. */
  lemma TourAdvanceOrder(current: Point, waypoints: seq<Point>, unvisited: seq<nat>,
                         order: seq<nat>, goal: seq<nat>, k: nat)
    requires AllBelow(unvisited, |waypoints|) && |unvisited| > 0 && k < |waypoints|
    requires AllBelow(Remove(unvisited, k), |waypoints|)
    requires order + GreedyOrder(current, waypoints, unvisited) == goal
    requires k == Nearest(current, waypoints, unvisited)
    ensures (order + [k]) + GreedyOrder(waypoints[k], waypoints, Remove(unvisited, k)) == goal
  {
    GreedyAdvance(current, waypoints, unvisited, order);
  }

  /** The loop of the planner keeps its invariant over one step: the path so far. */
  lemma TourAdvancePath(start: Point, waypoints: seq<Point>, path: seq<Point>, order: seq<nat>, k: nat)
    requires forall t :: 0 <= t < |order| ==> order[t] < |waypoints|
    requires k < |waypoints|
    requires path == [start] + PointsAt(waypoints, order)
    ensures path + [waypoints[k]] == [start] + PointsAt(waypoints, order + [k])
  {
    PointsAtSnoc(waypoints, order, k);
  }

  lemma StepBounds(current: Point, waypoints: seq<Point>, unvisited: seq<nat>, order: seq<nat>, k: nat)
    requires AllBelow(unvisited, |waypoints|) && |unvisited| > 0
    requires forall t :: 0 <= t < |order| ==> order[t] < |waypoints|
    requires k == Nearest(current, waypoints, unvisited)
    ensures k < |waypoints|
    ensures AllBelow(Remove(unvisited, k), |waypoints|)
    ensures forall t :: 0 <= t < |order + [k]| ==> (order + [k])[t] < |waypoints|
  {
  }

  /** One step of the tour: the first stop, then the tour from there over the rest. */
  lemma GreedyAdvance(current: Point, waypoints: seq<Point>, unvisited: seq<nat>, done: seq<nat>)
    requires AllBelow(unvisited, |waypoints|)
    requires |unvisited| > 0
    ensures var k := Nearest(current, waypoints, unvisited);
      done + GreedyOrder(current, waypoints, unvisited) ==
      (done + [k]) + GreedyOrder(waypoints[k], waypoints, Remove(unvisited, k))
  {
    var k := Nearest(current, waypoints, unvisited);
    GreedyUnfold(current, waypoints, unvisited);
    ConcatAssoc(done, [k], GreedyOrder(waypoints[k], waypoints, Remove(unvisited, k)));
  }

  lemma GreedyUnfold(current: Point, waypoints: seq<Point>, unvisited: seq<nat>)
    requires AllBelow(unvisited, |waypoints|)
    requires |unvisited| > 0
    ensures var k := Nearest(current, waypoints, unvisited);
      GreedyOrder(current, waypoints, unvisited) == [k] + GreedyOrder(waypoints[k], waypoints, Remove(unvisited, k))
  {
  }

  lemma ConcatAssoc(a: seq<nat>, b: seq<nat>, c: seq<nat>)
    ensures a + (b + c) == (a + b) + c
  {
  }

  lemma PointsAtSnoc(waypoints: seq<Point>, order: seq<nat>, k: nat)
    requires forall t :: 0 <= t < |order| ==> order[t] < |waypoints|
    requires k < |waypoints|
    ensures PointsAt(waypoints, order + [k]) == PointsAt(waypoints, order) + [waypoints[k]]
  {
  }

  /**
   * `plan_flight_path`: the start point followed by every waypoint, each
   * time moving to the nearest one not yet visited (the first of the
   * sorted `(dist, i)` tuples). The waypoints are only read; the start
   * defaults to the origin.
   */
  method PlanFlightPath(waypoints: seq<Point>, start: Point := Point(0.0, 0.0)) returns (path: seq<Point>)
    ensures |path| == |waypoints| + 1 && path[0] == start
    ensures path == [start] + PointsAt(waypoints, GreedyOrder(start, waypoints, AllIndices(|waypoints|)))
  {
    if |waypoints| == 0 {
      return [start];
    }
    path := [start];
    var unvisited: seq<nat> := AllIndices(|waypoints|);
    var current := start;
    ghost var order: seq<nat> := [];
    ghost var goal: seq<nat> := GreedyOrder(start, waypoints, unvisited);
    while |unvisited| > 0
      invariant AllBelow(unvisited, |waypoints|)
      invariant forall t :: 0 <= t < |order| ==> order[t] < |waypoints|
      invariant order + GreedyOrder(current, waypoints, unvisited) == goal
      invariant path == [start] + PointsAt(waypoints, order)
      decreases |unvisited|
    {
      var nearestIndex := NearestUnvisited(current, waypoints, unvisited);
      var nextWaypoint := waypoints[nearestIndex];
      var rest := Remove(unvisited, nearestIndex);
      StepBounds(current, waypoints, unvisited, order, nearestIndex);
      TourAdvanceOrder(current, waypoints, unvisited, order, goal, nearestIndex);
      TourAdvancePath(start, waypoints, path, order, nearestIndex);
      path := path + [nextWaypoint];
      order := order + [nearestIndex];
      current := nextWaypoint;
      unvisited := rest;
    }
    assert order == goal;
  }

  /** Of two equally near waypoints the lower index is visited first. */
  lemma TieGoesToLowerIndex()
    ensures GreedyOrder(Point(0.0, 0.0), [Point(1.0, 0.0), Point(-1.0, 0.0)], [0, 1]) == [0, 1]
  {
    var wps := [Point(1.0, 0.0), Point(-1.0, 0.0)];
    var c0 := Candidates(Point(0.0, 0.0), wps, [0, 1]);
    assert c0 == [DistIdx(1.0, 0), DistIdx(1.0, 1)];
    assert LexMin(c0) == DistIdx(1.0, 0);
    assert Remove([0, 1], 0) == [1];
    var c1 := Candidates(wps[0], wps, [1]);
    assert c1 == [DistIdx(4.0, 1)];
    assert GreedyOrder(wps[0], wps, [1]) == [1] + GreedyOrder(wps[1], wps, []);
  }

  /** The nearer waypoint is visited first even when it has the higher index. */
  lemma NearerFirst()
    ensures GreedyOrder(Point(0.0, 0.0), [Point(5.0, 0.0), Point(1.0, 0.0)], [0, 1]) == [1, 0]
  {
    var wps := [Point(5.0, 0.0), Point(1.0, 0.0)];
    var c0 := Candidates(Point(0.0, 0.0), wps, [0, 1]);
    assert c0 == [DistIdx(25.0, 0), DistIdx(1.0, 1)];
    assert LexMin(c0[1..]) == DistIdx(1.0, 1);
    assert LexMin(c0) == DistIdx(1.0, 1);
    assert Remove([0, 1], 1) == [0];
    var c1 := Candidates(wps[1], wps, [0]);
    assert c1 == [DistIdx(16.0, 0)];
    assert GreedyOrder(wps[1], wps, [0]) == [0] + GreedyOrder(wps[0], wps, []);
  }

  // ---------------------------------------------------------------------
  // Grouping clustered points by label
  // ---------------------------------------------------------------------

  /** The label DBSCAN gives noise. */
  const NOISE: int := -1

  /** The positions among the first `n` points whose label is `k`, in order. */
  function MaskIndices(labels: seq<int>, k: int, n: nat): (idx: seq<nat>)
    requires n <= |labels|
    ensures forall t :: 0 <= t < |idx| ==> idx[t] < n
    ensures forall i: nat :: i in idx <==> i < n && labels[i] == k
    ensures forall s, t :: 0 <= s < t < |idx| ==> idx[s] < idx[t]
  {
    if n == 0 then []
    else
      var prev := MaskIndices(labels, k, n - 1);
      if labels[n - 1] == k then prev + [n - 1] else prev
  }

  /** `coords[labels == k]`: the points labelled `k`, in input order. */
  function Select(coords: seq<Point>, labels: seq<int>, k: int): (cluster: seq<Point>)
    requires |labels| == |coords|
    ensures |cluster| == |MaskIndices(labels, k, |labels|)|
    ensures forall t :: 0 <= t < |cluster| ==> cluster[t] == coords[MaskIndices(labels, k, |labels|)[t]]
  {
    var idx := MaskIndices(labels, k, |labels|);
    seq(|idx|, t requires 0 <= t < |idx| => coords[idx[t]])
  }

  /** The set of labels that occur. */
  function LabelSet(labels: seq<int>): set<int>
  {
    set i | 0 <= i < |labels| :: labels[i]
  }

  /**
   * A listing of the label set: every label that occurs, each once. Python
   * iterates a set in an order of its own choosing; the model takes that
   * order as given.
   */
  ghost predicate EnumeratesLabels(order: seq<int>, labels: seq<int>)
  {
    (forall k :: k in order <==> k in LabelSet(labels)) &&
    (forall s, t :: 0 <= s < t < |order| ==> order[s] != order[t])
  }

  /** The labels of `order` other than noise, in order. */
  function ClusterLabels(order: seq<int>): (ks: seq<int>)
    ensures forall k :: k in ks <==> k in order && k != NOISE
    ensures |ks| <= |order|
  {
    if |order| == 0 then []
    else
      var rest := ClusterLabels(order[..|order| - 1]);
      assert order == order[..|order| - 1] + [order[|order| - 1]];
      if order[|order| - 1] == NOISE then rest else rest + [order[|order| - 1]]
  }

  /** The clusters keep the labels distinct and miss no label except noise. */
  lemma {:induction false} ClusterLabelsDistinct(order: seq<int>)
    requires forall s, t :: 0 <= s < t < |order| ==> order[s] != order[t]
    ensures var ks := ClusterLabels(order);
      forall s, t :: 0 <= s < t < |ks| ==> ks[s] != ks[t]
  {
    if |order| > 0 {
      var init := order[..|order| - 1];
      ClusterLabelsDistinct(init);
      assert order == init + [order[|order| - 1]];
      assert order[|order| - 1] !in init;
      assert order[|order| - 1] !in ClusterLabels(init);
    }
  }

  /**
   * `find_hotspots_with_dbscan` after the clustering: for each label of the
   * label set, in the order `order` lists them, skip noise, and otherwise
   * keep the points with that label.
   */
  method FindHotspots(coords: seq<Point>, labels: seq<int>, order: seq<int>) returns (hotspots: seq<seq<Point>>)
    requires |labels| == |coords|
    requires EnumeratesLabels(order, labels)
    ensures |hotspots| == |ClusterLabels(order)|
    ensures forall t :: 0 <= t < |hotspots| ==> hotspots[t] == Select(coords, labels, ClusterLabels(order)[t])
  {
    hotspots := [];
    for t := 0 to |order|
      invariant |hotspots| == |ClusterLabels(order[..t])|
      invariant forall c :: 0 <= c < |hotspots| ==> hotspots[c] == Select(coords, labels, ClusterLabels(order[..t])[c])
    {
      var k := order[t];
      assert order[..t + 1][..t] == order[..t];
      if k == NOISE {
        continue;
      }
      var clusterCoords := Select(coords, labels, k);
      hotspots := hotspots + [clusterCoords];
    }
    assert order[..|order|] == order;
  }

  /** The hotspots are one per label other than noise, each label once. */
  lemma HotspotLabels(labels: seq<int>, order: seq<int>)
    requires EnumeratesLabels(order, labels)
    ensures forall k :: k in ClusterLabels(order) <==> k in LabelSet(labels) && k != NOISE
    ensures var ks := ClusterLabels(order);
      forall s, t :: 0 <= s < t < |ks| ==> ks[s] != ks[t]
  {
    ClusterLabelsDistinct(order);
  }

  /** Every label that occurs has a non-empty cluster. */
  lemma ClusterNonEmpty(labels: seq<int>, i: nat)
    requires i < |labels|
    ensures |MaskIndices(labels, labels[i], |labels|)| > 0
  {
    assert i in MaskIndices(labels, labels[i], |labels|);
  }

  /** Clusters of different labels share no point. */
  lemma ClustersDisjoint(labels: seq<int>, k1: int, k2: int)
    requires k1 != k2
    ensures forall i :: i in MaskIndices(labels, k1, |labels|) ==> i !in MaskIndices(labels, k2, |labels|)
  {
  }

  /** Every point not labelled noise lies in the cluster of its label; noise points lie in none. */
  lemma ClustersCoverNonNoise(labels: seq<int>, i: nat)
    requires i < |labels|
    ensures labels[i] != NOISE <==>
      exists k :: k in LabelSet(labels) && k != NOISE && i in MaskIndices(labels, k, |labels|)
  {
    if labels[i] != NOISE {
      assert labels[i] in LabelSet(labels);
      assert i in MaskIndices(labels, labels[i], |labels|);
    }
  }

  /** A point not labelled noise, found in the hotspot of its label. */
  lemma HotspotOfPoint(coords: seq<Point>, labels: seq<int>, order: seq<int>, i: nat) returns (t: nat)
    requires |labels| == |coords|
    requires EnumeratesLabels(order, labels)
    requires i < |labels| && labels[i] != NOISE
    ensures t < |ClusterLabels(order)| && ClusterLabels(order)[t] == labels[i]
    ensures coords[i] in Select(coords, labels, labels[i])
  {
    var ks := ClusterLabels(order);
    assert labels[i] in LabelSet(labels);
    assert labels[i] in ks;
    t :| 0 <= t < |ks| && ks[t] == labels[i];
    var idx := MaskIndices(labels, labels[i], |labels|);
    assert i in idx;
    var u :| 0 <= u < |idx| && idx[u] == i;
    assert Select(coords, labels, labels[i])[u] == coords[i];
  }

  /**
   * What `FindHotspots` returns, as a whole: every hotspot is non-empty, and
   * a point not labelled noise lies in the hotspot of its label, which is
   * the only hotspot carrying that label.
   */
  lemma HotspotsPartition(coords: seq<Point>, labels: seq<int>, order: seq<int>, i: nat)
    requires |labels| == |coords|
    requires EnumeratesLabels(order, labels)
    requires i < |labels|
    ensures var ks := ClusterLabels(order);
      forall t :: 0 <= t < |ks| ==> |Select(coords, labels, ks[t])| > 0
    ensures var ks := ClusterLabels(order);
      labels[i] != NOISE <==>
      exists t :: 0 <= t < |ks| && ks[t] == labels[i] && coords[i] in Select(coords, labels, ks[t])
    ensures var ks := ClusterLabels(order);
      forall s, t :: 0 <= s < t < |ks| ==> ks[s] != ks[t]
  {
    var ks := ClusterLabels(order);
    HotspotLabels(labels, order);
    forall t | 0 <= t < |ks|
      ensures |Select(coords, labels, ks[t])| > 0
    {
      assert ks[t] in ks;
      var j :| 0 <= j < |labels| && labels[j] == ks[t];
      ClusterNonEmpty(labels, j);
    }
    if labels[i] != NOISE {
      var t := HotspotOfPoint(coords, labels, order, i);
    } else {
      forall t | 0 <= t < |ks|
        ensures ks[t] != NOISE
      {
        assert ks[t] in ks;
      }
    }
  }

  // ---------------------------------------------------------------------
  // Min-max normalisation of the density grid
  // ---------------------------------------------------------------------

  /**
   * The outcome of `(Z - Z.min()) / (Z.max() - Z.min())`: a grid, an error
   * for an empty grid (`min` of an empty array), or a grid of not-a-number
   * cells when every value is the same (zero over zero).
   */
  datatype Normalization = Normalized(grid: seq<seq<real>>) | EmptyGrid | ZeroRange

  /** All cells, row after row. */
  function Flatten(z: seq<seq<real>>): (f: seq<real>)
    ensures forall i, j :: 0 <= i < |z| && 0 <= j < |z[i]| ==> z[i][j] in f
  {
    if |z| == 0 then []
    else
      var rest := Flatten(z[1..]);
      assert forall i, j :: 1 <= i < |z| && 0 <= j < |z[i]| ==> z[i][j] == z[1..][i - 1][j];
      z[0] + rest
  }

  /** Every value in the flattened grid is some cell of the grid. */
  lemma {:induction false} FlattenMember(z: seq<seq<real>>, v: real)
    requires v in Flatten(z)
    ensures exists i, j :: 0 <= i < |z| && 0 <= j < |z[i]| && z[i][j] == v
  {
    if v !in z[0] {
      FlattenMember(z[1..], v);
      var i, j :| 0 <= i < |z[1..]| && 0 <= j < |z[1..][i]| && z[1..][i][j] == v;
      assert z[i + 1][j] == v;
    } else {
      var j :| 0 <= j < |z[0]| && z[0][j] == v;
    }
  }

  function SeqMin(s: seq<real>): (m: real)
    requires |s| > 0
    ensures m in s && forall v :: v in s ==> m <= v
  {
    if |s| == 1 then s[0]
    else
      var r := SeqMin(s[1..]);
      assert forall v :: v in s ==> v == s[0] || v in s[1..];
      if s[0] <= r then s[0] else r
  }

  function SeqMax(s: seq<real>): (m: real)
    requires |s| > 0
    ensures m in s && forall v :: v in s ==> v <= m
  {
    if |s| == 1 then s[0]
    else
      var r := SeqMax(s[1..]);
      assert forall v :: v in s ==> v == s[0] || v in s[1..];
      if s[0] >= r then s[0] else r
  }

  /** The normalisation of one cell. */
  function Scale(v: real, lo: real, hi: real): real
    requires lo < hi
  {
    (v - lo) / (hi - lo)
  }

  /** Every cell scaled by the grid's range. */
  function ScaledGrid(z: seq<seq<real>>, lo: real, hi: real): (g: seq<seq<real>>)
    requires lo < hi
    ensures |g| == |z| && forall i :: 0 <= i < |z| ==> |g[i]| == |z[i]|
    ensures forall i, j :: 0 <= i < |z| && 0 <= j < |z[i]| ==> g[i][j] == Scale(z[i][j], lo, hi)
  {
    seq(|z|, i requires 0 <= i < |z| =>
      seq(|z[i]|, j requires 0 <= j < |z[i]| => Scale(z[i][j], lo, hi)))
  }

  /** The normalisation step of `generate_density_map_from_data`. */
  function NormalizeDensity(z: seq<seq<real>>): (r: Normalization)
    ensures r == EmptyGrid <==> |Flatten(z)| == 0
    ensures r == ZeroRange <==> |Flatten(z)| > 0 && SeqMin(Flatten(z)) == SeqMax(Flatten(z))
    ensures r.Normalized? ==> |r.grid| == |z| && forall i :: 0 <= i < |z| ==> |r.grid[i]| == |z[i]|
  {
    var f := Flatten(z);
    if |f| == 0 then EmptyGrid
    else
      var lo := SeqMin(f);
      var hi := SeqMax(f);
      if hi == lo then ZeroRange
      else Normalized(ScaledGrid(z, lo, hi))
  }

  /** For `0 <= a <= m`, the quotient `u` of `a` by `m` lies in [0, 1]. */
  lemma UnitFraction(a: real, m: real, u: real)
    requires 0.0 <= a <= m && m > 0.0 && m * u == a
    ensures 0.0 <= u <= 1.0
    ensures a == m ==> u == 1.0
  {
    if u < 0.0 {
      MulPos(m, -u);
    }
    if u > 1.0 {
      MulPos(m, u - 1.0);
    }
    if a == m {
      assert m * (u - 1.0) == m * u - m;
      ProductZero(m, u - 1.0);
    }
  }

  /** A value within the range scales into [0, 1], the ends of the range to 0 and 1. */
  lemma ScaleInUnit(v: real, lo: real, hi: real)
    requires lo <= v <= hi && lo < hi
    ensures 0.0 <= Scale(v, lo, hi) <= 1.0
    ensures v == lo ==> Scale(v, lo, hi) == 0.0
    ensures v == hi ==> Scale(v, lo, hi) == 1.0
  {
    var a, d := v - lo, hi - lo;
    DivMul(a, d);
    UnitFraction(a, d, a / d);
  }

  /** Scaling keeps order. */
  lemma ScaleMonotone(v1: real, v2: real, lo: real, hi: real)
    requires v1 <= v2 && lo < hi
    ensures Scale(v1, lo, hi) <= Scale(v2, lo, hi)
  {
    var d := hi - lo;
    var u1, u2 := (v1 - lo) / d, (v2 - lo) / d;
    DivMul(v1 - lo, d);
    DivMul(v2 - lo, d);
    if u2 < u1 {
      MulPos(d, u1 - u2);
    }
  }

  /**
   * When the grid's values differ, every normalised cell lies in [0, 1],
   * the smallest value goes to 0 and the largest to 1.
   */
  lemma NormalizeDensityRange(z: seq<seq<real>>, i: nat, j: nat)
    requires NormalizeDensity(z).Normalized?
    requires i < |z| && j < |z[i]|
    ensures var g := NormalizeDensity(z).grid;
      0.0 <= g[i][j] <= 1.0 &&
      (z[i][j] == SeqMin(Flatten(z)) ==> g[i][j] == 0.0) &&
      (z[i][j] == SeqMax(Flatten(z)) ==> g[i][j] == 1.0)
  {
    var f := Flatten(z);
    assert z[i][j] in f;
    ScaleInUnit(z[i][j], SeqMin(f), SeqMax(f));
  }

  /** Normalisation keeps the order of any two cells. */
  lemma NormalizeDensityMonotone(z: seq<seq<real>>, i1: nat, j1: nat, i2: nat, j2: nat)
    requires NormalizeDensity(z).Normalized?
    requires i1 < |z| && j1 < |z[i1]| && i2 < |z| && j2 < |z[i2]|
    requires z[i1][j1] <= z[i2][j2]
    ensures NormalizeDensity(z).grid[i1][j1] <= NormalizeDensity(z).grid[i2][j2]
  {
    var f := Flatten(z);
    ScaleMonotone(z[i1][j1], z[i2][j2], SeqMin(f), SeqMax(f));
  }

  /** The least and the greatest value each occur in the grid, so 0 and 1 are both reached. */
  lemma NormalizeDensityReachesEnds(z: seq<seq<real>>)
    requires NormalizeDensity(z).Normalized?
    ensures exists i, j :: 0 <= i < |z| && 0 <= j < |z[i]| && NormalizeDensity(z).grid[i][j] == 0.0
    ensures exists i, j :: 0 <= i < |z| && 0 <= j < |z[i]| && NormalizeDensity(z).grid[i][j] == 1.0
  {
    var f := Flatten(z);
    var lo, hi := SeqMin(f), SeqMax(f);
    FlattenMember(z, lo);
    FlattenMember(z, hi);
    var i0, j0 :| 0 <= i0 < |z| && 0 <= j0 < |z[i0]| && z[i0][j0] == lo;
    var i1, j1 :| 0 <= i1 < |z| && 0 <= j1 < |z[i1]| && z[i1][j1] == hi;
    NormalizeDensityRange(z, i0, j0);
    NormalizeDensityRange(z, i1, j1);
  }
}
