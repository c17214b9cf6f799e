/** The route sequencer of components/RouteOptimizer.tsx: deliveries are expanded into pickup and
    dropoff stops, a greedy nearest-neighbour loop orders them, and the result is compared with the
    distance of visiting the stops in input order. The great-circle distance is a parameter `dist`. */
module RouteOptimizer {
  import opened Types
  import opened Text
  import StatusStepper
  import DeliveryStoreHook

  datatype Point = Point(latitude: real, longitude: real)

  datatype StopKind = PickupStop | DropoffStop

  datatype RouteStop = RouteStop(id: string, address: string, latitude: real, longitude: real,
                                 kind: StopKind, estimatedTime: nat, priority: nat)

  datatype Savings = Savings(distance: real, time: real)

  datatype OptimizedRoute = OptimizedRoute(stops: seq<RouteStop>, totalDistance: real, totalTime: real,
                                           savings: Savings)

  function Position(s: RouteStop): Point {
    Point(s.latitude, s.longitude)
  }

  // ----- stop expansion -----

  /** The pickup stop of a delivery. */
  function PickupOf(d: Delivery): (s: RouteStop)
    ensures s.id == d.id + "-pickup" && s.kind == PickupStop
    ensures s.address == StringOr(d.pickupLocation.address, "Pickup location")
    ensures Position(s) == Point(d.pickupLocation.latitude, d.pickupLocation.longitude)
    ensures s.estimatedTime == 5 && s.priority == 1
  {
    RouteStop(d.id + "-pickup", StringOr(d.pickupLocation.address, "Pickup location"),
              d.pickupLocation.latitude, d.pickupLocation.longitude, PickupStop, 5, 1)
  }

  /** The dropoff stop of a delivery. */
  function DropoffOf(d: Delivery): (s: RouteStop)
    ensures s.id == d.id + "-dropoff" && s.kind == DropoffStop
    ensures s.address == StringOr(d.dropoffLocation.address, "Dropoff location")
    ensures Position(s) == Point(d.dropoffLocation.latitude, d.dropoffLocation.longitude)
    ensures s.estimatedTime == 5 && s.priority == 1
  {
    RouteStop(d.id + "-dropoff", StringOr(d.dropoffLocation.address, "Dropoff location"),
              d.dropoffLocation.latitude, d.dropoffLocation.longitude, DropoffStop, 5, 1)
  }

  /** A delivery takes part when it is selected, or when nothing is selected. */
  predicate Included(selected: set<string>, d: Delivery) {
    d.id in selected || |selected| == 0
  }

  /** The deliveries that take part, in input order. */
  function Expanded(ds: seq<Delivery>, selected: set<string>): (r: seq<Delivery>)
    ensures |r| <= |ds|
    ensures forall d :: d in r <==> d in ds && Included(selected, d)
    ensures |selected| == 0 ==> r == ds
  {
    if ds == [] then []
    else
      var last := ds[|ds| - 1];
      var r := Expanded(ds[..|ds| - 1], selected) + (if Included(selected, last) then [last] else []);
      assert ds == ds[..|ds| - 1] + [last];
      r
  }

  /** Taking part is decided delivery by delivery, so the expansion keeps input order. */
  lemma {:induction false} ExpandedConcat(a: seq<Delivery>, b: seq<Delivery>, selected: set<string>)
    ensures Expanded(a + b, selected) == Expanded(a, selected) + Expanded(b, selected)
    decreases |b|
  {
    if b == [] {
      assert a + b == a;
    } else {
      var init, last := b[..|b| - 1], b[|b| - 1];
      assert (a + b)[..|a + b| - 1] == a + init;
      assert (a + b)[|a + b| - 1] == last;
      ExpandedConcat(a, init, selected);
    }
  }

  /** A pickup then a dropoff for each delivery, in order. */
  function Pairs(ds: seq<Delivery>): seq<RouteStop> {
    if ds == [] then [] else Pairs(ds[..|ds| - 1]) + [PickupOf(ds[|ds| - 1]), DropoffOf(ds[|ds| - 1])]
  }

  /** Stop 2i is the pickup and stop 2i+1 the dropoff of delivery i. */
  lemma {:induction false} PairsAt(ds: seq<Delivery>)
    ensures |Pairs(ds)| == 2 * |ds|
    ensures forall i :: 0 <= i < |ds| ==> Pairs(ds)[2 * i] == PickupOf(ds[i]) && Pairs(ds)[2 * i + 1] == DropoffOf(ds[i])
  {
    if ds != [] {
      var init, last := ds[..|ds| - 1], ds[|ds| - 1];
      PairsAt(init);
      var p := Pairs(init);
      assert Pairs(ds) == p + [PickupOf(last), DropoffOf(last)];
      forall i | 0 <= i < |ds|
        ensures Pairs(ds)[2 * i] == PickupOf(ds[i]) && Pairs(ds)[2 * i + 1] == DropoffOf(ds[i])
      {
        if i < |init| {
          assert init[i] == ds[i];
          assert Pairs(ds)[2 * i] == p[2 * i] && Pairs(ds)[2 * i + 1] == p[2 * i + 1];
        } else {
          assert 2 * i == |p|;
        }
      }
    }
  }

  /** The stops optimizeRoute builds. */
  function StopsFor(ds: seq<Delivery>, selected: set<string>): seq<RouteStop> {
    Pairs(Expanded(ds, selected))
  }

  /** The forEach that pushes a pickup and a dropoff for each taking part delivery. */
  method ExpandStops(ds: seq<Delivery>, selected: set<string>) returns (stops: seq<RouteStop>)
    ensures stops == StopsFor(ds, selected)
    ensures |stops| == 2 * |Expanded(ds, selected)|
  {
    stops := [];
    var i := 0;
    while i < |ds|
      invariant 0 <= i <= |ds|
      invariant stops == Pairs(Expanded(ds[..i], selected))
    {
      var d := ds[i];
      assert ds[..i + 1][..i] == ds[..i];
      var e := Expanded(ds[..i], selected);
      assert Expanded(ds[..i + 1], selected) == e + (if Included(selected, d) then [d] else []);
      if Included(selected, d) {
        assert (e + [d])[..|e|] == e;
        assert Pairs(e + [d]) == Pairs(e) + [PickupOf(d), DropoffOf(d)];
        stops := stops + [PickupOf(d), DropoffOf(d)];
      } else {
        assert Expanded(ds[..i + 1], selected) == e;
      }
      i := i + 1;
    }
    assert ds[..i] == ds;
    PairsAt(Expanded(ds, selected));
  }

  // ----- the nearest-neighbour scan -----

  /** `id.split('-')[0]`: the part of a stop id before its first '-'. */
  function PairKey(id: string): string {
    StatusStepper.Split(id, '-')[0]
  }

  /** `remainingStops.some(s => key(s.id) === key(stop.id) && s.type === 'pickup')`. */
  predicate PickupPending(rem: seq<RouteStop>, stop: RouteStop) {
    exists j :: 0 <= j < |rem| && PairKey(rem[j].id) == PairKey(stop.id) && rem[j].kind == PickupStop
  }

  /** 1000 added to a dropoff while a pickup with the same key remains, else 0. */
  function Penalty(rem: seq<RouteStop>, stop: RouteStop): (r: real)
    ensures r == 1000.0 <==> stop.kind == DropoffStop && PickupPending(rem, stop)
    ensures r == 0.0 || r == 1000.0
  {
    if stop.kind == DropoffStop && PickupPending(rem, stop) then 1000.0 else 0.0
  }

  function Weighted(rem: seq<RouteStop>, pos: Point, dist: (Point, Point) -> real, stop: RouteStop): real {
    dist(pos, Position(stop)) + Penalty(rem, stop)
  }

  /** The scan's state: `Unset` is the initial `nearestDistance = Infinity`. */
  datatype Best = Unset | Best(index: nat, distance: real)

  /** The scan after the first n candidates. A candidate replaces the best when its weighted
      distance is below the best's recorded distance, and the distance recorded is its plain one. */
  function ScanFrom(rem: seq<RouteStop>, pos: Point, dist: (Point, Point) -> real, n: nat): (b: Best)
    requires n <= |rem|
    ensures b.Unset? <==> n == 0
    ensures b.Best? ==> b.index < n && b.distance == dist(pos, Position(rem[b.index]))
    ensures b.Best? ==> forall j :: b.index < j < n ==> Weighted(rem, pos, dist, rem[j]) >= b.distance
  {
    if n == 0 then Unset
    else
      var b := ScanFrom(rem, pos, dist, n - 1);
      var stop := rem[n - 1];
      if b.Unset? || Weighted(rem, pos, dist, stop) < b.distance then Best(n - 1, dist(pos, Position(stop)))
      else b
  }

  /** The index the loop takes from the remaining stops. */
  function NearestIndex(rem: seq<RouteStop>, pos: Point, dist: (Point, Point) -> real): (i: nat)
    requires rem != []
    ensures i < |rem|
  {
    ScanFrom(rem, pos, dist, |rem|).index
  }

  /** `splice(i, 1)`. */
  function RemoveAt(s: seq<RouteStop>, i: nat): (r: seq<RouteStop>)
    requires i < |s|
    ensures |r| == |s| - 1
    ensures multiset(r) + multiset{s[i]} == multiset(s)
  {
    assert s == s[..i] + [s[i]] + s[i + 1..];
    s[..i] + s[i + 1..]
  }

  /** The order the greedy loop produces from `pos`. */
  function GreedyOrder(rem: seq<RouteStop>, pos: Point, dist: (Point, Point) -> real): seq<RouteStop>
    decreases |rem|
  {
    if rem == [] then []
    else
      var i := NearestIndex(rem, pos, dist);
      [rem[i]] + GreedyOrder(RemoveAt(rem, i), Position(rem[i]), dist)
  }

  /** The running total the greedy loop accumulates. */
  function GreedyTotal(rem: seq<RouteStop>, pos: Point, dist: (Point, Point) -> real): real
    decreases |rem|
  {
    if rem == [] then 0.0
    else
      var i := NearestIndex(rem, pos, dist);
      ScanFrom(rem, pos, dist, |rem|).distance + GreedyTotal(RemoveAt(rem, i), Position(rem[i]), dist)
  }

  /** The length of a walk from `pos` through `order`. */
  function PathLength(pos: Point, order: seq<RouteStop>, dist: (Point, Point) -> real): real
    decreases |order|
  {
    if order == [] then 0.0 else dist(pos, Position(order[0])) + PathLength(Position(order[0]), order[1..], dist)
  }

  /** The loop visits every stop exactly once: its output is a permutation of its input. */
  lemma {:induction false} GreedyIsPermutation(rem: seq<RouteStop>, pos: Point, dist: (Point, Point) -> real)
    ensures |GreedyOrder(rem, pos, dist)| == |rem|
    ensures multiset(GreedyOrder(rem, pos, dist)) == multiset(rem)
    decreases |rem|
  {
    if rem != [] {
      var i := NearestIndex(rem, pos, dist);
      GreedyIsPermutation(RemoveAt(rem, i), Position(rem[i]), dist);
    }
  }

  /** The running total is the plain length of the walk along the output order: penalties steer
      the choice but are never added. */
  lemma {:induction false} GreedyTotalIsPathLength(rem: seq<RouteStop>, pos: Point, dist: (Point, Point) -> real)
    ensures GreedyTotal(rem, pos, dist) == PathLength(pos, GreedyOrder(rem, pos, dist), dist)
    decreases |rem|
  {
    if rem != [] {
      var i := NearestIndex(rem, pos, dist);
      var order := GreedyOrder(rem, pos, dist);
      GreedyTotalIsPathLength(RemoveAt(rem, i), Position(rem[i]), dist);
      assert order[0] == rem[i];
      assert order[1..] == GreedyOrder(RemoveAt(rem, i), Position(rem[i]), dist);
    }
  }

  /** With a non-negative distance every walk has non-negative length. */
  lemma {:induction false} PathLengthNonNegative(pos: Point, order: seq<RouteStop>, dist: (Point, Point) -> real)
    requires forall p, q :: dist(p, q) >= 0.0
    ensures PathLength(pos, order, dist) >= 0.0
    decreases |order|
  {
    if order != [] {
      PathLengthNonNegative(Position(order[0]), order[1..], dist);
    }
  }

  /** One pass of the forEach over the remaining stops. */
  method FindNearest(rem: seq<RouteStop>, pos: Point, dist: (Point, Point) -> real)
    returns (nearestIndex: nat, nearestDistance: real)
    requires rem != []
    ensures nearestIndex == NearestIndex(rem, pos, dist) && nearestIndex < |rem|
    ensures nearestDistance == dist(pos, Position(rem[nearestIndex]))
    ensures forall j :: nearestIndex < j < |rem| ==> Weighted(rem, pos, dist, rem[j]) >= nearestDistance
  {
    var nearest: Best := Unset;
    for j := 0 to |rem|
      invariant nearest == ScanFrom(rem, pos, dist, j)
    {
      var stop := rem[j];
      var distance := dist(pos, Position(stop));
      var weightedDistance := distance + Penalty(rem, stop);
      if nearest.Unset? || weightedDistance < nearest.distance {
        nearest := Best(j, distance);
      }
    }
    nearestIndex, nearestDistance := nearest.index, nearest.distance;
  }

  /** `currentLocation || { stops[0]?.latitude || 0, stops[0]?.longitude || 0 }`. */
  function StartPoint(current: Option<Point>, stops: seq<RouteStop>): (p: Point)
    ensures current.Some? ==> p == current.value
    ensures current.None? && stops != [] ==> p == Position(stops[0])
    ensures current.None? && stops == [] ==> p == Point(0.0, 0.0)
  {
    if current.Some? then current.value else if stops != [] then Position(stops[0]) else Point(0.0, 0.0)
  }

  function Max0(x: real): (r: real)
    ensures r >= 0.0 && r >= x && (r == x || r == 0.0)
  {
    if x > 0.0 then x else 0.0
  }

  /** The while loop: one stop moves from the remaining stops to the output per iteration. */
  method GreedyLoop(stops: seq<RouteStop>, start: Point, dist: (Point, Point) -> real)
    returns (optimizedStops: seq<RouteStop>, totalDistance: real)
    ensures optimizedStops == GreedyOrder(stops, start, dist)
    ensures totalDistance == GreedyTotal(stops, start, dist)
  {
    optimizedStops := [];
    var remainingStops := stops;
    var currentPos := start;
    totalDistance := 0.0;
    while |remainingStops| > 0
      invariant optimizedStops + GreedyOrder(remainingStops, currentPos, dist) == GreedyOrder(stops, start, dist)
      invariant totalDistance + GreedyTotal(remainingStops, currentPos, dist) == GreedyTotal(stops, start, dist)
      decreases |remainingStops|
    {
      var nearestIndex, nearestDistance := FindNearest(remainingStops, currentPos, dist);
      var nextStop := remainingStops[nearestIndex];
      optimizedStops := optimizedStops + [nextStop];
      totalDistance := totalDistance + nearestDistance;
      currentPos := Position(nextStop);
      remainingStops := RemoveAt(remainingStops, nearestIndex);
    }
  }

  /** The baseline forEach: the length of visiting the stops in input order. */
  method WalkInOrder(stops: seq<RouteStop>, start: Point, dist: (Point, Point) -> real)
    returns (originalDistance: real)
    ensures originalDistance == PathLength(start, stops, dist)
  {
    originalDistance := 0.0;
    var prevPos := start;
    for i := 0 to |stops|
      invariant originalDistance + PathLength(prevPos, stops[i..], dist) == PathLength(start, stops, dist)
    {
      assert stops[i..][1..] == stops[i + 1..];
      originalDistance := originalDistance + dist(prevPos, Position(stops[i]));
      prevPos := Position(stops[i]);
    }
  }

  /** optimizeRoute: expansion, the greedy loop, the baseline in input order, and the summary. */
  method ComputeRoute(deliveries: seq<Delivery>, selected: set<string>, current: Option<Point>,
                      dist: (Point, Point) -> real)
    returns (route: OptimizedRoute)
    ensures route.stops == GreedyOrder(StopsFor(deliveries, selected),
                                       StartPoint(current, StopsFor(deliveries, selected)), dist)
    ensures |route.stops| == 2 * |Expanded(deliveries, selected)|
    ensures multiset(route.stops) == multiset(StopsFor(deliveries, selected))
    ensures route.totalDistance == PathLength(StartPoint(current, StopsFor(deliveries, selected)), route.stops, dist)
    ensures route == Summary(route.stops, route.totalDistance,
                             PathLength(StartPoint(current, StopsFor(deliveries, selected)),
                                        StopsFor(deliveries, selected), dist))
  {
    var stops := ExpandStops(deliveries, selected);
    var start := StartPoint(current, stops);

    var optimizedStops, totalDistance := GreedyLoop(stops, start, dist);
    var originalDistance := WalkInOrder(stops, start, dist);
    GreedyIsPermutation(stops, start, dist);
    GreedyTotalIsPathLength(stops, start, dist);
    route := Summary(optimizedStops, totalDistance, originalDistance);
  }

  /** The route object: ten minutes per stop plus two per kilometre, and savings never below zero. */
  function Summary(stops: seq<RouteStop>, totalDistance: real, originalDistance: real): (route: OptimizedRoute)
    ensures route.stops == stops && route.totalDistance == totalDistance
    ensures route.totalTime == (|stops| * 10) as real + totalDistance * 2.0
    ensures route.savings.distance >= 0.0 && route.savings.time >= 0.0
    ensures route.savings.time == 2.0 * route.savings.distance
    ensures originalDistance >= totalDistance ==> route.savings.distance == originalDistance - totalDistance
    ensures originalDistance <= totalDistance ==> route.savings.distance == 0.0
  {
    OptimizedRoute(stops, totalDistance, (|stops| * 10) as real + totalDistance * 2.0,
                   Savings(Max0(originalDistance - totalDistance), Max0((originalDistance - totalDistance) * 2.0)))
  }

  // ----- where the pickup-before-dropoff penalty falls short -----

  /** The ids the delivery store hands out all begin with "del-", so every stop of every created
      delivery has the pairing key "del": all of them pair with each other. */
  lemma CreatedIdsShareKey(digits: string, suffix: string)
    requires '-' !in digits
    ensures PairKey("del-" + digits + suffix) == "del"
  {
    var s := "del-" + digits + suffix;
    assert s[3] == '-';
    var k := StatusStepper.FirstIndex(s, '-');
    assert s[0] == 'd' && s[1] == 'e' && s[2] == 'l';
    assert forall j :: 0 <= j < k ==> s[..k][j] == s[j];
    assert s[..3] == "del";
  }

  /** Consequently the dropoff of any delivery the store created is penalised while the pickup of
      any other created delivery is pending, whatever their creation times. */
  lemma CreatedDeliveriesPair(d1: Delivery, d2: Delivery, t1: nat, t2: nat, rem: seq<RouteStop>)
    requires d1.id == DeliveryStoreHook.NewDeliveryId(t1) && d2.id == DeliveryStoreHook.NewDeliveryId(t2)
    ensures PairKey(PickupOf(d1).id) == PairKey(DropoffOf(d2).id) == "del"
    ensures PickupOf(d1) in rem ==> Penalty(rem, DropoffOf(d2)) == 1000.0
  {
    assert '-' !in NatToString(t1) by {
      assert forall i :: 0 <= i < |NatToString(t1)| ==> IsDigit(NatToString(t1)[i]);
    }
    assert '-' !in NatToString(t2) by {
      assert forall i :: 0 <= i < |NatToString(t2)| ==> IsDigit(NatToString(t2)[i]);
    }
    assert PickupOf(d1).id == "del-" + NatToString(t1) + "-pickup";
    assert DropoffOf(d2).id == "del-" + NatToString(t2) + "-dropoff";
    CreatedIdsShareKey(NatToString(t1), "-pickup");
    CreatedIdsShareKey(NatToString(t2), "-dropoff");
    if PickupOf(d1) in rem {
      var j :| 0 <= j < |rem| && rem[j] == PickupOf(d1);
      assert PairKey(rem[j].id) == PairKey(DropoffOf(d2).id) && rem[j].kind == PickupStop;
    }
  }

  /** Distance along the latitude axis. */
  function LineDistance(p: Point, q: Point): (r: real)
    ensures r >= 0.0
  {
    if p.latitude <= q.latitude then q.latitude - p.latitude else p.latitude - q.latitude
  }

  /** Three stops on a line: a far pickup, its dropoff at the start, and another delivery's pickup. */
  function LineStops(): seq<RouteStop> {
    [ RouteStop("a-pickup", "", 3000.0, 0.0, PickupStop, 5, 1),
      RouteStop("a-dropoff", "", 0.0, 0.0, DropoffStop, 5, 1),
      RouteStop("b-pickup", "", 500.0, 0.0, PickupStop, 5, 1) ]
  }

  lemma LineStopsPenalties()
    ensures Penalty(LineStops(), LineStops()[1]) == 1000.0
    ensures Penalty(LineStops(), LineStops()[0]) == 0.0
    ensures Penalty(LineStops(), LineStops()[2]) == 0.0
  {
    var rem := LineStops();
    assert rem[0].id == ['a', '-'] + "pickup";
    assert rem[1].id == ['a', '-'] + "dropoff";
    KeyOfLetter('a', "pickup");
    KeyOfLetter('a', "dropoff");
    assert rem[0].kind == PickupStop && PairKey(rem[0].id) == PairKey(rem[1].id);
    assert PickupPending(rem, rem[1]);
  }

  /** A dropoff whose pickup is still pending can be taken first, ahead of a stop with a smaller
      weighted distance: candidates are compared with the best's plain distance, so a penalised
      dropoff still beats a far first candidate, and nothing later beats its plain distance of 0.
      On this line the scan from 0 takes "a-dropoff" (weighted 1000) over "b-pickup" (weighted 500)
      while "a-pickup" is still to be visited. */
  lemma DropoffCanPrecedeItsPickup()
    ensures var rem, pos := LineStops(), Point(0.0, 0.0);
            && NearestIndex(rem, pos, LineDistance) == 1
            && rem[1].kind == DropoffStop && PickupPending(rem, rem[1])
            && Weighted(rem, pos, LineDistance, rem[2]) < Weighted(rem, pos, LineDistance, rem[1])
            && GreedyOrder(rem, pos, LineDistance)[0].id == "a-dropoff"
  {
    var rem, pos := LineStops(), Point(0.0, 0.0);
    LineStopsPenalties();
    assert ScanFrom(rem, pos, LineDistance, 1) == Best(0, 3000.0);
    assert ScanFrom(rem, pos, LineDistance, 2) == Best(1, 0.0);
    assert ScanFrom(rem, pos, LineDistance, 3) == Best(1, 0.0);
  }

  /** The key of a one-letter id prefix. */
  lemma KeyOfLetter(c: char, kind: string)
    requires c != '-' && '-' !in kind
    ensures PairKey([c, '-'] + kind) == [c]
  {
    var s := [c, '-'] + kind;
    assert s[1] == '-';
    var k := StatusStepper.FirstIndex(s, '-');
    assert k == 1;
    assert s[..1] == [c];
  }

  // ----- the component's selection state -----

  /** The selection after toggling `id`: `id` flips membership, nothing else changes. */
  function Toggled(selected: set<string>, id: string): (r: set<string>)
    ensures id in r <==> id !in selected
    ensures forall x :: x != id ==> (x in r <==> x in selected)
  {
    if id in selected then selected - {id} else selected + {id}
  }

  /** Toggling twice restores the selection. */
  lemma ToggleTwice(selected: set<string>, id: string)
    ensures Toggled(Toggled(selected, id), id) == selected
  {
  }

  class RouteOptimizerPanel {
    var selectedStops: set<string>
    var optimizedRoute: Option<OptimizedRoute>
    var isOptimizing: bool

    constructor()
      ensures selectedStops == {} && optimizedRoute == None && !isOptimizing
    {
      selectedStops := {};
      optimizedRoute := None;
      isOptimizing := false;
    }

    /** toggleStopSelection. */
    method ToggleStopSelection(deliveryId: string)
      modifies this
      ensures selectedStops == Toggled(old(selectedStops), deliveryId)
      ensures optimizedRoute == old(optimizedRoute) && isOptimizing == old(isOptimizing)
    {
      selectedStops := Toggled(selectedStops, deliveryId);
    }

    /** optimizeRoute on the current selection; the route is stored and also handed to the
        `onOptimize` callback, which is the returned value here. */
    method OptimizeRoute(deliveries: seq<Delivery>, current: Option<Point>, dist: (Point, Point) -> real)
      returns (route: OptimizedRoute)
      modifies this
      ensures optimizedRoute == Some(route) && !isOptimizing
      ensures selectedStops == old(selectedStops)
      ensures var stops := StopsFor(deliveries, selectedStops);
              var start := StartPoint(current, stops);
              route.stops == GreedyOrder(stops, start, dist)
              && multiset(route.stops) == multiset(stops)
              && route.totalDistance == PathLength(start, route.stops, dist)
              && route == Summary(route.stops, route.totalDistance, PathLength(start, stops, dist))
    {
      isOptimizing := true;
      route := ComputeRoute(deliveries, selectedStops, current, dist);
      optimizedRoute := Some(route);
      isOptimizing := false;
    }
  }
}
