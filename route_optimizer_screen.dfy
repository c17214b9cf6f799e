/** The route-optimizer screen (app/route-optimizer.tsx): which deliveries it hands to the sequencer
    and where the tour starts. */
module RouteOptimizerScreen {
  import opened Types
  import RouteOptimizer

  predicate Optimizable(d: Delivery) {
    d.status == Pending || d.status == Accepted
  }

  /** `deliveries.filter(d => d.status === 'pending' || d.status === 'accepted')`. */
  function OptimizableDeliveries(ds: seq<Delivery>): (r: seq<Delivery>)
    ensures |r| <= |ds|
    ensures forall d :: d in r <==> d in ds && Optimizable(d)
  {
    if ds == [] then []
    else (if Optimizable(ds[0]) then [ds[0]] else []) + OptimizableDeliveries(ds[1..])
  }

  /** The filter keeps relative order: it distributes over concatenation. */
  lemma {:induction false} OptimizableConcat(a: seq<Delivery>, b: seq<Delivery>)
    ensures OptimizableDeliveries(a + b) == OptimizableDeliveries(a) + OptimizableDeliveries(b)
  {
    if a == [] {
      assert a + b == b;
    } else {
      assert (a + b)[1..] == a[1..] + b;
      OptimizableConcat(a[1..], b);
    }
  }

  /** `currentLocation || undefined`: a missing location becomes an absent start point. */
  function StartLocation(current: Option<Location>): (r: Option<RouteOptimizer.Point>)
    ensures r.None? <==> current.None?
    ensures r.Some? ==> r.value == RouteOptimizer.Point(current.value.latitude, current.value.longitude)
  {
    if current.Some? then Some(RouteOptimizer.Point(current.value.latitude, current.value.longitude)) else None
  }

  /** With nothing selected the sequencer gets a pickup and a dropoff for every pending or accepted
      delivery, and without a current location the tour starts at the first of them. */
  lemma ScreenStops(ds: seq<Delivery>)
    ensures var stops := RouteOptimizer.StopsFor(OptimizableDeliveries(ds), {});
            |stops| == 2 * |OptimizableDeliveries(ds)|
            && (stops != [] ==> RouteOptimizer.StartPoint(StartLocation(None), stops) == RouteOptimizer.Position(stops[0]))
  {
    RouteOptimizer.PairsAt(OptimizableDeliveries(ds));
  }

  /** The screen's optimise action: the filtered deliveries and the current location go to the
      sequencer with the panel's selection. */
  method Optimize(panel: RouteOptimizer.RouteOptimizerPanel, deliveries: seq<Delivery>, current: Option<Location>,
                  dist: (RouteOptimizer.Point, RouteOptimizer.Point) -> real)
    returns (route: RouteOptimizer.OptimizedRoute)
    modifies panel
    ensures panel.selectedStops == old(panel.selectedStops)
    ensures var stops := RouteOptimizer.StopsFor(OptimizableDeliveries(deliveries), panel.selectedStops);
            var start := RouteOptimizer.StartPoint(StartLocation(current), stops);
            route.stops == RouteOptimizer.GreedyOrder(stops, start, dist)
            && multiset(route.stops) == multiset(stops)
            && route.totalDistance == RouteOptimizer.PathLength(start, route.stops, dist)
            && route == RouteOptimizer.Summary(route.stops, route.totalDistance,
                                               RouteOptimizer.PathLength(start, stops, dist))
    ensures panel.optimizedRoute == Some(route)
  {
    route := panel.OptimizeRoute(OptimizableDeliveries(deliveries), StartLocation(current), dist);
  }
}
