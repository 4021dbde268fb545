/**
 * The transit backend function: the status gate, and the flattening of the
 * directions reply into buses, one per TRANSIT step of each route's first leg.
 */
module TransitRoutes {
  import opened Wrappers
  import opened Types
  import opened Text
  import opened Seqs
  import opened Provider

  datatype Vehicle = Vehicle(vehicleType: string, name: Option<string>)
  datatype Line = Line(shortName: Option<string>, name: Option<string>, vehicle: Vehicle)
  datatype TransitDetails = TransitDetails(
    line: Line,
    departureStop: string,
    arrivalStop: string,
    departureTime: string,
    arrivalTime: string)
  datatype Step = Step(travelMode: string, transit: Option<TransitDetails>)
  datatype Leg = Leg(steps: seq<Step>)
  datatype Route = Route(legs: seq<Leg>)
  datatype DirectionsReply = DirectionsReply(status: string, routes: seq<Route>)

  const TRANSIT := "TRANSIT"
  const LOCAL_BUS := "Local Bus"

  /**
   * The fare of the bus for route `i`, step `j`. The provider gives none and the
   * function draws `Math.round(Math.random() * 50 + 20)`, so the model takes the
   * draw as a parameter that stays within what that expression can produce.
   */
  type FareFn = (nat, nat) -> int

  ghost predicate FaresInRange(fare: FareFn) {
    forall i, j :: 20 <= fare(i, j) <= 70
  }

  /** Express only for a BUS whose vehicle name mentions "Express"; Non-AC otherwise. */
  function BusTypeOf(v: Vehicle): (t: BusType)
    ensures t == Express || t == NonAC
    ensures t == Express <==> v.vehicleType == "BUS" && v.name.Some? && Contains(v.name.value, "Express")
  {
    if v.vehicleType == "BUS" && v.name.Some? && Contains(v.name.value, "Express") then Express else NonAC
  }

  /** The synthesised id `"<routeIndex>-<stepIndex>"`. */
  function BusId(routeIndex: nat, stepIndex: nat): string {
    Decimal(routeIndex) + "-" + Decimal(stepIndex)
  }

  /** Reads a bus id back into its route and step indices. */
  function ParseBusId(id: string): Option<(nat, nat)> {
    var dash := IndexOf(id, '-');
    if dash < |id| && AllDigits(id[..dash]) && AllDigits(id[dash + 1..])
    then Some((DecimalValue(id[..dash]), DecimalValue(id[dash + 1..])))
    else None
  }

  /** Parsing an id gives back the indices it was built from. */
  lemma ParseBusIdRoundTrip(routeIndex: nat, stepIndex: nat)
    ensures ParseBusId(BusId(routeIndex, stepIndex)) == Some((routeIndex, stepIndex))
  {
    var x, y := Decimal(routeIndex), Decimal(stepIndex);
    var id := BusId(routeIndex, stepIndex);
    assert id[|x|] == '-';
    assert forall k :: 0 <= k < |x| ==> id[k] == x[k] && IsDigit(x[k]);
    assert IndexOf(id, '-') == |x|;
    assert id[..|x|] == x;
    assert id[|x| + 1..] == y;
    DecimalRoundTrip(routeIndex);
    DecimalRoundTrip(stepIndex);
  }

  /** Different index pairs give different ids. */
  lemma BusIdInjective(a: nat, b: nat, c: nat, d: nat)
    requires BusId(a, b) == BusId(c, d)
    ensures a == c && b == d
  {
    ParseBusIdRoundTrip(a, b);
    ParseBusIdRoundTrip(c, d);
  }

  predicate StepReadable(s: Step) {
    s.travelMode != TRANSIT || s.transit.Some?
  }

  predicate StepsReadable(steps: seq<Step>) {
    forall k :: 0 <= k < |steps| ==> StepReadable(steps[k])
  }

  /** `route.legs[0]` exists and every TRANSIT step of it has `transit_details`. */
  predicate RouteReadable(r: Route) {
    |r.legs| > 0 && StepsReadable(r.legs[0].steps)
  }

  /** The flattening reads nothing missing; otherwise the runtime throws. */
  predicate Readable(routes: seq<Route>) {
    forall i :: 0 <= i < |routes| ==> RouteReadable(routes[i])
  }

  /** The number of TRANSIT steps. */
  function TransitCount(steps: seq<Step>): nat {
    if |steps| == 0 then 0 else (if steps[0].travelMode == TRANSIT then 1 else 0) + TransitCount(steps[1..])
  }

  /** `steps.filter(step => step.travel_mode === 'TRANSIT')`. */
  function TransitSteps(steps: seq<Step>): (r: seq<Step>)
    ensures |r| == TransitCount(steps)
    ensures forall k :: 0 <= k < |r| ==> r[k].travelMode == TRANSIT && r[k] in steps
    ensures StepsReadable(steps) ==> forall k :: 0 <= k < |r| ==> r[k].transit.Some?
    decreases |steps|
  {
    if |steps| == 0 then []
    else
      assert StepsReadable(steps) ==> StepsReadable(steps[1..]) by {
        if StepsReadable(steps) {
          forall k | 0 <= k < |steps[1..]|
            ensures StepReadable(steps[1..][k])
          {
            assert steps[1..][k] == steps[k + 1];
          }
        }
      }
      assert forall k :: 1 <= k < |steps| ==> steps[k] == steps[1..][k - 1];
      if steps[0].travelMode == TRANSIT then [steps[0]] + TransitSteps(steps[1..])
      else TransitSteps(steps[1..])
  }

  /** The filter keeps every TRANSIT step. */
  lemma {:induction false} TransitStepsComplete(steps: seq<Step>, k: nat)
    requires k < |steps| && steps[k].travelMode == TRANSIT
    ensures steps[k] in TransitSteps(steps)
    decreases |steps|
  {
    if k > 0 {
      TransitStepsComplete(steps[1..], k - 1);
      assert steps[1..][k - 1] == steps[k];
    }
  }

  /** One step is kept exactly when it is a TRANSIT step. */
  lemma TransitStepsSingle(s: Step)
    ensures TransitSteps([s]) == if s.travelMode == TRANSIT then [s] else []
  {
    assert [s][1..] == [];
  }

  /** The filter distributes over concatenation: kept steps stay in leg order, each once. */
  lemma {:induction false} TransitStepsAppend(a: seq<Step>, b: seq<Step>)
    ensures TransitSteps(a + b) == TransitSteps(a) + TransitSteps(b)
    decreases |a|
  {
    if |a| == 0 {
      AppendEmpty(b);
      assert a + b == b;
    } else {
      AppendTail(a, b);
      TransitStepsAppend(a[1..], b);
      TransitStepsCons(a);
      TransitStepsCons(a + b);
      var head := if a[0].travelMode == TRANSIT then [a[0]] else [];
      AppendAssoc(head, TransitSteps(a[1..]), TransitSteps(b));
    }
  }

  /** The filter of a non-empty leg: its first step if TRANSIT, then the filter of the rest. */
  lemma TransitStepsCons(s: seq<Step>)
    requires |s| > 0
    ensures TransitSteps(s) == (if s[0].travelMode == TRANSIT then [s[0]] else []) + TransitSteps(s[1..])
  {
  }

  /** The number of buses the routes from index `from` on yield. */
  function TotalCount(routes: seq<Route>, from: nat): nat
    requires from <= |routes|
    requires Readable(routes)
    decreases |routes| - from
  {
    if from == |routes| then 0 else TransitCount(routes[from].legs[0].steps) + TotalCount(routes, from + 1)
  }

  /** A TRANSIT step found at route index `route`, counted `step`-th among that route's TRANSIT steps. */
  datatype Hit = Hit(route: nat, step: nat, details: TransitDetails)

  /** Route-major, then step order. */
  predicate Before(a: Hit, b: Hit) {
    a.route < b.route || (a.route == b.route && a.step < b.step)
  }

  /** The TRANSIT steps of one leg as hits, numbered from `next`: hit `k` is the `k`-th TRANSIT step. */
  function StepHits(route: nat, steps: seq<Step>, next: nat): (r: seq<Hit>)
    requires StepsReadable(steps)
    ensures |r| == TransitCount(steps)
    ensures forall k :: 0 <= k < |r| ==> r[k].route == route && r[k].step == next + k
    ensures forall k :: 0 <= k < |r| ==> r[k].details == TransitSteps(steps)[k].transit.value
    ensures forall k :: 0 <= k < |r| ==> Step(TRANSIT, Some(r[k].details)) in steps
    decreases |steps|
  {
    if |steps| == 0 then []
    else
      assert StepsReadable(steps[1..]) by {
        forall k | 0 <= k < |steps[1..]|
          ensures StepReadable(steps[1..][k])
        {
          assert steps[1..][k] == steps[k + 1];
        }
      }
      var s := steps[0];
      if s.travelMode == TRANSIT then
        assert s == Step(TRANSIT, Some(s.transit.value));
        [Hit(route, next, s.transit.value)] + StepHits(route, steps[1..], next + 1)
      else StepHits(route, steps[1..], next)
  }

  /** `routes.flatMap(...)` from route index `from` on. */
  function RouteHits(routes: seq<Route>, from: nat): (r: seq<Hit>)
    requires from <= |routes|
    requires Readable(routes)
    ensures |r| == TotalCount(routes, from)
    ensures forall k :: 0 <= k < |r| ==> from <= r[k].route < |routes|
    ensures forall k :: 0 <= k < |r| ==> Step(TRANSIT, Some(r[k].details)) in routes[r[k].route].legs[0].steps
    ensures forall a, b :: 0 <= a < b < |r| ==> Before(r[a], r[b])
    decreases |routes| - from
  {
    if from == |routes| then []
    else
      var here := StepHits(from, routes[from].legs[0].steps, 0);
      var rest := RouteHits(routes, from + 1);
      ConcatHits(routes, from, here, rest);
      here + rest
  }

  /** The hits of route `from` followed by those of later routes keep the `RouteHits` guarantees. */
  lemma ConcatHits(routes: seq<Route>, from: nat, here: seq<Hit>, rest: seq<Hit>)
    requires Readable(routes) && from < |routes|
    requires forall k :: 0 <= k < |here| ==> here[k].route == from && here[k].step == 0 + k
    requires forall k :: 0 <= k < |here| ==> Step(TRANSIT, Some(here[k].details)) in routes[from].legs[0].steps
    requires forall k :: 0 <= k < |rest| ==> from + 1 <= rest[k].route < |routes|
    requires forall k :: 0 <= k < |rest| ==> Step(TRANSIT, Some(rest[k].details)) in routes[rest[k].route].legs[0].steps
    requires forall a, b :: 0 <= a < b < |rest| ==> Before(rest[a], rest[b])
    ensures var r := here + rest;
            && (forall k :: 0 <= k < |r| ==> from <= r[k].route < |routes|)
            && (forall k :: 0 <= k < |r| ==> Step(TRANSIT, Some(r[k].details)) in routes[r[k].route].legs[0].steps)
            && (forall a, b :: 0 <= a < b < |r| ==> Before(r[a], r[b]))
  {
    var r := here + rest;
    assert forall k :: 0 <= k < |here| ==> r[k] == here[k];
    assert forall k :: |here| <= k < |r| ==> r[k] == rest[k - |here|];
  }

  /** The bus record built for one TRANSIT step. */
  function MakeBus(h: Hit, fare: FareFn): (b: Bus)
    ensures b.id == BusId(h.route, h.step)
    ensures Truthy(h.details.line.shortName) ==> b.number == h.details.line.shortName.value
    ensures !Truthy(h.details.line.shortName) ==> b.number == h.details.line.name.GetOr("")
    ensures Truthy(h.details.line.name) ==> b.name == h.details.line.name.value
    ensures !Truthy(h.details.line.name) ==> b.name == LOCAL_BUS
    ensures b.busType == BusTypeOf(h.details.line.vehicle)
    ensures b.departureTime == h.details.departureTime && b.arrivalTime == h.details.arrivalTime
    ensures b.fare == fare(h.route, h.step)
    ensures b.route == h.details.departureStop + " - " + h.details.arrivalStop
  {
    var line := h.details.line;
    Bus(
      id := BusId(h.route, h.step),
      number := if Truthy(line.shortName) then line.shortName.value else line.name.GetOr(""),
      name := OrElse(line.name, LOCAL_BUS),
      busType := BusTypeOf(line.vehicle),
      departureTime := h.details.departureTime,
      arrivalTime := h.details.arrivalTime,
      fare := fare(h.route, h.step),
      route := h.details.departureStop + " - " + h.details.arrivalStop)
  }

  function Buses(routes: seq<Route>, fare: FareFn): (r: seq<Bus>)
    requires Readable(routes)
    ensures |r| == TotalCount(routes, 0)
    ensures forall k :: 0 <= k < |r| ==> r[k] == MakeBus(RouteHits(routes, 0)[k], fare)
  {
    var hits := RouteHits(routes, 0);
    seq(|hits|, k requires 0 <= k < |hits| => MakeBus(hits[k], fare))
  }

  /** The hit for the `j`-th TRANSIT step of route `i`'s first leg. */
  function NthHit(routes: seq<Route>, i: nat, j: nat): Hit
    requires Readable(routes) && i < |routes|
    requires j < TransitCount(routes[i].legs[0].steps)
  {
    Hit(i, j, TransitSteps(routes[i].legs[0].steps)[j].transit.value)
  }

  /** Where the hits of route `i` start among the hits of routes `from` on: after every earlier route's. */
  function Offset(routes: seq<Route>, from: nat, i: nat): int
    requires Readable(routes) && from <= i < |routes|
  {
    TotalCount(routes, from) - TotalCount(routes, i)
  }

  /**
   * Hit `j` of route `i` is the `j`-th TRANSIT step of that route's first leg,
   * and it sits at position `at`, after the hits of every earlier route:
   * routes in order, then steps in order.
   */
  lemma {:induction false} RouteHitsAt(routes: seq<Route>, from: nat, i: nat, j: nat, at: int)
    requires Readable(routes) && from <= i < |routes|
    requires j < TransitCount(routes[i].legs[0].steps)
    requires at == Offset(routes, from, i) + j
    ensures 0 <= at < |RouteHits(routes, from)| && RouteHits(routes, from)[at] == NthHit(routes, i, j)
    decreases i - from
  {
    if from == i {
      HitsHead(routes, from, j);
    } else {
      OffsetCons(routes, from, i);
      var m := at - TransitCount(routes[from].legs[0].steps);
      RouteHitsAt(routes, from + 1, i, j, m);
      HitsShift(routes, from, at, m);
    }
  }

  /** The first hits of routes `from` on are those of route `from`. */
  lemma HitsHead(routes: seq<Route>, from: nat, j: nat)
    requires Readable(routes) && from < |routes|
    requires j < TransitCount(routes[from].legs[0].steps)
    ensures 0 <= Offset(routes, from, from) + j < |RouteHits(routes, from)|
    ensures RouteHits(routes, from)[Offset(routes, from, from) + j] == NthHit(routes, from, j)
  {
    var here := StepHits(from, routes[from].legs[0].steps, 0);
    var rest := RouteHits(routes, from + 1);
    assert Offset(routes, from, from) == 0;
    IndexLeft(RouteHits(routes, from), here, rest, j);
  }

  /** Hit `m` of routes `from + 1` on is hit `at` of routes `from` on, `at` counting route `from`'s hits too. */
  lemma HitsShift(routes: seq<Route>, from: nat, at: int, m: int)
    requires Readable(routes) && from < |routes|
    requires 0 <= m < |RouteHits(routes, from + 1)|
    requires at == TransitCount(routes[from].legs[0].steps) + m
    ensures 0 <= at < |RouteHits(routes, from)| && RouteHits(routes, from)[at] == RouteHits(routes, from + 1)[m]
  {
    RouteHitsCons(routes, from);
    IndexRight(RouteHits(routes, from), StepHits(from, routes[from].legs[0].steps, 0), RouteHits(routes, from + 1), at, m);
  }

  /** The hits of routes `from` on: route `from`'s, then the later routes'. */
  lemma RouteHitsCons(routes: seq<Route>, from: nat)
    requires Readable(routes) && from < |routes|
    ensures RouteHits(routes, from) == StepHits(from, routes[from].legs[0].steps, 0) + RouteHits(routes, from + 1)
  {
  }

  /** Route `i`'s hits start after route `from`'s TRANSIT steps and the offset from `from + 1`. */
  lemma OffsetCons(routes: seq<Route>, from: nat, i: nat)
    requires Readable(routes) && from < i < |routes|
    ensures Offset(routes, from, i) == TransitCount(routes[from].legs[0].steps) + Offset(routes, from + 1, i)
  {
  }

  /** Bus `j` of route `i`, at position `at`, is built from the `j`-th TRANSIT step of the route's first leg. */
  lemma BusesAt(routes: seq<Route>, fare: FareFn, i: nat, j: nat, at: int)
    requires Readable(routes) && i < |routes|
    requires j < TransitCount(routes[i].legs[0].steps)
    requires at == Offset(routes, 0, i) + j
    ensures 0 <= at < |Buses(routes, fare)|
    ensures Buses(routes, fare)[at] == MakeBus(NthHit(routes, i, j), fare)
    ensures Buses(routes, fare)[at].id == BusId(i, j)
  {
    RouteHitsAt(routes, 0, i, j, at);
    assert Buses(routes, fare)[at] == MakeBus(RouteHits(routes, 0)[at], fare);
  }

  /**
   * The whole function: ZERO_RESULTS is an empty list, any other status but
   * OK is an error, and a readable OK reply is flattened.
   */
  function FetchTransit(reply: DirectionsReply, fare: FareFn): (r: Result<seq<Bus>>)
    requires FaresInRange(fare)
    ensures reply.status == ZERO_RESULTS ==> r == Ok([])
    ensures !ListStatusAccepted(reply.status) ==> r == Err("Google API error: " + reply.status)
    ensures reply.status == OK && !Readable(reply.routes) ==> r == Err(TYPE_ERROR)
    ensures reply.status == OK && Readable(reply.routes) ==> r == Ok(Buses(reply.routes, fare))
    ensures reply.status == OK && Readable(reply.routes) ==> r.Ok? && |r.value| == TotalCount(reply.routes, 0)
    ensures r.Ok? ==> forall k :: 0 <= k < |r.value| ==>
              r.value[k].busType in {Express, NonAC} && 20 <= r.value[k].fare <= 70
  {
    if !ListStatusAccepted(reply.status) then Err("Google API error: " + reply.status)
    else if reply.status == ZERO_RESULTS then Ok([])
    else if !Readable(reply.routes) then Err(TYPE_ERROR)
    else Ok(Buses(reply.routes, fare))
  }

  /** No two buses of one response share an id. */
  lemma TransitIdsDistinct(reply: DirectionsReply, fare: FareFn)
    requires FaresInRange(fare)
    requires FetchTransit(reply, fare).Ok?
    ensures var buses := FetchTransit(reply, fare).value;
            forall a, b :: 0 <= a < b < |buses| ==> buses[a].id != buses[b].id
  {
    var buses := FetchTransit(reply, fare).value;
    if reply.status == OK {
      var hits := RouteHits(reply.routes, 0);
      forall a, b | 0 <= a < b < |buses|
        ensures buses[a].id != buses[b].id
      {
        assert Before(hits[a], hits[b]);
        if buses[a].id == buses[b].id {
          BusIdInjective(hits[a].route, hits[a].step, hits[b].route, hits[b].step);
        }
      }
    }
  }

  /** The response body's `buses`: the list on success, `[]` in the error body. */
  function ResponseBuses(r: Result<seq<Bus>>): (buses: seq<Bus>)
    ensures r.Err? ==> buses == []
    ensures r.Ok? ==> buses == r.value
  {
    if r.Ok? then r.value else []
  }
}
