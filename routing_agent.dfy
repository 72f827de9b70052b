/**
 * The routing agent: asks the route provider about every hospital it is given,
 * keeps the ones whose lookup succeeded (each copied with its `route_info`), sorts
 * them stably by travel time and returns the first, or `None` when none is left.
 * The hospitals may be full table records or `id`/`name`/`coords` projections,
 * so the agent is generic in the record type and takes its `coords` accessor.
 */
module RoutingAgent {
  import opened Wrappers
  import opened Records
  import opened Messages
  import opened StableSort

  const DID := "did:zynd:agent_routing_def456"

  function DurationKey<H>(e: Evaluated<H>): SortKey {
    SortKey(e.routeInfo.durationMin, 0.0)
  }

  /** The list the loop accumulates: the reachable hospitals with their route info, in input order. */
  function Evaluate<H>(location: Origin, hospitals: seq<H>, coordsOf: H -> Coords, route: RouteProvider)
    : (r: seq<Evaluated<H>>)
    ensures |r| <= |hospitals|
    ensures forall k :: 0 <= k < |r| ==> route(location, coordsOf(r[k].hospital)) == Some(r[k].routeInfo)
  {
    if hospitals == [] then []
    else
      var rest := Evaluate(location, hospitals[..|hospitals| - 1], coordsOf, route);
      var h := hospitals[|hospitals| - 1];
      var info := route(location, coordsOf(h));
      if info.Some? then rest + [Evaluated(h, info.value)] else rest
  }

  /** The agent's answer: the head of the evaluated list sorted by duration, if any. */
  function BestHospital<H>(location: Origin, hospitals: seq<H>, coordsOf: H -> Coords, route: RouteProvider)
    : (r: Option<Evaluated<H>>)
    ensures r.None? <==> Evaluate(location, hospitals, coordsOf, route) == []
    ensures r.Some? ==> route(location, coordsOf(r.value.hospital)) == Some(r.value.routeInfo)
  {
    var ev := Evaluate(location, hospitals, coordsOf, route);
    var ranked := Sort(ev, DurationKey);
    SortPermutes(ev, DurationKey);
    assert |ranked| == |multiset(ranked)| == |ev|;
    assert ranked != [] ==> ranked[0] in multiset(ev);
    if ranked == [] then None else Some(ranked[0])
  }

  predicate Reachable<H>(location: Origin, h: H, coordsOf: H -> Coords, route: RouteProvider) {
    route(location, coordsOf(h)).Some?
  }

  /**
   * Adding one hospital at the end: it becomes the answer exactly when it is
   * reachable and strictly faster than the answer so far (a tie keeps the earlier one).
   */
  lemma {:induction false} BestHospitalStep<H>(location: Origin, hospitals: seq<H>, h: H, coordsOf: H -> Coords, route: RouteProvider)
    ensures BestHospital(location, hospitals + [h], coordsOf, route) ==
      match route(location, coordsOf(h))
      case None => BestHospital(location, hospitals, coordsOf, route)
      case Some(info) =>
        var before := BestHospital(location, hospitals, coordsOf, route);
        if before.None? || info.durationMin < before.value.routeInfo.durationMin
        then Some(Evaluated(h, info))
        else before
  {
    var all := hospitals + [h];
    assert all[..|all| - 1] == hospitals;
    var ev := Evaluate(location, hospitals, coordsOf, route);
    var ev' := Evaluate(location, all, coordsOf, route);
    if ev' != [] {
      SortHead(ev', DurationKey);
    }
    if ev != [] {
      SortHead(ev, DurationKey);
    }
    if route(location, coordsOf(h)).Some? && ev != [] {
      assert ev'[..|ev'| - 1] == ev;
    }
  }

  /**
   * What the agent promises: `None` exactly when no hospital is reachable (an empty
   * input included); otherwise the copy of the input hospital at some index `i`
   * with its own lookup result, whose duration is no larger than that of any
   * reachable hospital and strictly smaller than that of every reachable hospital
   * before it (the earliest of the fastest).
   */
  lemma {:induction false} BestHospitalSpec<H>(location: Origin, hospitals: seq<H>, coordsOf: H -> Coords, route: RouteProvider)
    ensures var best := BestHospital(location, hospitals, coordsOf, route);
      && (best.None? <==> forall j :: 0 <= j < |hospitals| ==> !Reachable(location, hospitals[j], coordsOf, route))
      && (best.Some? ==> exists i :: (0 <= i < |hospitals|
            && Reachable(location, hospitals[i], coordsOf, route)
            && best.value == Evaluated(hospitals[i], route(location, coordsOf(hospitals[i])).value)
            && (forall j :: 0 <= j < |hospitals| && Reachable(location, hospitals[j], coordsOf, route) ==>
                  best.value.routeInfo.durationMin <= route(location, coordsOf(hospitals[j])).value.durationMin)
            && (forall j :: 0 <= j < i && Reachable(location, hospitals[j], coordsOf, route) ==>
                  best.value.routeInfo.durationMin < route(location, coordsOf(hospitals[j])).value.durationMin)))
  {
    if hospitals != [] {
      var p, h := hospitals[..|hospitals| - 1], hospitals[|hospitals| - 1];
      assert hospitals == p + [h];
      BestHospitalSpec(location, p, coordsOf, route);
      BestHospitalStep(location, p, h, coordsOf, route);
      var before := BestHospital(location, p, coordsOf, route);
      var best := BestHospital(location, hospitals, coordsOf, route);
      if best.Some? {
        if best == before {
          var i :| 0 <= i < |p|
            && Reachable(location, p[i], coordsOf, route)
            && before.value == Evaluated(p[i], route(location, coordsOf(p[i])).value)
            && (forall j :: 0 <= j < |p| && Reachable(location, p[j], coordsOf, route) ==>
                  before.value.routeInfo.durationMin <= route(location, coordsOf(p[j])).value.durationMin)
            && (forall j :: 0 <= j < i && Reachable(location, p[j], coordsOf, route) ==>
                  before.value.routeInfo.durationMin < route(location, coordsOf(p[j])).value.durationMin);
          assert hospitals[i] == p[i];
        } else {
          var last := |hospitals| - 1;
          assert hospitals[last] == h;
          forall j | 0 <= j < last && Reachable(location, hospitals[j], coordsOf, route)
            ensures best.value.routeInfo.durationMin < route(location, coordsOf(hospitals[j])).value.durationMin
          {
            assert hospitals[j] == p[j];
          }
        }
      } else {
        forall j | 0 <= j < |hospitals| ensures !Reachable(location, hospitals[j], coordsOf, route) {
          if j < |p| {
            assert hospitals[j] == p[j];
          }
        }
      }
    }
  }

  /** Every evaluated entry is a reachable input hospital paired with its own lookup result. */
  lemma {:induction false} EvaluatedFromInput<H>(location: Origin, hospitals: seq<H>, coordsOf: H -> Coords, route: RouteProvider, e: Evaluated<H>)
    requires e in Evaluate(location, hospitals, coordsOf, route)
    ensures e.hospital in hospitals && route(location, coordsOf(e.hospital)) == Some(e.routeInfo)
  {
    var p := hospitals[..|hospitals| - 1];
    if e in Evaluate(location, p, coordsOf, route) {
      EvaluatedFromInput(location, p, coordsOf, route, e);
    }
  }

  /** The answer, when there is one, is a reachable input hospital carrying its own route info. */
  lemma BestFromInput<H>(location: Origin, hospitals: seq<H>, coordsOf: H -> Coords, route: RouteProvider)
    requires BestHospital(location, hospitals, coordsOf, route).Some?
    ensures var e := BestHospital(location, hospitals, coordsOf, route).value;
      e.hospital in hospitals && route(location, coordsOf(e.hospital)) == Some(e.routeInfo)
  {
    var ev := Evaluate(location, hospitals, coordsOf, route);
    var ranked := Sort(ev, DurationKey);
    SortPermutes(ev, DurationKey);
    assert ranked[0] in multiset(ranked);
    EvaluatedFromInput(location, hospitals, coordsOf, route, ranked[0]);
  }

  /** `find_best_hospital`: one pass appending reachable copies, an in-place stable sort by duration, the head. */
  method FindBestHospital<H>(location: Origin, hospitals: seq<H>, coordsOf: H -> Coords, route: RouteProvider)
    returns (best: Option<Evaluated<H>>)
    ensures best == BestHospital(location, hospitals, coordsOf, route)
    ensures best.None? <==> forall j :: 0 <= j < |hospitals| ==> !Reachable(location, hospitals[j], coordsOf, route)
    ensures best.Some? ==>
              (best.value.hospital in hospitals
               && route(location, coordsOf(best.value.hospital)) == Some(best.value.routeInfo))
  {
    var evaluated: seq<Evaluated<H>> := [];
    var i := 0;
    while i < |hospitals|
      invariant 0 <= i <= |hospitals|
      invariant evaluated == Evaluate(location, hospitals[..i], coordsOf, route)
    {
      assert hospitals[..i + 1][..i] == hospitals[..i];
      var info := route(location, coordsOf(hospitals[i]));
      if info.Some? {
        evaluated := evaluated + [Evaluated(hospitals[i], info.value)];
      }
      i := i + 1;
    }
    assert hospitals[..|hospitals|] == hospitals;
    var ranked := SortInPlace(evaluated, DurationKey);
    if ranked == [] {
      best := None;
    } else {
      best := Some(ranked[0]);
    }
    BestHospitalSpec(location, hospitals, coordsOf, route);
    if best.Some? {
      BestFromInput(location, hospitals, coordsOf, route);
    }
  }

  function TargetCoords(t: RouteTarget): Coords {
    t.coords
  }

  /** `execute`: unpacks `emergency_location` and `hospitals` and forwards them unchanged. */
  function Execute(route: RouteProvider, payload: Payload): (r: Outcome)
    ensures payload.RoutingCall? ==>
      r == Ok(Routed(BestHospital(payload.emergencyLocation, payload.hospitals, TargetCoords, route)))
    ensures !payload.RoutingCall? ==> r == Err(KeyError("emergency_location"))
  {
    match payload
    case RoutingCall(location, hospitals) => Ok(Routed(BestHospital(location, hospitals, TargetCoords, route)))
    case _ => Err(KeyError("emergency_location"))
  }

  /** The handler registered under `DID`. */
  function Handler(route: RouteProvider): Messages.Handler {
    payload => Awaitable(Execute(route, payload))
  }
}
