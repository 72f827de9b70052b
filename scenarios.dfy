/**
 * What the fixed hospital table means for the candidate ranking and for the
 * hospital the emergency endpoint assigns.
 */
module Scenarios {
  import opened Wrappers
  import opened Records
  import opened Database
  import opened HospitalAgent
  import RoutingAgent
  import opened StableSort
  import Routes
  import Orchestrator

  /** Whatever the roads, City General (no free ICU bed) is never a candidate for a critical case. */
  lemma RedExcludesCityGeneral(location: Origin, required: seq<string>, route: RouteProvider, c: Candidate)
    requires c in SelectCandidates("RED", location, required, MOCK_HOSPITALS, route)
    ensures c.hospital.id != "city_general"
  {
    SelectedAreSuitable("RED", location, required, MOCK_HOSPITALS, route, c);
    SuitableMembers("RED", location, required, MOCK_HOSPITALS, route, c);
  }

  /** Two severities whose bed tests agree on every record select the same hospitals. */
  lemma {:induction false} SameBedTest(s1: string, s2: string, location: Origin, required: seq<string>,
                                       db: seq<Hospital>, route: RouteProvider)
    requires forall i :: 0 <= i < |db| ==> (BedsAvailable(s1, db[i]) <==> BedsAvailable(s2, db[i]))
    ensures Suitable(s1, location, required, db, route) == Suitable(s2, location, required, db, route)
  {
    if db != [] {
      SameBedTest(s1, s2, location, required, db[..|db| - 1], route);
    }
  }

  /** Every record has an emergency bed free, so an urgent case is ranked as if no bed test applied. */
  lemma YellowTestExcludesNone(location: Origin, required: seq<string>, route: RouteProvider)
    ensures SelectCandidates("YELLOW", location, required, MOCK_HOSPITALS, route)
         == SelectCandidates("GREEN", location, required, MOCK_HOSPITALS, route)
  {
    SameBedTest("YELLOW", "GREEN", location, required, MOCK_HOSPITALS, route);
  }

  /** City General lists no cardiologist. */
  lemma CityGeneralLacksCardiologist()
    ensures !HasSpecialists(["cardiologist"], MOCK_HOSPITALS[2])
  {
    var required: seq<string> := ["cardiologist"];
    assert required[0] == "cardiologist";
    assert MOCK_HOSPITALS[2].specialists == ["general_physician"];
    assert "cardiologist" != "general_physician";
    assert required[0] !in MOCK_HOSPITALS[2].specialists;
  }

  /** Only Max Saket and AIIMS Trauma Center list a cardiologist. */
  lemma CardiologistCandidates(severity: string, location: Origin, route: RouteProvider, c: Candidate)
    requires c in SelectCandidates(severity, location, ["cardiologist"], MOCK_HOSPITALS, route)
    ensures c.hospital.id == "max_hospital_saket" || c.hospital.id == "aiims_trauma_center"
  {
    var db := MOCK_HOSPITALS;
    SelectedAreSuitable(severity, location, ["cardiologist"], db, route, c);
    SuitableMembers(severity, location, ["cardiologist"], db, route, c);
    var i :| 0 <= i < |db| && Eligible(severity, ["cardiologist"], db[i]) && c.hospital == db[i];
    CityGeneralLacksCardiologist();
    assert i != 2;
  }

  /** Roads under which City General is much the quickest to reach. */
  function CityGeneralFastest(location: Origin, to: Coords): Option<RouteInfo> {
    if to == MOCK_HOSPITALS[2].coords then Some(RouteInfo(20.0, 10.0)) else Some(RouteInfo(5.0, 30.0))
  }

  /**
   * The emergency endpoint picks its hospital among the whole table, not among the
   * ranked candidates: for a critical case it can assign City General, which the
   * ranking never offers.
   */
  lemma AssignmentOutsideCandidates(location: Origin)
    ensures var best := RoutingAgent.BestHospital(location, MOCK_HOSPITALS, Routes.HospitalCoords, CityGeneralFastest);
      && best.Some? && best.value.hospital.id == "city_general"
      && forall c :: c in SelectCandidates("RED", location, [], MOCK_HOSPITALS, CityGeneralFastest) ==>
           c.hospital.id != best.value.hospital.id
  {
    RoutingAgent.BestHospitalSpec(location, MOCK_HOSPITALS, Routes.HospitalCoords, CityGeneralFastest);
    forall c | c in SelectCandidates("RED", location, [], MOCK_HOSPITALS, CityGeneralFastest)
      ensures c.hospital.id != "city_general"
    {
      RedExcludesCityGeneral(location, [], CityGeneralFastest, c);
    }
  }

  /** Roads under which the nearest hospital is the slowest to reach. */
  function NearestSlowest(location: Origin, to: Coords): Option<RouteInfo> {
    if to == MOCK_HOSPITALS[0].coords then Some(RouteInfo(2.0, 30.0))
    else if to == MOCK_HOSPITALS[1].coords then Some(RouteInfo(4.0, 10.0))
    else Some(RouteInfo(9.0, 20.0))
  }

  /** Under those roads every hospital survives the filters, annotated with its own route. */
  lemma SuitableThree(location: Origin)
    ensures Suitable("GREEN", location, [], MOCK_HOSPITALS, NearestSlowest)
         == [Annotate(MOCK_HOSPITALS[0], RouteInfo(2.0, 30.0)), Annotate(MOCK_HOSPITALS[1], RouteInfo(4.0, 10.0)),
             Annotate(MOCK_HOSPITALS[2], RouteInfo(9.0, 20.0))]
  {
    var db := MOCK_HOSPITALS;
    assert db[1].coords != db[0].coords;
    assert db[2].coords != db[0].coords && db[2].coords != db[1].coords;
    assert db[..0] == [];
    SuitableStep("GREEN", location, [], db, NearestSlowest, 0);
    SuitableStep("GREEN", location, [], db, NearestSlowest, 1);
    SuitableStep("GREEN", location, [], db, NearestSlowest, 2);
    assert db[..3] == db;
  }

  /** Three candidates already in strictly increasing distance are ranked as they are. */
  lemma RankedThree(c0: Candidate, c1: Candidate, c2: Candidate)
    requires c0.distanceKm < c1.distanceKm < c2.distanceKm
    ensures Sort([c0, c1, c2], RankKey) == [c0, c1, c2]
  {
    var s := [c0, c1, c2];
    assert s[..2] == [c0, c1];
    assert [c0, c1][..1] == [c0];
    assert Sort([c0], RankKey) == [c0];
    assert Insert(c1, [], RankKey) == [c1];
    assert [c0][1..] == [];
    assert Insert(c1, [c0], RankKey) == [c0, c1];
    assert Insert(c2, [], RankKey) == [c2];
    assert Insert(c2, [c1], RankKey) == [c1, c2];
    assert [c0, c1][1..] == [c1];
    assert Insert(c2, [c0, c1], RankKey) == [c0, c1, c2];
  }

  /** Under those roads, every hospital is a candidate and the table order is the distance order. */
  lemma NearestRanking(location: Origin)
    ensures SelectCandidates("GREEN", location, [], MOCK_HOSPITALS, NearestSlowest)
         == [Annotate(MOCK_HOSPITALS[0], RouteInfo(2.0, 30.0)), Annotate(MOCK_HOSPITALS[1], RouteInfo(4.0, 10.0)),
             Annotate(MOCK_HOSPITALS[2], RouteInfo(9.0, 20.0))]
  {
    SuitableThree(location);
    RankedThree(Annotate(MOCK_HOSPITALS[0], RouteInfo(2.0, 30.0)), Annotate(MOCK_HOSPITALS[1], RouteInfo(4.0, 10.0)),
                Annotate(MOCK_HOSPITALS[2], RouteInfo(9.0, 20.0)));
  }

  /** Every projected candidate is reachable under those roads. */
  lemma EvaluatedThree(location: Origin)
    ensures RoutingAgent.Evaluate(location, [Orchestrator.Target(MOCK_HOSPITALS[0]), Orchestrator.Target(MOCK_HOSPITALS[1]), Orchestrator.Target(MOCK_HOSPITALS[2])],
                                  RoutingAgent.TargetCoords, NearestSlowest)
         == [Evaluated(Orchestrator.Target(MOCK_HOSPITALS[0]), RouteInfo(2.0, 30.0)), Evaluated(Orchestrator.Target(MOCK_HOSPITALS[1]), RouteInfo(4.0, 10.0)),
             Evaluated(Orchestrator.Target(MOCK_HOSPITALS[2]), RouteInfo(9.0, 20.0))]
  {
    var h0, h1, h2 := MOCK_HOSPITALS[0], MOCK_HOSPITALS[1], MOCK_HOSPITALS[2];
    assert h1.coords != h0.coords;
    assert h2.coords != h0.coords && h2.coords != h1.coords;
    var t0, t1, t2 := Orchestrator.Target(h0), Orchestrator.Target(h1), Orchestrator.Target(h2);
    var targets := [t0, t1, t2];
    var e0, e1, e2 := Evaluated(t0, RouteInfo(2.0, 30.0)), Evaluated(t1, RouteInfo(4.0, 10.0)), Evaluated(t2, RouteInfo(9.0, 20.0));
    assert targets[..2] == [t0, t1];
    assert targets[..2][..1] == [t0];
    assert RoutingAgent.Evaluate(location, [t0], RoutingAgent.TargetCoords, NearestSlowest) == [e0];
    assert RoutingAgent.Evaluate(location, [t0, t1], RoutingAgent.TargetCoords, NearestSlowest) == [e0, e1];
  }

  /** The stable duration sort of three evaluated hospitals timed 30, 10 and 20 minutes. */
  lemma SortedThree(e0: Evaluated<RouteTarget>, e1: Evaluated<RouteTarget>, e2: Evaluated<RouteTarget>)
    requires e0.routeInfo.durationMin == 30.0 && e1.routeInfo.durationMin == 10.0 && e2.routeInfo.durationMin == 20.0
    ensures Sort([e0, e1, e2], RoutingAgent.DurationKey) == [e1, e2, e0]
  {
    var key := RoutingAgent.DurationKey;
    var ev := [e0, e1, e2];
    assert Sort([e0], key) == [e0];
    assert [e0, e1][..1] == [e0];
    assert Insert(e1, [e0], key) == [e1, e0];
    assert Sort([e0, e1], key) == [e1, e0];
    assert ev[..2] == [e0, e1];
    assert Insert(e2, [], key) == [e2];
    assert Insert(e2, [e0], key) == [e2, e0];
    assert [e1, e0][1..] == [e0];
    assert Insert(e2, [e1, e0], key) == [e1, e2, e0];
  }

  /**
   * The orchestrator ranks candidates by distance but assigns by travel time: the
   * top-ranked (nearest) candidate need not be the assigned one.
   */
  lemma NearestIsNotAssigned(location: Origin)
    ensures var top := SelectCandidates("GREEN", location, [], MOCK_HOSPITALS, NearestSlowest);
      var best := RoutingAgent.BestHospital(location, Orchestrator.RoutingCandidates(top), RoutingAgent.TargetCoords,
                                            NearestSlowest);
      && |top| == 3 && top[0].hospital.id == "max_hospital_saket"
      && best.Some? && best.value.hospital.id == "aiims_trauma_center"
  {
    NearestRanking(location);
    var top := SelectCandidates("GREEN", location, [], MOCK_HOSPITALS, NearestSlowest);
    var targets := Orchestrator.RoutingCandidates(top);
    assert targets == [Orchestrator.Target(MOCK_HOSPITALS[0]), Orchestrator.Target(MOCK_HOSPITALS[1]), Orchestrator.Target(MOCK_HOSPITALS[2])];
    EvaluatedThree(location);
    var ev := RoutingAgent.Evaluate(location, targets, RoutingAgent.TargetCoords, NearestSlowest);
    SortedThree(ev[0], ev[1], ev[2]);
    assert ev == [ev[0], ev[1], ev[2]];
  }
}
