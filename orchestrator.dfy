/**
 * The emergency orchestrator: triage, hospital selection and routing run one after
 * the other through the registry, each stage's payload built from the previous
 * stage's reply; an empty candidate list or an unreachable set of candidates ends
 * the case with a 404; otherwise the alert is queued as background work and the
 * assignment is returned.
 */
module Orchestrator {
  import opened Wrappers
  import opened Records
  import opened Messages
  import opened MockZynd
  import opened Background
  import opened Database
  import opened Registration
  import Schemas
  import HospitalAgent
  import RoutingAgent
  import NotificationAgent

  const NO_SUITABLE := "No suitable hospitals found"
  const NO_REACHABLE := "No reachable hospitals found"

  datatype Response = Response(
    requestId: string,
    status: string,
    triageResult: TriageResult,
    assignedHospital: string,
    etaMinutes: real,
    topHospitals: seq<Candidate>,
    detectedAddress: string)

  /** The `id`/`name`/`coords` projection of one hospital record. */
  function Target(h: Hospital): RouteTarget {
    RouteTarget(h.id, h.name, h.coords)
  }

  /** The `id`/`name`/`coords` projection of the ranked candidates, in order. */
  function RoutingCandidates(top: seq<Candidate>): (r: seq<RouteTarget>)
    ensures |r| == |top|
    ensures forall i :: 0 <= i < |top| ==>
      r[i] == RouteTarget(top[i].hospital.id, top[i].hospital.name, top[i].hospital.coords)
  {
    if top == [] then []
    else [Target(top[0].hospital)] + RoutingCandidates(top[1..])
  }

  function RequestOrigin(request: Schemas.EmergencyRequest): Origin {
    Point(request.location.lat, request.location.lng)
  }

  /** The triage stage's payload: exactly the request's symptoms, vitals and age. */
  function TriagePayload(request: Schemas.EmergencyRequest): (p: Payload)
    ensures p.TriageCall?
    ensures p.input.symptoms == request.symptoms && p.input.vitals == request.vitals && p.input.age == request.age
  {
    TriageCall(TriageInput(request.symptoms, request.vitals, request.age))
  }

  class EmergencyOrchestrator {
    const triageDid: string
    const hospitalDid: string
    const routingDid: string
    const notificationDid: string

    constructor(triageDid: string)
      ensures this.triageDid == triageDid
      ensures hospitalDid == HospitalAgent.DID && routingDid == RoutingAgent.DID
      ensures notificationDid == NotificationAgent.DID
    {
      this.triageDid := triageDid;
      hospitalDid := HospitalAgent.DID;
      routingDid := RoutingAgent.DID;
      notificationDid := NotificationAgent.DID;
    }

    /**
     * `handle_emergency`. `requestId` stands for the fresh UUID and `address` for
     * the reverse-geocoded address. `calls` records the registry calls made, in
     * order, and `replies` what each returned.
     */
    method HandleEmergency(registry: MockZyndRegistry, request: Schemas.EmergencyRequest, requestId: string,
                           address: string, background: BackgroundTasks<Invocation>)
      returns (r: Result<Response, Exception>, ghost calls: seq<Invocation>, ghost replies: seq<Outcome>)
      requires hospitalDid == HospitalAgent.DID && routingDid == RoutingAgent.DID
      modifies background
      // every call goes through the registry, which is left as it was
      ensures |replies| == |calls|
      ensures forall k :: 0 <= k < |calls| ==> replies[k] == Invoke(registry.agents, calls[k].did, calls[k].payload)
      // the stages run in order, at most once each; the alert is never sent from here
      ensures 1 <= |calls| <= 3
      ensures calls[0] == Invocation(triageDid, TriagePayload(request))
      ensures |calls| >= 2 ==> calls[1].did == hospitalDid
      ensures |calls| == 3 ==> calls[2].did == routingDid
      ensures forall k :: 0 <= k < |calls| - 1 ==> replies[k].Ok?
      // a stage that raises ends the case with its exception, unchanged
      ensures replies[|calls| - 1].Err? ==> r == Err(replies[|calls| - 1].error)
      // the hospital stage is called exactly when triage answered with a severity and a specialist list
      ensures |calls| >= 2 <==>
        && replies[0].Ok? && replies[0].value.Triaged?
        && replies[0].value.triage.severity.Some? && replies[0].value.triage.recommendedSpecialists.Some?
      // otherwise reading those keys off the triage reply fails
      ensures |calls| == 1 && replies[0].Ok? ==>
        r == Err(if !replies[0].value.Triaged? then ShapeError("severity")
                 else if replies[0].value.triage.severity.None? then KeyError("severity")
                 else KeyError("recommended_specialists"))
      // routing is called exactly when the hospital stage answered a non-empty candidate list
      ensures |calls| == 3 <==>
        && |calls| >= 2 && replies[1].Ok? && ReplyTruthy(replies[1].value) && replies[1].value.Candidates?
      ensures |calls| >= 2 && replies[1].Ok? && !ReplyTruthy(replies[1].value) ==>
        r == Err(HttpException(404, NO_SUITABLE))
      ensures |calls| == 2 && replies[1].Ok? && ReplyTruthy(replies[1].value) ==> r == Err(ShapeError("id"))
      // the hospital stage gets the triage severity and specialists, the request's coordinates and the table
      ensures |calls| >= 2 ==>
        calls[1].payload == HospitalCall(replies[0].value.triage.severity.value, RequestOrigin(request),
                                         replies[0].value.triage.recommendedSpecialists.value, MOCK_HOSPITALS)
      // the routing stage gets the projection of the candidates, in their order
      ensures |calls| == 3 ==>
        calls[2].payload == RoutingCall(RequestOrigin(request), RoutingCandidates(replies[1].value.candidates))
      // after routing answers: no reachable candidate is a 404; a missing priority fails; either way nothing
      // is queued. Otherwise the alert is queued once, and the case succeeds exactly when the reply is a
      // routed hospital.
      ensures |calls| == 3 && replies[2].Ok? ==>
        if !ReplyTruthy(replies[2].value) then
          r == Err(HttpException(404, NO_REACHABLE)) && background.tasks == old(background.tasks)
        else if replies[0].value.triage.priority.None? then
          r == Err(KeyError("priority")) && background.tasks == old(background.tasks)
        else
          && background.tasks == old(background.tasks) + [Invocation(notificationDid, NotifyCall(
               EmergencyData(replies[0].value.triage.severity, replies[0].value.triage.priority,
                             Some(request.description), Some(address), Some(request.contactEmail)),
               replies[2].value))]
          && (r.Ok? <==> replies[2].value.Routed?)
          && (r.Err? ==> r == Err(ShapeError("name")))
      // before that point nothing is queued
      ensures !(|calls| == 3 && replies[2].Ok?) ==> background.tasks == old(background.tasks)
      // success: the alert was queued, and the response reports the routed hospital
      ensures r.Ok? ==>
        && |calls| == 3 && replies[2].Ok? && replies[2].value.Routed? && replies[2].value.best.Some?
        && r.value == Response(requestId, "success", replies[0].value.triage,
                               replies[2].value.best.value.hospital.name,
                               replies[2].value.best.value.routeInfo.durationMin,
                               replies[1].value.candidates, address)
      // with the agents' own handlers registered, the assignment is one of the ranked candidates
      ensures forall route: RouteProvider :: Wired(registry.agents, route) && r.Ok? ==>
        && r.value.topHospitals == HospitalAgent.SelectCandidates(
             r.value.triageResult.severity.value, RequestOrigin(request),
             r.value.triageResult.recommendedSpecialists.value, MOCK_HOSPITALS, route)
        && exists i :: 0 <= i < |r.value.topHospitals| && r.value.assignedHospital == r.value.topHospitals[i].hospital.name
    {
      var origin := RequestOrigin(request);
      var triageCall := Invocation(triageDid, TriagePayload(request));
      calls := [triageCall];
      var triageReply := registry.Call(triageCall.did, triageCall.payload);
      replies := [triageReply];
      if triageReply.Err? {
        return Err(triageReply.error), calls, replies;
      }
      if !triageReply.value.Triaged? {
        return Err(ShapeError("severity")), calls, replies;
      }
      var triage := triageReply.value.triage;
      if triage.severity.None? {
        return Err(KeyError("severity")), calls, replies;
      }
      if triage.recommendedSpecialists.None? {
        return Err(KeyError("recommended_specialists")), calls, replies;
      }

      var hospitalCall := Invocation(hospitalDid,
        HospitalCall(triage.severity.value, origin, triage.recommendedSpecialists.value, MOCK_HOSPITALS));
      calls := calls + [hospitalCall];
      var hospitalReply := registry.Call(hospitalCall.did, hospitalCall.payload);
      replies := replies + [hospitalReply];
      if hospitalReply.Err? {
        return Err(hospitalReply.error), calls, replies;
      }
      if !ReplyTruthy(hospitalReply.value) {
        return Err(HttpException(404, NO_SUITABLE)), calls, replies;
      }
      if !hospitalReply.value.Candidates? {
        return Err(ShapeError("id")), calls, replies;
      }
      var topHospitals := hospitalReply.value.candidates;

      var routingCall := Invocation(routingDid, RoutingCall(origin, RoutingCandidates(topHospitals)));
      calls := calls + [routingCall];
      var routingReply := registry.Call(routingCall.did, routingCall.payload);
      replies := replies + [routingReply];
      if routingReply.Err? {
        return Err(routingReply.error), calls, replies;
      }
      var bestHospital := routingReply.value;
      if !ReplyTruthy(bestHospital) {
        return Err(HttpException(404, NO_REACHABLE)), calls, replies;
      }

      if triage.priority.None? {
        return Err(KeyError("priority")), calls, replies;
      }
      var emergencyData := EmergencyData(triage.severity, triage.priority,
        Some(request.description), Some(address), Some(request.contactEmail));
      background.AddTask(Invocation(notificationDid, NotifyCall(emergencyData, bestHospital)));

      if !(bestHospital.Routed? && bestHospital.best.Some?) {
        return Err(ShapeError("name")), calls, replies;
      }
      var best := bestHospital.best.value;
      r := Ok(Response(requestId, "success", triage, best.hospital.name, best.routeInfo.durationMin,
                       topHospitals, address));
      forall route: RouteProvider | Wired(registry.agents, route)
        ensures && topHospitals == HospitalAgent.SelectCandidates(
                     triage.severity.value, origin, triage.recommendedSpecialists.value, MOCK_HOSPITALS, route)
                && exists i :: 0 <= i < |topHospitals| && best.hospital.name == topHospitals[i].hospital.name
      {
        WiredAssignment(registry.agents, route, hospitalCall.payload, topHospitals, origin, best);
      }
    }
  }

  /**
   * With the agents' own handlers registered, the candidates the hospital stage
   * returned are its ranking, and the hospital routing picks among their
   * projection is one of them.
   */
  lemma WiredAssignment(agents: map<string, Handler>, route: RouteProvider, call: Payload, top: seq<Candidate>,
                        origin: Origin, best: Evaluated<RouteTarget>)
    requires Wired(agents, route) && call.HospitalCall?
    requires Invoke(agents, HospitalAgent.DID, call) == Ok(Candidates(top))
    requires Invoke(agents, RoutingAgent.DID, RoutingCall(origin, RoutingCandidates(top))) == Ok(Routed(Some(best)))
    ensures top == HospitalAgent.SelectCandidates(call.severity, call.location, call.requiredSpecialists, call.hospitalDb, route)
    ensures exists i :: 0 <= i < |top| && best.hospital.name == top[i].hospital.name
  {
    assert Invoke(agents, HospitalAgent.DID, call) == HospitalAgent.Execute(route, call);
    var routed := RoutingCall(origin, RoutingCandidates(top));
    assert Invoke(agents, RoutingAgent.DID, routed) == RoutingAgent.Execute(route, routed);
    AssignedAmongCandidates(route, origin, top, best);
    ProjectedFromCandidate(top, best.hospital);
  }

  /** When the routing agent answers the projected candidates, the routed hospital is one of those candidates. */
  lemma AssignedAmongCandidates(route: RouteProvider, origin: Origin, top: seq<Candidate>, best: Evaluated<RouteTarget>)
    requires RoutingAgent.Execute(route, RoutingCall(origin, RoutingCandidates(top))) == Ok(Routed(Some(best)))
    ensures best.hospital in RoutingCandidates(top)
    ensures route(origin, best.hospital.coords) == Some(best.routeInfo)
  {
    RoutingAgent.BestFromInput(origin, RoutingCandidates(top), RoutingAgent.TargetCoords, route);
  }

  /** Every routing target names one of the candidates it was projected from. */
  lemma {:induction false} ProjectedFromCandidate(top: seq<Candidate>, t: RouteTarget)
    requires t in RoutingCandidates(top)
    ensures exists i :: 0 <= i < |top| && t.name == top[i].hospital.name
  {
    if t == RoutingCandidates(top)[0] {
      assert t.name == top[0].hospital.name;
    } else {
      assert RoutingCandidates(top) == [RoutingCandidates(top)[0]] + RoutingCandidates(top[1..]);
      ProjectedFromCandidate(top[1..], t);
      var i :| 0 <= i < |top[1..]| && t.name == top[1..][i].hospital.name;
      assert t.name == top[i + 1].hospital.name;
    }
  }
}
