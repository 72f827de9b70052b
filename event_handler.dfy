/**
 * The lightweight event orchestrator: triage, routing and notification run one
 * after the other through the registry, with no check between stages. Triage sees
 * the whole event, routing sees the event's location and candidate list, and the
 * notification carries the triage verdict and whatever routing replied.
 */
module EventHandler {
  import opened Wrappers
  import opened Records
  import opened Messages
  import opened MockZynd
  import opened Registration
  import RoutingAgent
  import NotificationAgent

  /** `{"emergency_id", "triage", "routing", "notification"}`: the three replies, verbatim. */
  datatype EventResponse = EventResponse(emergencyId: int, triage: Reply, routing: Reply, notification: Reply)

  /** The registry calls one run made, in order, and what the run returned or raised. */
  datatype EventRun = EventRun(calls: seq<Invocation>, result: Result<EventResponse, Exception>)

  /** The routing stage's payload: the event's location and its candidates, `[]` when absent. */
  function RoutingPayload(event: EventPayload): (p: Payload)
    ensures p.RoutingCall? && p.emergencyLocation == event.location
    ensures event.candidateHospitals.None? ==> p.hospitals == []
    ensures event.candidateHospitals.Some? ==> p.hospitals == event.candidateHospitals.value
  {
    RoutingCall(event.location, event.candidateHospitals.GetOr([]))
  }

  /** `emergency_data`: the triage verdict, and the event's description and address defaulting to "". */
  function AlertData(triage: TriageResult, event: EventPayload): (d: EmergencyData)
    requires triage.severity.Some? && triage.priority.Some?
    ensures d.severity == triage.severity && d.priority == triage.priority
    ensures d.description == Some(if event.description.Some? then event.description.value else "")
    ensures d.address == Some(if event.address.Some? then event.address.value else "")
    ensures d.contactEmail == event.contactEmail
  {
    EmergencyData(triage.severity, triage.priority,
                  Some(event.description.GetOr("")), Some(event.address.GetOr("")), event.contactEmail)
  }

  /** Whether the triage reply carries both keys that `emergency_data` reads. */
  predicate Graded(reply: Reply) {
    reply.Triaged? && reply.triage.severity.Some? && reply.triage.priority.Some?
  }

  /**
   * `handle_emergency(emergency_id, payload)` against the handler map `agents`;
   * `triageDid` is the external triage agent's DID. Nothing is caught: the first
   * exception ends the run.
   */
  function HandleEvent(agents: map<string, Handler>, triageDid: string, emergencyId: int, event: EventPayload)
    : (run: EventRun)
    // triage, then routing, then notification, each at most once
    ensures 1 <= |run.calls| <= 3
    ensures run.calls[0] == Invocation(triageDid, EventCall(event))
    ensures |run.calls| >= 2 ==> run.calls[1] == Invocation(RoutingAgent.DID, RoutingPayload(event))
    ensures |run.calls| == 3 ==> run.calls[2].did == NotificationAgent.DID
    // routing follows any successful triage; notification follows any successful routing of a graded case
    ensures |run.calls| >= 2 <==> Invoke(agents, triageDid, EventCall(event)).Ok?
    ensures |run.calls| == 3 <==>
      && |run.calls| >= 2
      && Invoke(agents, RoutingAgent.DID, RoutingPayload(event)).Ok?
      && Graded(Invoke(agents, triageDid, EventCall(event)).value)
    // the notification gets the triage verdict and the routing reply, whatever it is
    ensures |run.calls| == 3 ==>
      run.calls[2].payload == NotifyCall(
        AlertData(Invoke(agents, triageDid, EventCall(event)).value.triage, event),
        Invoke(agents, RoutingAgent.DID, RoutingPayload(event)).value)
    // a successful routing of an ungraded case fails reading `severity` or `priority` off the triage reply
    ensures |run.calls| == 2 && Invoke(agents, RoutingAgent.DID, RoutingPayload(event)).Ok? ==>
      var t := Invoke(agents, triageDid, EventCall(event)).value;
      run.result == Err(if !t.Triaged? then ShapeError("severity")
                        else if t.triage.severity.None? then KeyError("severity")
                        else KeyError("priority"))
    // success echoes the id and the three replies; failure is the first exception raised
    ensures run.result.Ok? <==>
      |run.calls| == 3 && Invoke(agents, run.calls[2].did, run.calls[2].payload).Ok?
    ensures run.result.Ok? ==>
      run.result.value == EventResponse(emergencyId,
        Invoke(agents, run.calls[0].did, run.calls[0].payload).value,
        Invoke(agents, run.calls[1].did, run.calls[1].payload).value,
        Invoke(agents, run.calls[2].did, run.calls[2].payload).value)
    ensures Invoke(agents, run.calls[|run.calls| - 1].did, run.calls[|run.calls| - 1].payload).Err? ==>
      run.result == Err(Invoke(agents, run.calls[|run.calls| - 1].did, run.calls[|run.calls| - 1].payload).error)
  {
    var triageCall := Invocation(triageDid, EventCall(event));
    var triageReply := Invoke(agents, triageCall.did, triageCall.payload);
    if triageReply.Err? then EventRun([triageCall], Err(triageReply.error))
    else
      var routingCall := Invocation(RoutingAgent.DID, RoutingPayload(event));
      var routingReply := Invoke(agents, routingCall.did, routingCall.payload);
      if routingReply.Err? then EventRun([triageCall, routingCall], Err(routingReply.error))
      else if !triageReply.value.Triaged? then EventRun([triageCall, routingCall], Err(ShapeError("severity")))
      else if triageReply.value.triage.severity.None? then EventRun([triageCall, routingCall], Err(KeyError("severity")))
      else if triageReply.value.triage.priority.None? then EventRun([triageCall, routingCall], Err(KeyError("priority")))
      else
        var notifyCall := Invocation(NotificationAgent.DID,
          NotifyCall(AlertData(triageReply.value.triage, event), routingReply.value));
        var notifyReply := Invoke(agents, notifyCall.did, notifyCall.payload);
        if notifyReply.Err? then EventRun([triageCall, routingCall, notifyCall], Err(notifyReply.error))
        else EventRun([triageCall, routingCall, notifyCall],
                      Ok(EventResponse(emergencyId, triageReply.value, routingReply.value, notifyReply.value)))
  }

  /**
   * Nothing guards the notification: with the agents' own handlers, a graded case
   * whose candidates are all unreachable (or absent) still reaches the notification
   * agent, which then fails reading `route_info` from `None`.
   */
  lemma UnroutedEventStillNotifies(agents: map<string, Handler>, route: RouteProvider, triageDid: string,
                                   emergencyId: int, event: EventPayload, triage: TriageResult)
    requires Wired(agents, route)
    requires Invoke(agents, triageDid, EventCall(event)) == Ok(Triaged(triage))
    requires triage.severity.Some? && triage.priority.Some?
    requires forall j :: 0 <= j < |event.candidateHospitals.GetOr([])| ==>
      !RoutingAgent.Reachable(event.location, event.candidateHospitals.GetOr([])[j], RoutingAgent.TargetCoords, route)
    ensures var run := HandleEvent(agents, triageDid, emergencyId, event);
      && |run.calls| == 3
      && run.calls[2].payload == NotifyCall(AlertData(triage, event), Routed(None))
      && run.result == Err(TypeError("'NoneType' object is not subscriptable"))
  {
    var hospitals := event.candidateHospitals.GetOr([]);
    RoutingAgent.BestHospitalSpec(event.location, hospitals, RoutingAgent.TargetCoords, route);
    assert Invoke(agents, RoutingAgent.DID, RoutingPayload(event)) == Ok(Routed(None));
  }

  /**
   * With the agents' own handlers, a graded case with a reachable candidate ends
   * with one alert to the event's contact, timed by the routed hospital.
   */
  lemma RoutedEventAlerts(agents: map<string, Handler>, route: RouteProvider, triageDid: string,
                          emergencyId: int, event: EventPayload, triage: TriageResult, best: Evaluated<RouteTarget>)
    requires Wired(agents, route)
    requires Invoke(agents, triageDid, EventCall(event)) == Ok(Triaged(triage))
    requires triage.severity.Some? && triage.priority.Some?
    requires RoutingAgent.BestHospital(event.location, event.candidateHospitals.GetOr([]),
                                       RoutingAgent.TargetCoords, route) == Some(best)
    ensures var run := HandleEvent(agents, triageDid, emergencyId, event);
      && run.result.Ok?
      && run.result.value.emergencyId == emergencyId
      && run.result.value.triage == Triaged(triage)
      && run.result.value.routing == Routed(Some(best))
      && run.result.value.notification.AlertsSent?
      && run.result.value.notification.sent == [Email(event.contactEmail,
           NotificationAgent.Subject(AlertData(triage, event)),
           NotificationAgent.Body(AlertData(triage, event), best.routeInfo))]
  {
    assert Invoke(agents, RoutingAgent.DID, RoutingPayload(event)) == Ok(Routed(Some(best)));
  }
}
