/**
 * The notification agent: formats an alert from the case summary and the routed
 * hospital and hands exactly one email to the sender. The sender is external;
 * the model returns the email it was handed next to the `{"status": ...}` reply.
 */
module NotificationAgent {
  import opened Wrappers
  import opened Records
  import opened Messages

  const DID := "did:zynd:agent_notification_ghi999"
  const SUBJECT_PREFIX := "URGENT: Incoming Emergency - "
  const NO_ADDRESS := "GPS Coords Only"
  const ALERTS_SENT := "alerts_sent"

  /** Python's `str()` of a value read with `.get(key)`: the string, or "None" when the key is absent. */
  function ShowOptional(v: Option<string>): string {
    if v.Some? then v.value else "None"
  }

  /** The subject line: the prefix followed by the severity, or "UNKNOWN" when there is none. */
  function Subject(data: EmergencyData): (s: string)
    ensures |s| >= |SUBJECT_PREFIX| && s[..|SUBJECT_PREFIX|] == SUBJECT_PREFIX
    ensures s[|SUBJECT_PREFIX|..] == if data.severity.Some? then data.severity.value else "UNKNOWN"
  {
    SUBJECT_PREFIX + data.severity.GetOr("UNKNOWN")
  }

  /** The body: severity, type and location lines, then the route's ETA and distance. */
  function Body(data: EmergencyData, info: RouteInfo): (b: AlertBody)
    // `.get` without a default shows a missing severity or description as "None"
    ensures b.severity == (if data.severity.Some? then data.severity.value else "None")
    ensures b.emergencyType == (if data.description.Some? then data.description.value else "None")
    // a missing address falls back to "GPS Coords Only"; a present one is shown even when empty
    ensures b.patientLocation == (if data.address.Some? then data.address.value else NO_ADDRESS)
    ensures b.etaMinutes == info.durationMin && b.distanceKm == info.distanceKm
  {
    AlertBody(
      ShowOptional(data.severity),
      ShowOptional(data.description),
      data.address.GetOr(NO_ADDRESS),
      info.durationMin,
      info.distanceKm)
  }

  /**
   * `send_emergency_alert`. Without a routed hospital (`None`) the body's
   * `route_info` lookup fails before anything is sent; otherwise exactly one email
   * goes to `contact_email` and the reply is `{"status": "alerts_sent"}`.
   */
  function SendEmergencyAlert<H>(data: EmergencyData, hospital: Option<Evaluated<H>>): (r: Outcome)
    ensures r.Err? <==> hospital.None?
    ensures hospital.None? ==> r == Err(TypeError("'NoneType' object is not subscriptable"))
    ensures r.Ok? ==> r.value.AlertsSent? && r.value.status == ALERTS_SENT && |r.value.sent| == 1
    ensures r.Ok? ==> var mail := r.value.sent[0];
      && mail.recipient == data.contactEmail
      && mail.subject == Subject(data)
      && mail.body == Body(data, hospital.value.routeInfo)
  {
    match hospital
    case None => Err(TypeError("'NoneType' object is not subscriptable"))
    case Some(h) =>
      var mail := Email(data.contactEmail, Subject(data), Body(data, h.routeInfo));
      Ok(AlertsSent(ALERTS_SENT, [mail]))
  }

  /**
   * The registered handler's body: unpacks `emergency_data` and `hospital_data`.
   * `hospital_data` is whatever the routing stage replied; a reply that is not a
   * routing answer has no `route_info` to read.
   */
  function Execute(payload: Payload): (r: Outcome)
    ensures !payload.NotifyCall? ==> r == Err(KeyError("emergency_data"))
    ensures payload.NotifyCall? && payload.hospitalData.Routed? ==>
      r == SendEmergencyAlert(payload.emergencyData, payload.hospitalData.best)
    ensures payload.NotifyCall? && !payload.hospitalData.Routed? ==> r == Err(ShapeError("route_info"))
  {
    match payload
    case NotifyCall(data, Routed(best)) => SendEmergencyAlert(data, best)
    case NotifyCall(_, _) => Err(ShapeError("route_info"))
    case _ => Err(KeyError("emergency_data"))
  }

  function Handler(): Messages.Handler {
    payload => Awaitable(Execute(payload))
  }
}
