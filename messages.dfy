/**
 * The payloads sent through the capability registry and the replies that come back.
 * Every stage receives one variant of `Payload`; a handler given another variant
 * fails the way the Python dictionary lookup in its `execute` does.
 */
module Messages {
  import opened Wrappers
  import opened Records

  datatype Payload =
    | TriageCall(input: TriageInput)
      /** The whole event dictionary the event handler forwards to triage. */
    | EventCall(event: EventPayload)
    | HospitalCall(severity: string, location: Origin, requiredSpecialists: seq<string>, hospitalDb: seq<Hospital>)
    | RoutingCall(emergencyLocation: Origin, hospitals: seq<RouteTarget>)
      /** `hospital_data` is the routing stage's reply, passed on verbatim. */
    | NotifyCall(emergencyData: EmergencyData, hospitalData: Reply)

  datatype Reply =
    | Triaged(triage: TriageResult)
    | Candidates(candidates: seq<Candidate>)
    | Routed(best: Option<Evaluated<RouteTarget>>)
      /** `{"status": ...}`, with the emails the agent handed to the sender. */
    | AlertsSent(status: string, sent: seq<Email>)

  /** The event dictionary of the lightweight event handler; `None` marks an absent key. */
  datatype EventPayload = EventPayload(
    location: Origin,
    candidateHospitals: Option<seq<RouteTarget>>,
    description: Option<string>,
    address: Option<string>,
    contactEmail: Option<string>,
    symptoms: seq<string>,
    vitals: map<string, Json>,
    age: Option<int>)

  /** Python truthiness of a reply (`if not reply` tests its negation). */
  predicate ReplyTruthy(r: Reply) {
    match r
    case Triaged(t) => t.severity.Some? || t.priority.Some? || t.recommendedSpecialists.Some?
    case Candidates(cs) => cs != []
    case Routed(b) => b.Some?
    case AlertsSent(_, _) => true
  }

  /** What a handler hands back: a plain value, or an awaitable that completes with one. */
  datatype Completion<+T> = Ready(value: T) | Awaitable(result: T)

  type Outcome = Result<Reply, Exception>

  type Handler = Payload -> Completion<Outcome>

  /** The single value the caller observes: a ready value as is, an awaitable once awaited. */
  function Await(c: Completion<Outcome>): Outcome {
    match c
    case Ready(v) => v
    case Awaitable(v) => v
  }
}
