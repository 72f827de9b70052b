/**
 * The records that flow between the stages of the case pipeline. In the Python
 * backend these are dictionaries; here each shape gets its own datatype, and a key
 * that may be absent becomes an `Option` field.
 */
module Records {
  import opened Wrappers

  /** A JSON value as FastAPI hands a request body to a handler. */
  datatype Json =
    | JNull
    | JBool(b: bool)
    | JInt(i: int)
    | JFloat(f: real)
    | JStr(s: string)
    | JArray(items: seq<Json>)
    | JObject(fields: map<string, Json>)

  /** Python truthiness of a JSON value (`not v` is its negation). */
  predicate Truthy(v: Json) {
    match v
    case JNull => false
    case JBool(b) => b
    case JInt(i) => i != 0
    case JFloat(f) => f != 0.0
    case JStr(s) => s != ""
    case JArray(items) => items != []
    case JObject(fields) => fields != map[]
  }

  /** A `(lat, lng)` pair in degrees. */
  datatype Coords = Coords(lat: real, lng: real)

  /** One facility record of the hospital table. */
  datatype Hospital = Hospital(
    id: string,
    name: string,
    coords: Coords,
    icuBedsAvailable: int,
    emergencyBedsAvailable: int,
    specialists: seq<string>)

  /** What the route provider answers for one origin/destination pair. */
  datatype RouteInfo = RouteInfo(distanceKm: real, durationMin: real)

  /**
   * The emergency location handed to the route provider: a coordinate pair whose
   * halves may each be null, or nothing at all (a payload without a location key).
   */
  datatype Origin = Point(lat: Option<real>, lng: Option<real>) | NoLocation

  /**
   * The external route provider (`maps_service.get_route_details`); `None` is a
   * failed lookup. It is a parameter of every operation that uses it.
   */
  type RouteProvider = (Origin, Coords) -> Option<RouteInfo>

  /** A hospital record copied and extended with its route metrics by the hospital agent. */
  datatype Candidate = Candidate(hospital: Hospital, distanceKm: real, etaMinutes: real, hasSpecialists: bool)

  /** The `id`/`name`/`coords` projection of a hospital that the routing stage receives. */
  datatype RouteTarget = RouteTarget(id: string, name: string, coords: Coords)

  /** A hospital record copied and extended with `route_info` by the routing agent. */
  datatype Evaluated<H> = Evaluated(hospital: H, routeInfo: RouteInfo)

  /** The triage stage's input: `{symptoms, vitals, age}`. */
  datatype TriageInput = TriageInput(symptoms: seq<string>, vitals: map<string, Json>, age: int)

  /** The triage stage's answer; each key may be missing from the dictionary. */
  datatype TriageResult = TriageResult(
    severity: Option<string>,
    priority: Option<int>,
    recommendedSpecialists: Option<seq<string>>)

  /** The `emergency_data` dictionary handed to the notification stage; `None` is an absent key. */
  datatype EmergencyData = EmergencyData(
    severity: Option<string>,
    priority: Option<int>,
    description: Option<string>,
    address: Option<string>,
    contactEmail: Option<string>)

  /** The fields of the alert body, in the order the template prints them. */
  datatype AlertBody = AlertBody(
    severity: string,
    emergencyType: string,
    patientLocation: string,
    etaMinutes: real,
    distanceKm: real)

  /** One message handed to the email sender (`notification_service.send_email`). */
  datatype Email = Email(recipient: Option<string>, subject: string, body: AlertBody)

  /** The Python exceptions the pipeline can raise, and FastAPI's `HTTPException`. */
  datatype Exception =
    | KeyError(key: string)
    | ShapeError(what: string)   // a value of the wrong shape is indexed (Python: KeyError or TypeError)
    | TypeError(message: string)
    | ValueError(message: string)
    | HttpException(statusCode: int, detail: string)
}
