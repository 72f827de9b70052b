/**
 * The HTTP endpoints the frontend calls: quick triage of the emergency form, the
 * hospital listing, the hospital notification, the full emergency creation and the
 * direct hospital query. Each endpoint catches every exception and answers 500,
 * except `/notify`, which answers 400 on missing ids.
 */
module Routes {
  import opened Wrappers
  import opened Records
  import opened PyText
  import opened Database
  import opened Background
  import HospitalAgent
  import RoutingAgent

  // ---------------------------------------------------------------- request models

  /** The endpoints' own `LocationData`: both coordinates are required. */
  datatype LocationData = LocationData(lat: real, lng: real)

  datatype Vitals = Vitals(bloodPressure: string, heartRate: int, oxygenLevel: int)

  /** The emergency form as the frontend posts it. */
  datatype TriageRequest = TriageRequest(
    patientName: string, age: int, vitals: Vitals, symptoms: string, location: LocationData)

  datatype EmergencyRequest = EmergencyRequest(
    location: LocationData, symptoms: seq<string>, vitals: map<string, Json>, age: int,
    description: string, contactEmail: string)

  datatype HospitalRequest = HospitalRequest(severity: string, location: LocationData, requiredSpecialists: seq<string>)

  /** The field bounds request validation enforces before any endpoint runs. */
  predicate ValidLocation(l: LocationData) {
    -90.0 <= l.lat <= 90.0 && -180.0 <= l.lng <= 180.0
  }

  function PointOf(l: LocationData): Origin {
    Point(Some(l.lat), Some(l.lng))
  }

  /** The external triage agent's `execute`, which may raise. */
  type Triage = Records.TriageInput -> Result<TriageResult, Exception>

  /** `str(e)` for the exceptions that reach an endpoint's `except`. */
  function Describe(e: Exception): (r: string)
    // a `KeyError` shows its key in single quotes
    ensures e.KeyError? ==>
      |r| == |e.key| + 2 && r[0] == '\'' && r[|r| - 1] == '\'' && r[1..|r| - 1] == e.key
    // other Python exceptions show their message as is
    ensures e.TypeError? || e.ValueError? ==> r == e.message
    // an `HTTPException` shows its status code, a colon and a space, then its detail
    ensures e.HttpException? ==>
      var code := IntToString(e.statusCode);
      && |r| == |code| + 2 + |e.detail|
      && r[..|code|] == code && r[|code|..|code| + 2] == ": " && r[|code| + 2..] == e.detail
  {
    match e
    case KeyError(key) => "'" + key + "'"
    case ShapeError(what) => "'" + what + "'"
    case TypeError(message) => message
    case ValueError(message) => message
    case HttpException(code, detail) => IntToString(code) + ": " + detail
  }

  // ---------------------------------------------------------------- POST /triage

  const DEFAULT_SEVERITY := "medium"
  const GENERAL_SPECIALTY := "General"
  const ESTIMATED_RESPONSE_TIME := 15
  const TRIAGE_FAILED := "Triage failed: "

  datatype TriageResponse = TriageResponse(
    emergencyId: string, severity: string, recommendedSpecialty: string, estimatedResponseTime: int)

  /** The comma-separated symptom list, each piece stripped; empty pieces are kept. */
  function SplitSymptoms(symptoms: string): (r: seq<string>)
    ensures |r| == Count(symptoms, ',') + 1
    ensures forall k :: 0 <= k < |r| ==> ',' !in r[k]
    ensures forall k :: 0 <= k < |r| ==> r[k] == [] || (!IsSpace(r[k][0]) && !IsSpace(r[k][|r[k]| - 1]))
    ensures forall k :: 0 <= k < |r| ==> r[k] == Strip(Split(symptoms, ',')[k])
  {
    var pieces := Split(symptoms, ',');
    seq(|pieces|, k requires 0 <= k < |pieces| => Strip(pieces[k]))
  }

  /**
   * A blank piece between two commas survives as an empty symptom, and the
   * pieces around it keep their place.
   */
  lemma {:induction false} BlankSymptomKept(a: string, blank: string, b: string)
    requires ',' !in a && ',' !in b
    requires forall i :: 0 <= i < |blank| ==> IsSpace(blank[i])
    ensures SplitSymptoms(a + [','] + blank + [','] + b) == [Strip(a), "", Strip(b)]
  {
    assert ',' !in blank by {
      assert !IsSpace(',');
    }
    var s := a + [','] + blank + [','] + b;
    assert Split(s, ',') == [a, blank, b] by {
      assert s == a + [','] + (blank + [','] + b);
      SplitAtSeparator(a, ',', blank + [','] + b);
      SplitAtSeparator(blank, ',', b);
      SplitWithoutSeparator(b, ',');
    }
    var r := SplitSymptoms(s);
    assert |r| == 3;
    StripBlank(blank);
  }

  /** The patient's name with spaces turned into underscores, lower-cased. */
  function Slug(name: string): (r: string)
    ensures |r| == |name|
    ensures ' ' !in r
    ensures forall i :: 0 <= i < |r| ==> !IsUpper(r[i])
    ensures forall i :: 0 <= i < |name| && name[i] == ' ' ==> r[i] == '_'
    ensures forall i :: 0 <= i < |name| && name[i] != ' ' ==> r[i] == ToLower(name[i])
  {
    Lower(Replace(name, ' ', '_'))
  }

  /** `emer_<slug>_<age>`. */
  function EmergencyId(name: string, age: int): (id: string)
    ensures |id| == 6 + |name| + |IntToString(age)|
    ensures id[..5] == "emer_" && id[5 + |name|] == '_'
    ensures id[5..5 + |name|] == Slug(name)
    ensures id[6 + |name|..] == IntToString(age)
    ensures ' ' !in id
  {
    var head := "emer_" + Slug(name);
    var digits := IntToString(age);
    assert head[..5] == "emer_" && head[5..] == Slug(name);
    assert (head + "_" + digits)[..|head|] == head && (head + "_" + digits)[|head| + 1..] == digits;
    head + "_" + digits
  }

  /** The age can be read back from the text after the id's last underscore. */
  lemma EmergencyIdAge(name: string, age: int)
    ensures ParseInt(AfterLast(EmergencyId(name, age), '_')) == age
  {
    AfterLastSeparator("emer_" + Slug(name), '_', IntToString(age));
    ParseIntToString(age);
  }

  /** The triage agent's input: the split symptoms, the vitals under snake-case keys, the age. */
  function FormTriageInput(request: TriageRequest): (t: Records.TriageInput)
    ensures t.symptoms == SplitSymptoms(request.symptoms)
    ensures t.vitals.Keys == {"blood_pressure", "heart_rate", "oxygen_level"}
    ensures t.vitals["blood_pressure"] == JStr(request.vitals.bloodPressure)
    ensures t.vitals["heart_rate"] == JInt(request.vitals.heartRate)
    ensures t.vitals["oxygen_level"] == JInt(request.vitals.oxygenLevel)
    ensures t.age == request.age
  {
    Records.TriageInput(
      SplitSymptoms(request.symptoms),
      map["blood_pressure" := JStr(request.vitals.bloodPressure),
          "heart_rate" := JInt(request.vitals.heartRate),
          "oxygen_level" := JInt(request.vitals.oxygenLevel)],
      request.age)
  }

  /** `severity`, or "medium" when triage left the key out. */
  function SeverityOrDefault(t: TriageResult): (s: string)
    ensures t.severity.Some? ==> s == t.severity.value
    ensures t.severity.None? ==> s == DEFAULT_SEVERITY
  {
    t.severity.GetOr(DEFAULT_SEVERITY)
  }

  /** The first recommended specialist, or "General" when the list is missing or empty. */
  function FirstSpecialty(t: TriageResult): (s: string)
    ensures t.recommendedSpecialists.Some? && t.recommendedSpecialists.value != [] ==>
      s == t.recommendedSpecialists.value[0]
    ensures t.recommendedSpecialists.None? || t.recommendedSpecialists.value == [] ==> s == GENERAL_SPECIALTY
  {
    match t.recommendedSpecialists
    case Some(specialists) => if specialists != [] then specialists[0] else GENERAL_SPECIALTY
    case None => GENERAL_SPECIALTY
  }

  /** `POST /triage`. */
  function TriageEmergency(request: TriageRequest, triage: Triage): (r: Result<TriageResponse, Exception>)
    ensures triage(FormTriageInput(request)).Err? ==>
      r == Err(HttpException(500, TRIAGE_FAILED + Describe(triage(FormTriageInput(request)).error)))
    ensures triage(FormTriageInput(request)).Ok? ==>
      && r.Ok?
      && r.value.emergencyId == EmergencyId(request.patientName, request.age)
      && r.value.severity == SeverityOrDefault(triage(FormTriageInput(request)).value)
      && r.value.recommendedSpecialty == FirstSpecialty(triage(FormTriageInput(request)).value)
      && r.value.estimatedResponseTime == ESTIMATED_RESPONSE_TIME
  {
    match triage(FormTriageInput(request))
    case Err(e) => Err(HttpException(500, TRIAGE_FAILED + Describe(e)))
    case Ok(t) =>
      Ok(TriageResponse(EmergencyId(request.patientName, request.age), SeverityOrDefault(t), FirstSpecialty(t),
                        ESTIMATED_RESPONSE_TIME))
  }

  // ---------------------------------------------------------------- GET /hospitals/{emergency_id}

  /** One listed hospital; `distanceTenths` is the listed distance in tenths of a kilometre. */
  datatype HospitalListing = HospitalListing(
    id: string, name: string, location: Coords, distanceTenths: int, eta: int, bedsAvailable: int,
    specialties: seq<string>, isRecommended: bool)

  /** A specialist key as shown to people: underscores become spaces, every word capitalised. */
  function Readable(specialist: string): (r: string)
    ensures |r| == |specialist|
    ensures '_' !in r
    ensures forall i :: 0 <= i < |r| && specialist[i] == '_' ==> r[i] == ' '
    ensures forall i :: 0 <= i < |r| && specialist[i] != '_' ==> ToLower(r[i]) == ToLower(specialist[i])
    ensures forall i :: 0 <= i < |r| && WordStart(r, i) ==> IsUpper(r[i])
    ensures forall i :: 0 <= i < |r| && !WordStart(r, i) ==> !IsUpper(r[i])
  {
    var spaced := Replace(specialist, '_', ' ');
    var r := Title(spaced);
    assert forall i :: 0 <= i < |r| && WordStart(r, i) ==> WordStart(spaced, i);
    r
  }

  /** The listing entry for the record at position `idx`. */
  function Entry(idx: nat, h: Hospital): (e: HospitalListing)
    ensures e.id == h.id && e.name == h.name && e.location == h.coords
    // the mock distance is 5.0 + 2.5 * idx km, rounded to one decimal, which it already has
    ensures e.distanceTenths == 50 + 25 * idx && e.eta == 12 + 5 * idx
    ensures e.bedsAvailable == h.icuBedsAvailable + h.emergencyBedsAvailable
    ensures |e.specialties| == |h.specialists|
    ensures forall k :: 0 <= k < |h.specialists| ==> e.specialties[k] == Readable(h.specialists[k])
    ensures e.isRecommended <==> idx == 0
  {
    HospitalListing(h.id, h.name, h.coords, 50 + 25 * idx, 12 + 5 * idx,
                    h.icuBedsAvailable + h.emergencyBedsAvailable,
                    seq(|h.specialists|, k requires 0 <= k < |h.specialists| => Readable(h.specialists[k])),
                    idx == 0)
  }

  /** The listing of a table: one entry per record, in table order. */
  function Listing(db: seq<Hospital>): (r: seq<HospitalListing>)
    ensures |r| == |db|
    ensures forall i :: 0 <= i < |db| ==> r[i].id == db[i].id && (r[i].isRecommended <==> i == 0)
  {
    seq(|db|, i requires 0 <= i < |db| => Entry(i, db[i]))
  }

  /**
   * What the listing says: one entry per record in table order, mock distances and
   * ETAs growing with the position, the total bed count, readable specialties, and
   * only the first entry recommended.
   */
  lemma ListingShape(db: seq<Hospital>)
    ensures |Listing(db)| == |db|
    ensures forall i :: 0 <= i < |db| ==>
      var e := Listing(db)[i];
      && e.id == db[i].id && e.name == db[i].name && e.location == db[i].coords
      && e.bedsAvailable == db[i].icuBedsAvailable + db[i].emergencyBedsAvailable
      && |e.specialties| == |db[i].specialists|
      && (forall k :: 0 <= k < |e.specialties| ==> e.specialties[k] == Readable(db[i].specialists[k]))
      && (e.isRecommended <==> i == 0)
    ensures forall i, j :: 0 <= i < j < |db| ==>
      Listing(db)[i].distanceTenths < Listing(db)[j].distanceTenths && Listing(db)[i].eta < Listing(db)[j].eta
  {
  }

  /** The loop of `get_hospitals_by_emergency`, over any table. */
  method ListHospitals(db: seq<Hospital>) returns (hospitals: seq<HospitalListing>)
    ensures hospitals == Listing(db)
  {
    hospitals := [];
    var idx := 0;
    while idx < |db|
      invariant 0 <= idx <= |db|
      invariant hospitals == Listing(db[..idx])
    {
      var hospital := db[idx];
      hospitals := hospitals + [Entry(idx, hospital)];
      idx := idx + 1;
      assert db[..idx] == db[..idx - 1] + [hospital];
    }
    assert db[..idx] == db;
  }

  /** `GET /hospitals/{emergency_id}`: the id plays no part in the answer. */
  method GetHospitalsByEmergency(emergencyId: string) returns (hospitals: seq<HospitalListing>)
    ensures hospitals == Listing(MOCK_HOSPITALS)
    ensures |hospitals| == 3 && hospitals[0].isRecommended && hospitals[0].id == "max_hospital_saket"
  {
    hospitals := ListHospitals(MOCK_HOSPITALS);
  }

  // ---------------------------------------------------------------- POST /notify

  const MISSING_IDS := "Missing hospitalId or emergencyId"

  datatype NotifyReply = NotifyReply(success: bool, hospitalId: Json, emergencyId: Json)

  /** `data.get(key)` tested for truthiness. */
  predicate Given(data: map<string, Json>, key: string) {
    key in data && Truthy(data[key])
  }

  /** `POST /notify`: both ids must be present and truthy. */
  function NotifyHospital(data: map<string, Json>): (r: Result<NotifyReply, Exception>)
    ensures r.Ok? <==> Given(data, "hospitalId") && Given(data, "emergencyId")
    ensures r.Err? ==> r.error == HttpException(400, MISSING_IDS)
    ensures r.Ok? ==> r.value == NotifyReply(true, data["hospitalId"], data["emergencyId"])
  {
    if !Given(data, "hospitalId") || !Given(data, "emergencyId") then Err(HttpException(400, MISSING_IDS))
    else Ok(NotifyReply(true, data["hospitalId"], data["emergencyId"]))
  }

  // ---------------------------------------------------------------- POST /emergency

  const CREATION_FAILED := "Emergency creation failed: "
  const NO_REACHABLE := "No reachable hospitals found"

  datatype CreateResponse = CreateResponse(
    status: string, triageResult: TriageResult, assignedHospital: string, etaMinutes: real,
    topHospitals: seq<Candidate>, detectedAddress: string)

  /** The queued `send_emergency_alert(emergency_data, best_hospital)`. */
  datatype AlertTask = AlertTask(data: EmergencyData, hospital: Evaluated<Hospital>)

  function HospitalCoords(h: Hospital): Coords {
    h.coords
  }

  function EmergencyInput(request: EmergencyRequest): Records.TriageInput {
    Records.TriageInput(request.symptoms, request.vitals, request.age)
  }

  /** `str()` of the "no reachable hospital" 404, as `POST /emergency` reports it. */
  lemma NotFoundDetail()
    ensures CREATION_FAILED + Describe(HttpException(404, NO_REACHABLE)) == CREATION_FAILED + "404: " + NO_REACHABLE
  {
    assert DigitChar(4) == '4' && DigitChar(0) == '0';
    assert NatToString(4) == "4";
    assert NatToString(40) == "40";
    assert NatToString(404) == "404";
  }

  /** `str()` of a `KeyError` is its key between single quotes. */
  lemma QuotedKey(k: string, quoted: string)
    requires quoted == "'" + k + "'"
    ensures Describe(KeyError(k)) == quoted
  {
  }

  // `str()` of the `KeyError`s a triage reply without one of its keys raises
  lemma SeverityKeyDetail() ensures Describe(KeyError("severity")) == "'severity'" {
    QuotedKey("severity", "'severity'");
  }

  lemma SpecialistsKeyDetail() ensures Describe(KeyError("recommended_specialists")) == "'recommended_specialists'" {
    QuotedKey("recommended_specialists", "'recommended_specialists'");
  }

  lemma PriorityKeyDetail() ensures Describe(KeyError("priority")) == "'priority'" {
    QuotedKey("priority", "'priority'");
  }

  /**
   * `POST /emergency`. `address` stands for the reverse-geocoded address. The
   * best hospital is picked among the whole table, before and apart from the
   * candidate ranking, and every failure, the "no reachable hospital" 404
   * included, leaves as a 500.
   */
  method CreateEmergency(request: EmergencyRequest, triage: Triage, address: string, route: RouteProvider,
                         background: BackgroundTasks<AlertTask>)
    returns (r: Result<CreateResponse, Exception>)
    modifies background
    ensures r.Err? ==> r.error.HttpException? && r.error.statusCode == 500
    ensures r.Err? ==> background.tasks == old(background.tasks)
    ensures triage(EmergencyInput(request)).Err? ==>
      r == Err(HttpException(500, CREATION_FAILED + Describe(triage(EmergencyInput(request)).error)))
    // no hospital in the whole table is reachable: the 404 comes back as a 500
    ensures (&& triage(EmergencyInput(request)).Ok?
             && RoutingAgent.BestHospital(PointOf(request.location), MOCK_HOSPITALS, HospitalCoords, route).None?)
      ==> r == Err(HttpException(500, CREATION_FAILED + "404: " + NO_REACHABLE))
    // a triage reply without `severity`, `recommended_specialists` or `priority` fails reading that key
    ensures (&& triage(EmergencyInput(request)).Ok?
             && RoutingAgent.BestHospital(PointOf(request.location), MOCK_HOSPITALS, HospitalCoords, route).Some?
             && triage(EmergencyInput(request)).value.severity.None?)
      ==> r == Err(HttpException(500, CREATION_FAILED + "'severity'"))
    ensures (&& triage(EmergencyInput(request)).Ok?
             && RoutingAgent.BestHospital(PointOf(request.location), MOCK_HOSPITALS, HospitalCoords, route).Some?
             && triage(EmergencyInput(request)).value.severity.Some?
             && triage(EmergencyInput(request)).value.recommendedSpecialists.None?)
      ==> r == Err(HttpException(500, CREATION_FAILED + "'recommended_specialists'"))
    ensures (&& triage(EmergencyInput(request)).Ok?
             && RoutingAgent.BestHospital(PointOf(request.location), MOCK_HOSPITALS, HospitalCoords, route).Some?
             && triage(EmergencyInput(request)).value.severity.Some?
             && triage(EmergencyInput(request)).value.recommendedSpecialists.Some?
             && triage(EmergencyInput(request)).value.priority.None?)
      ==> r == Err(HttpException(500, CREATION_FAILED + "'priority'"))
    ensures r.Ok? ==>
      var t := triage(EmergencyInput(request)).value;
      var best := RoutingAgent.BestHospital(PointOf(request.location), MOCK_HOSPITALS, HospitalCoords, route).value;
      && triage(EmergencyInput(request)).Ok?
      && t.severity.Some? && t.priority.Some? && t.recommendedSpecialists.Some?
      && RoutingAgent.BestHospital(PointOf(request.location), MOCK_HOSPITALS, HospitalCoords, route).Some?
      && r.value == CreateResponse("success", t, best.hospital.name, best.routeInfo.durationMin,
           HospitalAgent.SelectCandidates(t.severity.value, PointOf(request.location),
                                          t.recommendedSpecialists.value, MOCK_HOSPITALS, route),
           address)
      && background.tasks == old(background.tasks) + [AlertTask(
           EmergencyData(t.severity, t.priority, Some(request.description), Some(address), Some(request.contactEmail)),
           best)]
    // a graded case with some reachable hospital always succeeds
    ensures && triage(EmergencyInput(request)).Ok?
            && triage(EmergencyInput(request)).value.severity.Some?
            && triage(EmergencyInput(request)).value.priority.Some?
            && triage(EmergencyInput(request)).value.recommendedSpecialists.Some?
            && RoutingAgent.BestHospital(PointOf(request.location), MOCK_HOSPITALS, HospitalCoords, route).Some?
            ==> r.Ok?
  {
    var triageResult := triage(EmergencyInput(request));
    if triageResult.Err? {
      return Err(HttpException(500, CREATION_FAILED + Describe(triageResult.error)));
    }
    var t := triageResult.value;
    var origin := PointOf(request.location);
    var best := RoutingAgent.FindBestHospital(origin, MOCK_HOSPITALS, HospitalCoords, route);
    if best.None? {
      NotFoundDetail();
      return Err(HttpException(500, CREATION_FAILED + Describe(HttpException(404, NO_REACHABLE))));
    }
    SeverityKeyDetail();
    SpecialistsKeyDetail();
    PriorityKeyDetail();
    if t.severity.None? {
      return Err(HttpException(500, CREATION_FAILED + Describe(KeyError("severity"))));
    }
    if t.recommendedSpecialists.None? {
      return Err(HttpException(500, CREATION_FAILED + Describe(KeyError("recommended_specialists"))));
    }
    var top := HospitalAgent.FindSuitableHospitals(t.severity.value, origin, t.recommendedSpecialists.value,
                                                   MOCK_HOSPITALS, route);
    if t.priority.None? {
      return Err(HttpException(500, CREATION_FAILED + Describe(KeyError("priority"))));
    }
    var emergencyData := EmergencyData(t.severity, t.priority, Some(request.description), Some(address),
                                       Some(request.contactEmail));
    background.AddTask(AlertTask(emergencyData, best.value));
    r := Ok(CreateResponse("success", t, best.value.hospital.name, best.value.routeInfo.durationMin, top, address));
  }

  // ---------------------------------------------------------------- POST /hospitals

  /** `POST /hospitals`: the candidate ranking for the requested severity and specialists over the table. */
  method GetHospitals(request: HospitalRequest, route: RouteProvider) returns (hospitals: seq<Candidate>)
    ensures hospitals == HospitalAgent.SelectCandidates(request.severity, PointOf(request.location),
                                                        request.requiredSpecialists, MOCK_HOSPITALS, route)
    ensures |hospitals| <= HospitalAgent.MAX_CANDIDATES
  {
    hospitals := HospitalAgent.FindSuitableHospitals(request.severity, PointOf(request.location),
                                                     request.requiredSpecialists, MOCK_HOSPITALS, route);
  }
}
