/**
 * The request models of the backend and the field bounds their validation
 * enforces. A field that may be null or missing is an `Option`. Each model has a
 * validity predicate and a validator that lists the offending fields by path, the
 * way the validation layer reports them.
 */
module Schemas {
  import opened Wrappers
  import Records

  datatype LocationData = LocationData(lat: Option<real>, lng: Option<real>)

  datatype Vitals = Vitals(bloodPressure: Option<string>, heartRate: Option<int>, oxygenLevel: Option<int>)

  /** The triage form: the age is a bracket such as "40-45", and the location may be absent. */
  datatype TriageInput = TriageInput(
    patientName: string,
    age: string,
    gender: string,
    contact: string,
    vitals: Vitals,
    symptoms: string,
    location: Option<LocationData>)

  /** The full emergency request: the location object is required, its coordinates are not. */
  datatype EmergencyRequest = EmergencyRequest(
    location: LocationData,
    symptoms: seq<string>,
    vitals: map<string, Records.Json>,
    age: int,
    description: string,
    contactEmail: string)

  predicate RealWithin(v: Option<real>, lo: real, hi: real) {
    v.Some? ==> lo <= v.value <= hi
  }

  predicate IntWithin(v: Option<int>, lo: int, hi: int) {
    v.Some? ==> lo <= v.value <= hi
  }

  predicate ValidLocation(l: LocationData) {
    RealWithin(l.lat, -90.0, 90.0) && RealWithin(l.lng, -180.0, 180.0)
  }

  /** `bloodPressure` is unconstrained; heart rate and oxygen level have inclusive bounds. */
  predicate ValidVitals(v: Vitals) {
    IntWithin(v.heartRate, 30, 200) && IntWithin(v.oxygenLevel, 50, 100)
  }

  predicate ValidTriageInput(t: TriageInput) {
    ValidVitals(t.vitals) && (t.location.Some? ==> ValidLocation(t.location.value))
  }

  predicate ValidEmergencyRequest(e: EmergencyRequest) {
    ValidLocation(e.location)
  }

  function Check(ok: bool, path: string): seq<string> {
    if ok then [] else [path]
  }

  /** The offending fields of a location, each prefixed with `at`. */
  function LocationErrors(l: LocationData, at: string): (errs: seq<string>)
    ensures errs == [] <==> ValidLocation(l)
    ensures at + "lat" in errs <==> !RealWithin(l.lat, -90.0, 90.0)
    ensures at + "lng" in errs <==> !RealWithin(l.lng, -180.0, 180.0)
    ensures forall e :: e in errs ==> e == at + "lat" || e == at + "lng"
  {
    assert (at + "lat")[|at| + 1] != (at + "lng")[|at| + 1];
    Check(RealWithin(l.lat, -90.0, 90.0), at + "lat") + Check(RealWithin(l.lng, -180.0, 180.0), at + "lng")
  }

  function VitalsErrors(v: Vitals, at: string): (errs: seq<string>)
    ensures errs == [] <==> ValidVitals(v)
    ensures at + "heartRate" in errs <==> !IntWithin(v.heartRate, 30, 200)
    ensures at + "oxygenLevel" in errs <==> !IntWithin(v.oxygenLevel, 50, 100)
  {
    assert (at + "heartRate")[|at|] != (at + "oxygenLevel")[|at|];
    Check(IntWithin(v.heartRate, 30, 200), at + "heartRate") + Check(IntWithin(v.oxygenLevel, 50, 100), at + "oxygenLevel")
  }

  /** A triage form is accepted exactly when no field is reported. */
  function TriageInputErrors(t: TriageInput): (errs: seq<string>)
    ensures errs == [] <==> ValidTriageInput(t)
    ensures t.location.None? ==> errs == VitalsErrors(t.vitals, "vitals.")
  {
    VitalsErrors(t.vitals, "vitals.") + (if t.location.Some? then LocationErrors(t.location.value, "location.") else [])
  }

  function EmergencyRequestErrors(e: EmergencyRequest): (errs: seq<string>)
    ensures errs == [] <==> ValidEmergencyRequest(e)
  {
    LocationErrors(e.location, "location.")
  }

  /** A request whose location carries null coordinates is still valid. */
  lemma NullCoordinatesAccepted(e: EmergencyRequest)
    requires e.location == LocationData(None, None)
    ensures ValidEmergencyRequest(e)
  {
  }
}
