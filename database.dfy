/** The fixed hospital table the backend ships with (`MOCK_HOSPITALS`). */
module Database {
  import opened Records

  const MOCK_HOSPITALS: seq<Hospital> := [
    Hospital("max_hospital_saket", "Max Hospital, Saket", Coords(28.5245, 77.2060), 5, 10,
             ["cardiologist", "trauma_surgeon"]),
    Hospital("aiims_trauma_center", "AIIMS Trauma Center", Coords(28.5650, 77.2060), 2, 5,
             ["cardiologist", "emergency_physician", "trauma_surgeon"]),
    Hospital("city_general", "City General Hospital", Coords(28.7041, 77.1025), 0, 5,
             ["general_physician"])
  ]

  predicate UniqueIds(hs: seq<Hospital>) {
    forall i, j :: 0 <= i < j < |hs| ==> hs[i].id != hs[j].id
  }

  /** The table has three records with distinct ids. */
  lemma TableShape()
    ensures |MOCK_HOSPITALS| == 3
    ensures UniqueIds(MOCK_HOSPITALS)
  {
  }
}
