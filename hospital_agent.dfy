/**
 * The hospital agent: filters the hospital table by bed availability (which bed
 * category depends on the severity) and by the required specialists, asks the
 * route provider for each survivor's distance and ETA (dropping the ones whose
 * lookup fails), ranks them by distance and then by total free beds, and keeps
 * the first five.
 */
module HospitalAgent {
  import opened Wrappers
  import opened Records
  import opened Messages
  import opened StableSort

  const DID := "did:zynd:agent_hospital_xyz789"

  /** How many candidates the agent returns at most. */
  const MAX_CANDIDATES := 5

  /** The bed filter: RED needs an ICU bed, YELLOW an emergency bed, any other severity nothing. */
  predicate BedsAvailable(severity: string, h: Hospital) {
    if severity == "RED" then h.icuBedsAvailable >= 1
    else if severity == "YELLOW" then h.emergencyBedsAvailable >= 1
    else true
  }

  /** The hospital lists every required specialist. */
  predicate HasSpecialists(required: seq<string>, h: Hospital) {
    forall spec :: spec in required ==> spec in h.specialists
  }

  predicate Eligible(severity: string, required: seq<string>, h: Hospital) {
    BedsAvailable(severity, h) && HasSpecialists(required, h)
  }

  /** The copy of `h` extended with `distance_km`, `eta_minutes` and `has_specialists`. */
  function Annotate(h: Hospital, info: RouteInfo): Candidate {
    Candidate(h, info.distanceKm, info.durationMin, true)
  }

  /** The ranking key: distance ascending, then total free beds descending. */
  function RankKey(c: Candidate): SortKey {
    SortKey(c.distanceKm, -(c.hospital.icuBedsAvailable + c.hospital.emergencyBedsAvailable) as real)
  }

  function HospitalId(c: Candidate): string {
    c.hospital.id
  }

  /** The list the loop accumulates: every eligible, reachable hospital, annotated, in table order. */
  function Suitable(severity: string, location: Origin, required: seq<string>, db: seq<Hospital>, route: RouteProvider)
    : (r: seq<Candidate>)
    ensures |r| <= |db|
  {
    if db == [] then []
    else
      var rest := Suitable(severity, location, required, db[..|db| - 1], route);
      var h := db[|db| - 1];
      var info := route(location, h.coords);
      if Eligible(severity, required, h) && info.Some? then rest + [Annotate(h, info.value)] else rest
  }

  /** The agent's answer: the first five of the stably sorted suitable list. */
  function SelectCandidates(severity: string, location: Origin, required: seq<string>, db: seq<Hospital>, route: RouteProvider)
    : (r: seq<Candidate>)
    ensures |r| == Min(MAX_CANDIDATES, |Suitable(severity, location, required, db, route)|)
    ensures |r| <= |db|
  {
    var s := Suitable(severity, location, required, db, route);
    var ranked := Sort(s, RankKey);
    SortPermutes(s, RankKey);
    assert |ranked| == |multiset(ranked)| == |s|;
    ranked[..Min(MAX_CANDIDATES, |ranked|)]
  }

  /**
   * A candidate is suitable exactly when it is the annotated copy of a table entry
   * that passes both filters and whose route lookup succeeded. A failed lookup
   * therefore removes that one hospital and nothing else.
   */
  lemma {:induction false} SuitableMembers(severity: string, location: Origin, required: seq<string>, db: seq<Hospital>, route: RouteProvider, c: Candidate)
    ensures c in Suitable(severity, location, required, db, route) <==>
      exists i :: 0 <= i < |db| && Eligible(severity, required, db[i]) && route(location, db[i].coords).Some?
                  && c == Annotate(db[i], route(location, db[i].coords).value)
  {
    if db != [] {
      var p := db[..|db| - 1];
      SuitableMembers(severity, location, required, p, route, c);
      if c in Suitable(severity, location, required, db, route) {
        if c !in Suitable(severity, location, required, p, route) {
          assert c == Annotate(db[|db| - 1], route(location, db[|db| - 1].coords).value);
        } else {
          var i :| 0 <= i < |p| && Eligible(severity, required, p[i]) && route(location, p[i].coords).Some?
                   && c == Annotate(p[i], route(location, p[i].coords).value);
          assert db[i] == p[i];
        }
      } else {
        forall i | 0 <= i < |db| && Eligible(severity, required, db[i]) && route(location, db[i].coords).Some?
          ensures c != Annotate(db[i], route(location, db[i].coords).value)
        {
          if i < |p| {
            assert db[i] == p[i];
          }
        }
      }
    }
  }

  /** Distinct ids in the table give distinct ids among the suitable hospitals. */
  lemma {:induction false} SuitableDistinct(severity: string, location: Origin, required: seq<string>, db: seq<Hospital>, route: RouteProvider)
    requires forall i, j :: 0 <= i < j < |db| ==> db[i].id != db[j].id
    ensures DistinctBy(Suitable(severity, location, required, db, route), HospitalId)
  {
    if db != [] {
      var p := db[..|db| - 1];
      var rest := Suitable(severity, location, required, p, route);
      SuitableDistinct(severity, location, required, p, route);
      forall k | 0 <= k < |rest| ensures rest[k].hospital.id != db[|db| - 1].id {
        SuitableMembers(severity, location, required, p, route, rest[k]);
        var i :| 0 <= i < |p| && Eligible(severity, required, p[i]) && route(location, p[i].coords).Some?
                 && rest[k] == Annotate(p[i], route(location, p[i].coords).value);
        assert db[i] == p[i];
      }
    }
  }

  /** Every returned candidate is one of the suitable ones. */
  lemma SelectedAreSuitable(severity: string, location: Origin, required: seq<string>, db: seq<Hospital>, route: RouteProvider, c: Candidate)
    requires c in SelectCandidates(severity, location, required, db, route)
    ensures c in Suitable(severity, location, required, db, route)
  {
    var s := Suitable(severity, location, required, db, route);
    var ranked := Sort(s, RankKey);
    SortPermutes(s, RankKey);
    assert c in ranked;
    assert c in multiset(ranked);
  }

  /**
   * What the agent promises about its answer: at most five candidates, each an
   * annotated copy of a table entry that passes the bed and specialist filters and
   * was reachable; ranked by distance and then by free beds; no hospital twice
   * when the table's ids are distinct; and all of the suitable ones when there are
   * at most five of them.
   */
  lemma {:induction false} SelectCandidatesSpec(severity: string, location: Origin, required: seq<string>, db: seq<Hospital>, route: RouteProvider)
    ensures var r := SelectCandidates(severity, location, required, db, route);
      && |r| <= MAX_CANDIDATES
      && |r| == Min(MAX_CANDIDATES, |Suitable(severity, location, required, db, route)|)
      && (forall c :: c in r ==> exists i :: (0 <= i < |db| && c.hospital == db[i]
            && route(location, db[i].coords).Some?
            && c == Annotate(db[i], route(location, db[i].coords).value)))
      && (forall c :: c in r ==> BedsAvailable(severity, c.hospital) && HasSpecialists(required, c.hospital))
      && (forall c :: c in r ==> c.hasSpecialists)
      && (forall i, j :: 0 <= i < j < |r| ==>
            r[i].distanceKm < r[j].distanceKm
            || (r[i].distanceKm == r[j].distanceKm
                && r[i].hospital.icuBedsAvailable + r[i].hospital.emergencyBedsAvailable
                   >= r[j].hospital.icuBedsAvailable + r[j].hospital.emergencyBedsAvailable))
      && ((forall i, j :: 0 <= i < j < |db| ==> db[i].id != db[j].id) ==> DistinctBy(r, HospitalId))
      && (|Suitable(severity, location, required, db, route)| <= MAX_CANDIDATES ==>
            multiset(r) == multiset(Suitable(severity, location, required, db, route)))
  {
    var s := Suitable(severity, location, required, db, route);
    var ranked := Sort(s, RankKey);
    var r := SelectCandidates(severity, location, required, db, route);
    SortSorted(s, RankKey);
    SortPermutes(s, RankKey);
    forall c | c in r
      ensures exists i :: (0 <= i < |db| && c.hospital == db[i]
            && route(location, db[i].coords).Some?
            && c == Annotate(db[i], route(location, db[i].coords).value))
      ensures BedsAvailable(severity, c.hospital) && HasSpecialists(required, c.hospital)
    {
      SelectedAreSuitable(severity, location, required, db, route, c);
      SuitableMembers(severity, location, required, db, route, c);
    }
    forall i, j | 0 <= i < j < |r|
      ensures r[i].distanceKm < r[j].distanceKm
            || (r[i].distanceKm == r[j].distanceKm
                && r[i].hospital.icuBedsAvailable + r[i].hospital.emergencyBedsAvailable
                   >= r[j].hospital.icuBedsAvailable + r[j].hospital.emergencyBedsAvailable)
    {
      assert r[i] == ranked[i] && r[j] == ranked[j];
      assert KeyLe(RankKey(ranked[i]), RankKey(ranked[j]));
    }
    if forall i, j :: 0 <= i < j < |db| ==> db[i].id != db[j].id {
      SuitableDistinct(severity, location, required, db, route);
      SortKeepsDistinct(s, RankKey, HospitalId);
    }
    if |s| <= MAX_CANDIDATES {
      assert r == ranked;
    }
  }

  /**
   * Stability of the ranking: among candidates with equal distance and equal bed
   * total, the table order is kept.
   */
  lemma RankingStable(severity: string, location: Origin, required: seq<string>, db: seq<Hospital>, route: RouteProvider, k: SortKey)
    ensures WithKey(Sort(Suitable(severity, location, required, db, route), RankKey), RankKey, k)
         == WithKey(Suitable(severity, location, required, db, route), RankKey, k)
  {
    SortStable(Suitable(severity, location, required, db, route), RankKey, k);
  }

  /** One more table entry: the loop's accumulator grows by that entry's annotated copy, or not at all. */
  lemma SuitableStep(severity: string, location: Origin, required: seq<string>, db: seq<Hospital>, route: RouteProvider, i: nat)
    requires i < |db|
    ensures Suitable(severity, location, required, db[..i + 1], route) ==
      if Eligible(severity, required, db[i]) && route(location, db[i].coords).Some?
      then Suitable(severity, location, required, db[..i], route) + [Annotate(db[i], route(location, db[i].coords).value)]
      else Suitable(severity, location, required, db[..i], route)
  {
    assert db[..i + 1][..i] == db[..i];
  }

  /** Every returned candidate passed both filters and carries its own lookup result. */
  lemma SelectedReachable(severity: string, location: Origin, required: seq<string>, db: seq<Hospital>, route: RouteProvider, c: Candidate)
    requires c in SelectCandidates(severity, location, required, db, route)
    ensures BedsAvailable(severity, c.hospital) && HasSpecialists(required, c.hospital)
    ensures route(location, c.hospital.coords) == Some(RouteInfo(c.distanceKm, c.etaMinutes))
  {
    SelectedAreSuitable(severity, location, required, db, route, c);
    SuitableMembers(severity, location, required, db, route, c);
  }

  /**
   * `find_suitable_hospitals`: one pass over the table appending annotated copies,
   * an in-place stable sort, and a slice of the first five. The table itself is a
   * value and is left as it was.
   */
  method FindSuitableHospitals(severity: string, location: Origin, required: seq<string>, db: seq<Hospital>, route: RouteProvider)
    returns (result: seq<Candidate>)
    ensures result == SelectCandidates(severity, location, required, db, route)
    ensures |result| <= MAX_CANDIDATES
    ensures forall c :: c in result ==> BedsAvailable(severity, c.hospital) && HasSpecialists(required, c.hospital)
    ensures forall c :: c in result ==> route(location, c.hospital.coords) == Some(RouteInfo(c.distanceKm, c.etaMinutes))
  {
    var suitable: seq<Candidate> := [];
    var i := 0;
    while i < |db|
      invariant 0 <= i <= |db|
      invariant suitable == Suitable(severity, location, required, db[..i], route)
    {
      var h := db[i];
      SuitableStep(severity, location, required, db, route, i);
      if severity == "RED" && h.icuBedsAvailable < 1 {
        i := i + 1;
        continue;
      } else if severity == "YELLOW" && h.emergencyBedsAvailable < 1 {
        i := i + 1;
        continue;
      }
      var hasSpecialists := forall spec :: spec in required ==> spec in h.specialists;
      if !hasSpecialists {
        i := i + 1;
        continue;
      }
      var info := route(location, h.coords);
      if info.None? {
        i := i + 1;
        continue;
      }
      var copy := Candidate(h, info.value.distanceKm, info.value.durationMin, hasSpecialists);
      suitable := suitable + [copy];
      i := i + 1;
    }
    assert db[..|db|] == db;
    var ranked := SortInPlace(suitable, RankKey);
    result := ranked[..Min(MAX_CANDIDATES, |ranked|)];
    forall c | c in result
      ensures BedsAvailable(severity, c.hospital) && HasSpecialists(required, c.hospital)
      ensures route(location, c.hospital.coords) == Some(RouteInfo(c.distanceKm, c.etaMinutes))
    {
      SelectedReachable(severity, location, required, db, route, c);
    }
  }

  /** `execute`: unpacks `severity`, `location`, `required_specialists` and `hospital_db` and forwards them unchanged. */
  function Execute(route: RouteProvider, payload: Payload): (r: Outcome)
    ensures payload.HospitalCall? ==>
      r == Ok(Candidates(SelectCandidates(payload.severity, payload.location, payload.requiredSpecialists, payload.hospitalDb, route)))
    ensures !payload.HospitalCall? ==> r == Err(KeyError("severity"))
  {
    match payload
    case HospitalCall(severity, location, required, db) =>
      Ok(Candidates(SelectCandidates(severity, location, required, db, route)))
    case _ => Err(KeyError("severity"))
  }

  /** The handler registered under `DID`: an awaitable wrapper around `execute`. */
  function Handler(route: RouteProvider): Messages.Handler {
    payload => Awaitable(Execute(route, payload))
  }
}
