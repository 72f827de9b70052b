# Golden Hour emergency pipeline: a Dafny model

This project models the backend case pipeline of the Golden Hour emergency-response
service. A reported emergency is triaged, hospitals are filtered and ranked as
candidates, one hospital is picked by travel time, and an alert is queued for it.
The stages talk to each other through a string-keyed capability registry (the mock
Zynd registry).

The model covers:

- **Candidate selection** (`HospitalAgent`): the filter loop over the hospital
  table (bed test by severity, specialist test, per-hospital route lookup), the
  stable sort by (distance, −total beds), and truncation to five.
- **Route evaluation** (`RoutingAgent`): the lookup loop, the stable sort by
  duration, and the head of the sorted list (or `None`).
- **The capability registry** (`MockZynd`): a class whose handler map is updated
  by `RegisterAgent`, and a read-only `Call`. `Registration` holds the module-level
  registrations each agent performs.
- **The two orchestrators**:
  - `Orchestrator` is the main one. Its method records the registry calls it makes
    as a ghost trace and queues the alert on a `BackgroundTasks` object.
  - `EventHandler` is the lightweight event one, a pure composition.
- **The alert** (`NotificationAgent`): the subject and body, and the single email
  handed to the sender.
- **The HTTP endpoints** (`Routes`): triage of the frontend form (symptom
  splitting, emergency id), the hospital listing, `/notify`, `/emergency` and
  `/hospitals`. The Python string operations they rely on are modelled in
  `PyText`.
- **The request models** (`Schemas`): field-range predicates and validators.
- **The fixed hospital table** (`Database`). `Scenarios` proves concrete facts
  about the table, including both ranking-versus-assignment discrepancies.

Modelling conventions:

- **Dictionaries** become datatypes (`Records`, `Messages`). An absent key is
  `None`. A handler given the wrong payload variant fails with the `KeyError` its
  dictionary lookup raises.
- **Floats** (coordinates, distances, durations) are `real`.
- **External services** are parameters:
  - the route lookup `maps_service.get_route_details` is a total function
    `RouteProvider` returning `Option<RouteInfo>`;
  - the reverse-geocoded address is a string parameter;
  - the triage agent is either a registered handler or a function `Triage` that
    may raise.
- **Async handlers** are modelled by `Completion`. A handler answers
  `Ready(value)` (synchronous) or `Awaitable(value)`, and `Await` gives the single
  value the caller observes.
- **Background work** is an append to `BackgroundTasks.tasks`. Queued tasks are
  never run.

Behaviour of the code that a reader might not expect, and that the model keeps:

- `/emergency` reports "no reachable hospital" as a 500, not a 404. Its `except`
  clause (backend/src/api/routes.py:207-208) catches the 404 raised inside it and
  re-raises it, so the detail is `Emergency creation failed: 404: No reachable hospitals found`.
- `/emergency` picks its hospital among the whole table, before and apart from
  the candidate ranking, whereas the orchestrator (backend/src/orchestrator/orchestrator.py:59-71)
  routes among the ranked candidates only. `Scenarios.AssignmentOutsideCandidates`
  shows a critical case that `/emergency` assigns to a hospital the ranking never offers.
- The event handler calls the notification stage even when routing found nothing.
  The alert then fails reading `route_info` from `None`. Nothing is caught, so
  that failure reaches the caller.
- Only the exact strings "RED" and "YELLOW" trigger a bed test. Any other severity
  string, "GREEN" or a lowercase "red" included, is not filtered.
- The address lookup has no fallback in the code. It is taken as a given string.
- An unbound DID raises a plain `ValueError` with the message "Agent with DID … not registered"; there is no dedicated unknown-capability error.

## Model

| member | source | states |
|---|---|---|
| `StableSort.SortPermutes` | backend/src/agents/hospital_agent.py:54-60 | sorting a list yields a permutation of it (same multiset) |
| `StableSort.SortSorted` | backend/src/agents/hospital_agent.py:54-60 | the sorted list is ordered by its key, compared as a tuple |
| `StableSort.SortStable` | backend/src/agents/hospital_agent.py:54-60 | elements with equal keys keep their input order (Python's sort is stable) |
| `StableSort.SortHead` | backend/src/agents/routing_agent.py:22-27 | the head of the sorted list is the first element of minimal key |
| `StableSort.SortKeepsDistinct` | backend/src/agents/hospital_agent.py:54-62 | sorting keeps elements distinct by a projection (ids stay unique) |
| `StableSort.SortInPlace` | backend/src/agents/hospital_agent.py:54-60 | the in-place insertion sort of a list leaves exactly the stable sort of the input |
| `HospitalAgent.Suitable` | backend/src/agents/hospital_agent.py:22-52 | the accumulated list never has more entries than the table |
| `HospitalAgent.SuitableMembers` | backend/src/agents/hospital_agent.py:24-52 | a candidate is accumulated iff it is the copy of a table record that passes the severity bed test and the specialist test and whose lookup succeeded, extended with that lookup's distance and ETA and `has_specialists = true` |
| `HospitalAgent.SuitableDistinct` | backend/src/agents/hospital_agent.py:24-52 | with distinct ids in the table, no hospital is accumulated twice |
| `HospitalAgent.SuitableStep` | backend/src/agents/hospital_agent.py:24-52 | one more table record grows the accumulated list by its annotated copy exactly when it passes both filters and its lookup succeeds, and leaves it unchanged otherwise |
| `HospitalAgent.SelectedAreSuitable` | backend/src/agents/hospital_agent.py:54-62 | every returned candidate passed every filter and its lookup |
| `HospitalAgent.SelectedReachable` | backend/src/agents/hospital_agent.py:24-62 | every returned candidate passes the bed and specialist tests and its distance and ETA are exactly what its lookup returned |
| `HospitalAgent.SelectCandidatesSpec` | backend/src/agents/hospital_agent.py:24-62 | the result has at most 5 elements and exactly min(5, n) of the n survivors; each is a copy of an input record carrying its own lookup's distance and ETA; RED implies an ICU bed, YELLOW an emergency bed; all required specialists are present; the list is ordered by distance then bed sum descending; ids are distinct; with n ≤ 5 it is a permutation of the survivors |
| `HospitalAgent.SelectCandidates` | backend/src/agents/hospital_agent.py:54-62 | the returned list has exactly min(5, n) entries for the n accumulated survivors, hence never more than the table |
| `HospitalAgent.RankingStable` | backend/src/agents/hospital_agent.py:54-60 | candidates with the same distance and bed sum keep table order |
| `HospitalAgent.FindSuitableHospitals` | backend/src/agents/hospital_agent.py:15-62 | the filter/lookup loop followed by the sort and `[:5]` returns the first min(5, n) ranked survivors; at most 5; every result passes the filters and carries its lookup result |
| `HospitalAgent.Execute` | backend/src/agents/hospital_agent.py:64-70 | severity, location, required specialists and table are forwarded unchanged; any other payload fails with `KeyError('severity')` |
| `RoutingAgent.Evaluate` | backend/src/agents/routing_agent.py:10-20 | no more entries than input hospitals, each carrying exactly the route info its own lookup returned |
| `RoutingAgent.BestHospital` | backend/src/agents/routing_agent.py:22-27 | `None` exactly when no lookup succeeded; a pick carries exactly the route info its own lookup returned |
| `RoutingAgent.BestHospitalStep` | backend/src/agents/routing_agent.py:13-27 | appending a hospital changes the pick iff it is reachable and strictly faster than the current pick, so the earliest of equally fast hospitals wins |
| `RoutingAgent.BestHospitalSpec` | backend/src/agents/routing_agent.py:13-27 | the result is `None` iff no lookup succeeds (empty input included); otherwise it is input hospital i with its own route info, no slower than any reachable hospital and strictly faster than every reachable one before i |
| `RoutingAgent.EvaluatedFromInput` | backend/src/agents/routing_agent.py:13-20 | every evaluated entry is an input hospital with its own lookup result |
| `RoutingAgent.BestFromInput` | backend/src/agents/routing_agent.py:17-27 | a non-`None` pick is an input hospital whose lookup returned exactly its `route_info` |
| `RoutingAgent.FindBestHospital` | backend/src/agents/routing_agent.py:9-27 | the lookup loop, in-place sort and head compute the pick above; `None` iff every lookup fails; a pick is an input hospital with its lookup result |
| `RoutingAgent.Execute` | backend/src/agents/routing_agent.py:29-32 | `emergency_location` and `hospitals` are forwarded unchanged; any other payload fails with `KeyError('emergency_location')` |
| `MockZynd.Invoke` | backend/src/zynd/mock_zynd.py:15-22 | an unbound DID raises `ValueError("Agent with DID <did> not registered")`; a bound one yields the single value its handler completes with |
| `MockZynd.MockZyndRegistry.constructor` | backend/src/zynd/mock_zynd.py:9-10 | a fresh registry binds no DID |
| `MockZynd.MockZyndRegistry.RegisterAgent` | backend/src/zynd/mock_zynd.py:12-13 | the DID is bound to the new handler (last write wins); no other binding changes |
| `MockZynd.MockZyndRegistry.Call` | backend/src/zynd/mock_zynd.py:15-22 | an unbound DID raises `ValueError("Agent with DID … not registered")`; otherwise the result is the single value the handler completes with, sync or awaitable; the map is not modified |
| `MockZynd.EmptyRegistryRejects` | backend/src/zynd/mock_zynd.py:9-17 | calling any DID on a fresh registry fails |
| `MockZynd.CallAfterRegister` | backend/src/zynd/mock_zynd.py:12-22 | after registering h under d, calling d yields what h(p) completes with |
| `MockZynd.LastWriteWins` | backend/src/zynd/mock_zynd.py:13 | registering a DID twice behaves as registering only the later handler |
| `MockZynd.RegisterIsolated` | backend/src/zynd/mock_zynd.py:13 | registering d leaves what every other DID answers unchanged |
| `Registration.RegisterAgents` | backend/src/agents/hospital_agent.py:75-79 | the registry afterwards is the old one with the triage DID bound to the triage handler and the hospital, routing and notification DIDs bound to those agents' handlers (in that order, last write wins), every other binding unchanged; so it answers for each agent's DID as that agent's `execute` does |
| `NotificationAgent.Subject` | backend/src/agents/notification_agent.py:11-13 | the subject is "URGENT: Incoming Emergency - " followed by the severity, or "UNKNOWN" when it is absent |
| `NotificationAgent.Body` | backend/src/agents/notification_agent.py:14-23 | the body shows severity and description as given, or "None" when absent; the address, or "GPS Coords Only" when absent; and the routed hospital's duration and distance |
| `NotificationAgent.SendEmergencyAlert` | backend/src/agents/notification_agent.py:10-31 | without a routed hospital the alert fails before sending, with `TypeError`; otherwise exactly one email goes to `contact_email`, with that subject and the body `Body` gives for the emergency data and the hospital's route info (severity, description, the address or 'GPS Coords Only' only when it is absent, route duration and distance), and the reply is `{"status": "alerts_sent"}` |
| `NotificationAgent.Execute` | backend/src/agents/notification_agent.py:36-39 | the handler unpacks `emergency_data` and `hospital_data`; a missing `emergency_data` is a `KeyError`, and hospital data without route info fails |
| `Orchestrator.RoutingCandidates` | backend/src/orchestrator/orchestrator.py:59-62 | the routing candidates are the id/name/coords projection of the top hospitals, same length and order |
| `Orchestrator.TriagePayload` | backend/src/orchestrator/orchestrator.py:30-34 | the triage stage gets exactly the request's symptoms, vitals and age |
| `Orchestrator.EmergencyOrchestrator.constructor` | backend/src/orchestrator/orchestrator.py:20-24 | the orchestrator addresses the hospital, routing and notification agents by their DIDs |
| `Orchestrator.EmergencyOrchestrator.HandleEmergency` | backend/src/orchestrator/orchestrator.py:26-105 | stages run triage, then hospitals, then routing, each at most once and only after the previous succeeded, and a stage that raises ends the case with its exception. Triage gets exactly symptoms/vitals/age. The hospital stage is called iff triage answered with a severity and a specialist list, and otherwise the case fails with `severity` or `recommended_specialists`; it gets them, the request coordinates and the table. Routing is called iff the candidate list is non-empty; an empty one is a 404. Routing gets the projection of the candidates. A `None` routing result is a 404 and nothing is queued; a missing priority is a `KeyError` and nothing is queued; otherwise exactly one alert is queued, with the triage severity/priority, the request description/contact and the address, and the case succeeds iff the reply is a routed hospital. Nothing is queued before routing answers. The response carries the routed name and duration and the candidates unchanged. With the agents' own handlers the candidates are the ranking and the assigned hospital is one of them |
| `Orchestrator.AssignedAmongCandidates` | backend/src/orchestrator/orchestrator.py:59-71 | when routing answers the projected candidates, the routed hospital is one of those projections and carries its own lookup result |
| `Orchestrator.WiredAssignment` | backend/src/orchestrator/orchestrator.py:44-71 | with the agents' own handlers, the hospital stage's reply is the ranking of its request, and the routed hospital is one of those candidates |
| `Orchestrator.ProjectedFromCandidate` | backend/src/orchestrator/orchestrator.py:59-62 | every routing target carries the name of a candidate it was projected from |
| `Background.BackgroundTasks.AddTask` | backend/src/orchestrator/orchestrator.py:87-94 | queuing appends the task and keeps what was queued before |
| `EventHandler.RoutingPayload` | backend/src/orchestrator/event_handler.py:32-38 | routing gets the event's location and its candidate hospitals, or `[]` when the event has none |
| `EventHandler.AlertData` | backend/src/orchestrator/event_handler.py:44-50 | `emergency_data` carries the triage severity and priority, the contact email, and description/address defaulting to "" when absent |
| `EventHandler.HandleEvent` | backend/src/orchestrator/event_handler.py:22-60 | triage gets the whole event; routing gets the event's location and candidates (default `[]`) after any successful triage; the notification is called iff routing answered and triage graded the case (severity and priority), with the triage verdict and the routing reply whatever it is, with no guard; otherwise reading the verdict fails with `severity` (reply of the wrong shape or missing key) or `priority` (missing key); stages run in that order at most once each; success echoes the id and the three replies; any failure is the first exception raised |
| `EventHandler.UnroutedEventStillNotifies` | backend/src/orchestrator/event_handler.py:31-53 | with the agents' handlers, a graded event with no reachable candidate still calls the notification stage with routing's `None`, and the run fails there |
| `EventHandler.RoutedEventAlerts` | backend/src/orchestrator/event_handler.py:40-60 | with the agents' handlers, a graded event with a reachable candidate returns the replies, including exactly one email to the event's contact timed by the routed hospital |
| `Schemas.LocationErrors` | backend/src/models/schemas.py:5-8 | a location is valid iff each present coordinate lies in [-90, 90] (lat) or [-180, 180] (lng); absent coordinates are allowed; the lat error is reported iff lat is out of range, the lng error iff lng is, so both are named when both are invalid, and nothing else is reported |
| `Schemas.VitalsErrors` | backend/src/models/schemas.py:11-14 | vitals are valid iff a present heart rate lies in [30, 200] and a present oxygen level in [50, 100]; blood pressure is unconstrained |
| `Schemas.TriageInputErrors` | backend/src/models/schemas.py:17-26 | a triage form is valid iff its vitals are and, when present, its location is; an absent location adds no error |
| `Schemas.EmergencyRequestErrors` | backend/src/models/schemas.py:29-36 | an emergency request is valid iff its (required) location is |
| `Schemas.NullCoordinatesAccepted` | backend/src/models/schemas.py:29-31 | a request whose location object has null lat and lng is still valid |
| `Database.TableShape` | backend/src/database/db.py:1-26 | the table has exactly three records, with distinct ids |
| `Scenarios.RedExcludesCityGeneral` | backend/src/database/db.py:19-25 | whatever the roads, City General (0 ICU beds) is never a candidate for a RED case |
| `Scenarios.SameBedTest` | backend/src/agents/hospital_agent.py:25-28 | two severities whose bed tests agree on every record accumulate the same candidates |
| `Scenarios.YellowTestExcludesNone` | backend/src/database/db.py:1-26 | every record has an emergency bed, so YELLOW ranks exactly as an unfiltered severity |
| `Scenarios.CardiologistCandidates` | backend/src/database/db.py:8-24 | only Max Saket and AIIMS Trauma Center can be candidates when a cardiologist is required |
| `Scenarios.CityGeneralLacksCardiologist` | backend/src/database/db.py:19-25 | City General fails the specialist test when a cardiologist is required |
| `Scenarios.AssignmentOutsideCandidates` | backend/src/api/routes.py:176-186 | there are roads under which `/emergency` assigns City General to a RED case although no RED ranking contains it |
| `Scenarios.NearestRanking` | backend/src/agents/hospital_agent.py:54-62 | under roads where table order is distance order, the ranking is the whole table in that order |
| `Scenarios.SuitableThree` | backend/src/agents/hospital_agent.py:24-52 | under those roads every record survives, annotated with its own route, in table order |
| `Scenarios.RankedThree` | backend/src/agents/hospital_agent.py:54-60 | candidates already in strictly increasing distance keep their order in the ranking |
| `Scenarios.EvaluatedThree` | backend/src/agents/routing_agent.py:13-20 | under those roads all three projected hospitals are reachable, in input order |
| `Scenarios.SortedThree` | backend/src/agents/routing_agent.py:22 | the duration sort of hospitals timed 30, 10 and 20 minutes is 10, 20, 30 |
| `Scenarios.NearestIsNotAssigned` | backend/src/orchestrator/orchestrator.py:44-71 | the top-ranked (nearest) candidate need not be the one routing assigns, because ranking is by distance and the pick is by travel time |
| `PyText.Split` | backend/src/api/routes.py:67 | `str.split(sep)` yields one piece more than there are separators, and no piece contains the separator |
| `PyText.SplitJoin` | backend/src/api/routes.py:67 | joining the pieces with the separator gives back the original string |
| `PyText.SplitAtSeparator` | backend/src/api/routes.py:67 | the text before the first separator is the first piece, and the rest splits on its own |
| `PyText.SplitWithoutSeparator` | backend/src/api/routes.py:67 | a string without the separator splits into itself alone |
| `PyText.Strip` | backend/src/api/routes.py:67 | the result is a slice `s[a..b]` of the input with only whitespace before `a` and after `b`, and it neither starts nor ends with whitespace: the input minus its leading and trailing whitespace |
| `PyText.StripTrimmed` | backend/src/api/routes.py:67 | stripping leaves a string with no whitespace at either end unchanged |
| `PyText.StripBlank` | backend/src/api/routes.py:67 | an all-whitespace string strips to "" |
| `PyText.StripIdempotent` | backend/src/api/routes.py:67 | stripping twice is stripping once |
| `PyText.Replace` | backend/src/api/routes.py:80 | replacing a character changes exactly its occurrences, so none is left |
| `PyText.Lower` | backend/src/api/routes.py:80 | same length; an upper-case letter becomes its lower-case letter (code + 32); every other character is unchanged; no upper-case letter is left |
| `PyText.IntToString` | backend/src/api/routes.py:80 | the decimal text of an integer: a '-' iff it is negative, then one or more decimal digits without a leading zero; so it contains no underscore and no space |
| `PyText.ParseIntToString` | backend/src/api/routes.py:80 | parsing the decimal text of an integer gives the integer back |
| `PyText.AfterLastSeparator` | backend/src/api/routes.py:80 | the text after the last separator is whatever follows it, regardless of the prefix |
| `PyText.Title` | backend/src/api/routes.py:114 | title-casing keeps letters as letters and other characters as they are, and changes letter case only; each word's first letter is capital and the rest lower case |
| `PyText.TitleIdempotent` | backend/src/api/routes.py:114 | title-casing a title-cased string changes nothing |
| `PyText.TitleKeepsLetters` | backend/src/api/routes.py:114 | title-casing changes letter case only |
| `Routes.SplitSymptoms` | backend/src/api/routes.py:67 | the symptom list has one entry more than the commas, each the stripped piece, with no comma and no surrounding whitespace |
| `Routes.BlankSymptomKept` | backend/src/api/routes.py:67 | a blank piece between two commas survives as an empty symptom, and its neighbours keep their places |
| `Routes.FormTriageInput` | backend/src/api/routes.py:66-74 | the triage input holds the split and stripped symptoms, exactly the three snake-case vitals keys with the form's values, and the age |
| `Routes.Slug` | backend/src/api/routes.py:80 | the name with every space replaced by an underscore and every other character lower-cased: same length, no space, no capital |
| `Routes.EmergencyId` | backend/src/api/routes.py:80 | the id is "emer_", the slug of the name, "_", then the decimal age |
| `Routes.EmergencyIdAge` | backend/src/api/routes.py:80 | the age is recovered by parsing the text after the id's last underscore |
| `Routes.Describe` | backend/src/api/routes.py:89-90 | `str(e)` of a `KeyError` is its key in single quotes; of a `TypeError` or `ValueError` its message; of an `HTTPException` its status code, ": ", then its detail |
| `Routes.SeverityOrDefault` | backend/src/api/routes.py:85 | the reported severity is triage's, or "medium" when absent |
| `Routes.FirstSpecialty` | backend/src/api/routes.py:86 | the recommended specialty is the first recommended specialist, or "General" when the list is missing or empty |
| `Routes.TriageEmergency` | backend/src/api/routes.py:61-90 | a triage failure becomes a 500 "Triage failed: …"; otherwise the response carries the emergency id, the defaulted severity and specialty, and a response time of 15 |
| `Routes.Readable` | backend/src/api/routes.py:114 | a specialist key shown to people: every underscore becomes a space, every other character is the same letter up to case, no underscore is left, every word starts with a capital and the rest of each word is lower case |
| `Routes.Entry` | backend/src/api/routes.py:101-116 | an entry copies the record's id, name and coordinates, has mock distance 5.0 + 2.5·idx and ETA 12 + 5·idx, the ICU plus emergency bed total, each specialty made readable, and is recommended iff idx is 0 |
| `Routes.Listing` | backend/src/api/routes.py:97-120 | one entry per record, in table order, only the first recommended |
| `Routes.ListingShape` | backend/src/api/routes.py:99-120 | one entry per record in table order, with its id, name, coordinates, bed total and readable specialties; the mock distance and ETA strictly increase with the position; only the first entry is recommended |
| `Routes.ListHospitals` | backend/src/api/routes.py:97-120 | the enumerate loop builds exactly the listing of the table |
| `Routes.GetHospitalsByEmergency` | backend/src/api/routes.py:93-120 | the answer is the listing of the fixed table whatever the emergency id: three entries, the first (Max Saket) recommended |
| `Routes.NotifyHospital` | backend/src/api/routes.py:141-155 | the request succeeds iff both `hospitalId` and `emergencyId` are present and truthy, echoing them; otherwise 400 "Missing hospitalId or emergencyId" |
| `Routes.CreateEmergency` | backend/src/api/routes.py:159-208 | every failure is a 500 and queues nothing. A triage failure carries its text. No reachable hospital in the whole table gives 500 "Emergency creation failed: 404: No reachable hospitals found". With a reachable hospital, a triage reply missing `severity`, then `recommended_specialists`, then `priority` gives 500 "Emergency creation failed: 'severity'" (resp. the other key, quoted). On success the assignment is the fastest hospital of the whole table, the candidates are the ranking, and exactly one alert is queued for the assignment. A graded case with a reachable hospital always succeeds |
| `Routes.GetHospitals` | backend/src/api/routes.py:211-226 | the answer is the candidate ranking for the requested severity and specialists over the table, at most 5 |

## Left out

- Floating point: coordinates, distances and durations are exact reals, and `round(…, 1)` in the listing is exact because 5.0 + 2.5·idx has one decimal.
- The route lookup, the address lookup, the triage agent and the email sender are external. The route lookup is a total function parameter; the address is a string parameter and its own failures are not modelled; triage is an opaque handler or function; sending is recorded as the email handed over, and send failures are not modelled.
- `base_agent.py`, `triage_agent.py`, `maps_service.py` and `notification_service.py` are not part of this model.
- `uuid.uuid4()` and `datetime.utcnow()` are nondeterministic. The request id is a parameter. The `/notify` confirmation id and message text, and the `/status` endpoint (a constant reply with a timestamp), are left out; `NotifyHospital` returns the two ids the message would mention.
- Concurrency, `await` scheduling and running the queued background alert are not modelled. The model keeps the order of effects and what is queued.
- Python dictionaries can hold a key with value `None`. The model conflates that with an absent key, except where `.get` with a default is applied to a missing key.
- `HospitalAgent`'s `.get(…, 0)`, `.get("specialists", [])` and `.get("distance_km", 999)` defaults are not modelled: every hospital record has these fields.
- A reply of the wrong shape fed to a later stage raises `KeyError` or `TypeError` in Python. The model uses one `ShapeError`, so its text is not Python's.
- `PyText.Lower` and `PyText.Title`: case mapping covers the ASCII letters only; Python also maps other Unicode letters.
- Request validation by the web framework (the 422 reply and type coercion) is left out. The field bounds are the `Schemas` predicates and `Routes.ValidLocation`.
- The `except` around the hospital listing and around `/hospitals` is unreachable for the fixed table with a total route provider, so neither models a 500.
- The frontend, `main.py` and the websocket router are outside the backend core and not modelled.
- `NotificationAgent.Body`: the alert body is kept as its five field values (`AlertBody`); the f-string text around them, with its fixed labels, indentation and line breaks, and the rendering of the ETA and distance floats as text, is not modelled.
- Response wrappers: endpoints that wrap their result in a dictionary are modelled by the wrapped value. `Routes.GetHospitals` returns the candidate list itself, where the code returns `{"hospitals": [...]}`.
- Console output (the `print` calls in the event handler and the hospital listing, and the traceback print) has no effect on any result and is left out.
