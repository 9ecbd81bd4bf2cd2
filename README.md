# School-transport back office: live bus locations, expense ledger, parent tracking

A Dafny model of the three pieces of in-memory logic in the school-transport back office:

- **Live bus locations** (`main.py`). The Socket.IO server keeps a module-level dictionary
  `bus_locations` keyed by bus id. The `mobile_location_update` handler drops a payload whose
  `bus_id`, `lat` or `lng` is missing or falsy (so a coordinate of exactly 0 is dropped). Otherwise
  it stores `{lat: lat + 1, lng: lng + 1}` under the bus id, overwriting any earlier entry, and
  broadcasts the payload *as received*, so viewers see coordinates one less than the stored ones.
  The `disconnect` handler pops the entry keyed by the Socket.IO session id, which is not a bus id,
  so it normally removes nothing. `notify_trip_start` broadcasts a `trip_started` event on every
  call, with no once-per-trip gating, and returns a fixed success record.
  Module `BusTracking` holds the state as class `TrackingServer` (a `map` and an append-only event
  log). Each handler is a method proved against a pure function of the old state
  (`OnLocationUpdate`, `OnDisconnect`, `OnNotifyTripStart`); the properties are the contracts of
  those functions and lemmas about runs (sequences of handler calls, `Run`).
  Module `PyValue` writes out the Python semantics the handler depends on: a payload is a
  dictionary of JSON values, `data.get` yields `None` for a missing key, truthiness, `v + 1`
  (raises `TypeError` on strings, lists and dicts; `True + 1 == 2`) and dictionary-key equality
  (`1`, `1.0` and `True` are one key; lists and dicts are unhashable). A `TypeError` raised inside
  the handler is the outcome `TypeError`: nothing is stored and nothing is broadcast.
- **Expense ledger** (`routers/finance.py`). Module `Finance`: class `ExpenseLedger` over the
  module-level list, seeded with six records; `GetExpenses` returns the list, `AddExpense` appends
  and echoes the record.
- **Parent tracking lookup** (`routers/transport_parent.py`). Module `ParentTracking`: the
  student and bus tables, and the lookup student → bus with its two 404 errors. The random drift,
  ETA and status, and the timestamp, are inputs (`Draws` with the ranges the random calls produce).
  `TrackingInfoIn` takes the tables as parameters so that the "Bus not found" branch is reachable;
  `GetTrackingInfo` is the route over the seeded tables, where it is not.

The code has no range check on coordinates (only the truthiness test), no trip state machine
(every start notification broadcasts), the broadcast carries the unshifted payload while the store
holds the shifted one, and `disconnect` pops by session id rather than by the device's bus; the
model follows the code in each of these.

## Model

| member | source | states |
|---|---|---|
| `PyValue.PlusOne` | main.py:67-68 | `v + 1` succeeds exactly on numbers and bools and adds one to a number |
| `PyValue.KeyOf` | main.py:71 | a value can key the dictionary unless it is a list or dict; a string keys as itself |
| `PyValue.TruthyPlusOne` | main.py:62-68 | a coordinate that passes the guard and `+ 1` is a non-zero number or `True` (stored as 2) |
| `PyValue.BoolAndNumberShareKey` | main.py:71 | `True` and `1` name the same entry, `"1"` and `1` do not |
| `BusTracking.OnLocationUpdate` | main.py:58-74 | dropped iff a field fails the truthiness test; stored iff also `+ 1` and hashing succeed; otherwise state unchanged; when stored, the entry is the input shifted by one, only that key changes, and exactly one broadcast of the original payload is appended |
| `BusTracking.TrackingServer.MobileLocationUpdate` | main.py:57-74 | the handler's new map, log and outcome are those of `OnLocationUpdate` on the old state |
| `BusTracking.OnDisconnect` | main.py:86-89 | the session-id key is removed if present, every other entry and the log are unchanged |
| `BusTracking.TrackingServer.Disconnect` | main.py:85-89 | the handler's new state is `OnDisconnect` of the old one |
| `BusTracking.OnNotifyTripStart` | main.py:78-82 | locations unchanged, one `trip_started` event `{bus_id, "Trip has started!"}` appended, response `{success, "Bus <id> has started the trip."}` |
| `BusTracking.TrackingServer.NotifyTripStart` | main.py:78-82 | the route's new state and response are those of `OnNotifyTripStart` |
| `BusTracking.TrackingServer.constructor` | main.py:50 | the dictionary starts empty and nothing has been broadcast |
| `BusTracking.ZeroCoordinateRejected` | main.py:62-64 | a payload with `lat == 0` or `lng == 0` is dropped and leaves the state unchanged |
| `BusTracking.StoredDiffersFromBroadcast` | main.py:66-74 | after an accepted update the last event carries the payload as received while the stored coordinates are one more |
| `BusTracking.LastWriterWins` | main.py:71 | two accepted updates for one bus leave a single entry, equal to the second shifted input |
| `BusTracking.DisconnectIdempotent` | main.py:89 | disconnecting the same session twice equals disconnecting it once |
| `BusTracking.DisconnectWithoutMatchingKey` | main.py:89 | with no entry under the session id, disconnect is a no-op; numeric bus ids are never removed |
| `BusTracking.RunBroadcasts` | main.py:58-89 | over any run the log only grows, by exactly the events the calls emit, independent of the stored locations |
| `BusTracking.BroadcastsCountNotifies` | main.py:78-82 | the `trip_started` events a run emits are exactly as many as its `notify_start` calls |
| `BusTracking.EveryNotifyBroadcasts` | main.py:78-82 | after any run the log holds one more `trip_started` event per `notify_start` call, repeats included |
| `BusTracking.RepeatedNotify` | main.py:78-82 | `n` start notifications for one bus append `n` identical events and leave the locations alone |
| `BusTracking.RunEntry` | main.py:58-89 | after any run, the entry for bus `k` is decided by the calls naming `k` alone: the last accepted update for it, or a disconnect by that id |
| `BusTracking.UntouchedEntry` | main.py:71 | the per-key reference fold keeps an entry that no call changes |
| `BusTracking.RunWithoutKey` | main.py:58-89 | a run with no call naming `k` leaves the stored entry for `k` as it was |
| `Finance.ExpenseLedger.constructor` | routers/finance.py:16-59 | the ledger starts as the six seeded records in order |
| `Finance.ExpenseLedger.GetExpenses` | routers/finance.py:61-64 | returns the whole list in insertion order |
| `Finance.ExpenseLedger.AddExpense` | routers/finance.py:66-70 | the list becomes the old list plus `exp` at the end, one more occurrence of `exp` with no deduplication; the response is `{"Expense added successfully", exp}` |
| `Finance.AfterAddsAppends` | routers/finance.py:69 | successive adds keep earlier records in place and append the new ones in call order |
| `Finance.AddsAreCounted` | routers/finance.py:69 | no deduplication: each add of a record adds one occurrence |
| `Finance.AddTwice` | routers/finance.py:69 | adding one record twice yields two new entries |
| `ParentTracking.TrackingInfoIn` | routers/transport_parent.py:49-89 | unknown student iff 404 "Student not found"; known student with unknown bus iff 404 "Bus not found"; on success student, route, bus fields and driver come from the two records, the location is the stored one plus the drawn offsets, so each coordinate is within 0.002 of it; ETA is the draw, in [10, 25]; status is the drawn label, one of three |
| `ParentTracking.GetTrackingInfo` | routers/transport_parent.py:49-89 | over the seeded tables the lookup succeeds iff the student exists, fails only with "Student not found", and echoes the requested id |
| `ParentTracking.SeededStudentsHaveBuses` | routers/transport_parent.py:8-46 | every seeded student is stored under its own id and rides a seeded bus |
| `ParentTracking.TrackingAarav` | routers/transport_parent.py:8-89 | the seeded lookup of STU12345 yields bus B-27, its driver, the Madhapur route and a latitude within 0.002 of 17.448 |

## Left out

- Socket.IO transport, ASGI mounting, CORS middleware and the background scheduler (main.py:27-54, 91-93): I/O and process setup. A broadcast is an entry in the event log; delivery to clients is not modelled.
- Log output (`print`) of the handlers: it changes no state.
- Route registration: `router` is included into the app at main.py:13, before `notify_start` is declared on it at main.py:78, so the HTTP route is probably never served; the model covers what the function does when called.
- A Socket.IO payload that is not a dictionary (`data.get` would raise): payloads are modelled as dictionaries.
- Python's dictionary keeps the key object of the first insertion (`True` versus `1`) and its insertion order: the model keys by key equality only, as a Dafny `map`.
- Coordinates, drift and amounts are Dafny `real`: IEEE float rounding is not modelled, nor the special values `NaN` and `Infinity` that Python's JSON decoder accepts (both truthy; a `NaN` bus id never equals itself, so each update would add a fresh entry).
- `Finance.ExpenseLedger.GetExpenses` returns a value, while the source returns the live list object; aliasing of that list is not modelled (it is serialised into the response at once).
- The timestamp (`datetime.utcnow().isoformat()`) and the random draws are parameters of the lookup.
- routers/payment.py (payment-gateway SDK calls, HMAC signature check, float rounding), ai.py and routers/chat.py (language-model client wrappers), routers/osrm_route.py (HTTP call to a routing server): foreign code and I/O.
- routers/routes.py, routers/drivers.py, routers/students.py, routers/alerts.py and database.py: database CRUD through the ORM session; models.py and schemas.py hold declarations only.
- routers/trip_tracking.py is entirely commented out; routers/analytics.py returns a constant.
- A trip state machine, once-per-trip notification, coordinate range checks, per-vehicle ordering and locking: the code has none of these, so the model has none either.
