/**
 * The live bus-location store of the Socket.IO server: the module-level dictionary
 * `bus_locations`, the `mobile_location_update` and `disconnect` event handlers, and the
 * `notify_start` control route. Every `sio.emit` to all clients is an entry appended to
 * an event log; transport, fan-out and delivery are not modelled.
 */
module BusTracking {
  import opened Wrappers
  import opened PyValue

  /** The value stored per bus: `{"lat": lat, "lng": lng}`. */
  datatype Location = Location(lat: real, lng: real)

  /** One broadcast to every connected client. */
  datatype Event =
    | LocationBroadcast(data: Payload)            // the payload exactly as received
    | TripStarted(busId: string, message: string)
  {
    /** The Socket.IO event name used for this broadcast. */
    function Name(): string
    {
      match this
      case LocationBroadcast(_) => "mobile_location_update"
      case TripStarted(_, _) => "trip_started"
    }
  }

  const TripStartedMessage: string := "Trip has started!"

  /** What the location handler did with one payload. */
  datatype UpdateOutcome =
    | Ignored                          // a required field is missing or falsy: logged, dropped
    | TypeError                        // `+ 1` on a non-number, or an unhashable bus_id
    | Stored(bus: Key, at: Location)

  /** The JSON body returned by `notify_start`. */
  datatype NotifyResponse = NotifyResponse(status: string, message: string)

  /** The server's state: `bus_locations` and everything broadcast so far. */
  datatype Tracker = Tracker(busLocations: map<Key, Location>, events: seq<Event>)

  datatype UpdateStep = UpdateStep(next: Tracker, outcome: UpdateOutcome)
  datatype NotifyStep = NotifyStep(next: Tracker, response: NotifyResponse)

  /** The guard of the handler: `bus_id`, `lat` and `lng` are all present and truthy. */
  predicate HasRequiredFields(data: Payload)
  {
    Truthy(Get(data, "bus_id")) && Truthy(Get(data, "lat")) && Truthy(Get(data, "lng"))
  }

  /** A payload the handler stores: it passes the guard, both coordinates accept `+ 1`
      and the bus id can be used as a dictionary key. */
  predicate Accepted(data: Payload)
  {
    && HasRequiredFields(data)
    && PlusOne(Get(data, "lat")).Some?
    && PlusOne(Get(data, "lng")).Some?
    && KeyOf(Get(data, "bus_id")).Some?
  }

  /** The dictionary key under which an accepted payload is stored. */
  function BusKey(data: Payload): Key
    requires Accepted(data)
  {
    KeyOf(Get(data, "bus_id")).value
  }

  /** The location stored for an accepted payload: both coordinates shifted by one. */
  function Shifted(data: Payload): Location
    requires Accepted(data)
  {
    Location(PlusOne(Get(data, "lat")).value, PlusOne(Get(data, "lng")).value)
  }

  /** The effect of `mobile_location_update(sid, data)` on the server state. */
  function OnLocationUpdate(t: Tracker, data: Payload): (r: UpdateStep)
    ensures r.outcome.Ignored? <==> !HasRequiredFields(data)
    ensures r.outcome.Stored? <==> Accepted(data)
    ensures !r.outcome.Stored? ==> r.next == t
    ensures r.outcome.Stored? ==>
      && r.outcome.bus == BusKey(data)
      && r.outcome.at == Shifted(data)
      && r.outcome.bus in r.next.busLocations
      && r.next.busLocations[r.outcome.bus] == r.outcome.at
      && r.next.busLocations.Keys == t.busLocations.Keys + {r.outcome.bus}
      && (forall k :: k in t.busLocations && k != r.outcome.bus ==>
            r.next.busLocations[k] == t.busLocations[k])
      && r.next.events == t.events + [LocationBroadcast(data)]
  {
    if !HasRequiredFields(data) then UpdateStep(t, Ignored)
    else
      var lat := PlusOne(Get(data, "lat"));
      var lng := PlusOne(Get(data, "lng"));
      var bus := KeyOf(Get(data, "bus_id"));
      if lat.None? || lng.None? || bus.None? then UpdateStep(t, TypeError)
      else
        var at := Location(lat.value, lng.value);
        UpdateStep(Tracker(t.busLocations[bus.value := at], t.events + [LocationBroadcast(data)]),
                   Stored(bus.value, at))
  }

  /** The effect of `disconnect(sid)`: pop the entry keyed by the session id, if any. */
  function OnDisconnect(t: Tracker, sid: string): (r: Tracker)
    ensures r.events == t.events
    ensures r.busLocations.Keys == t.busLocations.Keys - {StrKey(sid)}
    ensures forall k :: k in r.busLocations ==> r.busLocations[k] == t.busLocations[k]
  {
    Tracker(t.busLocations - {StrKey(sid)}, t.events)
  }

  /** The effect of `notify_trip_start(bus_id)`: one `trip_started` broadcast per call. */
  function OnNotifyTripStart(t: Tracker, busId: string): (r: NotifyStep)
    ensures r.next.busLocations == t.busLocations
    ensures r.next.events == t.events + [TripStarted(busId, TripStartedMessage)]
    ensures r.next.events[|t.events|].Name() == "trip_started"
    ensures r.response.status == "success"
    ensures r.response.message == "Bus " + busId + " has started the trip."
  {
    NotifyStep(Tracker(t.busLocations, t.events + [TripStarted(busId, TripStartedMessage)]),
               NotifyResponse("success", "Bus " + busId + " has started the trip."))
  }

  /** The Socket.IO server process with its module-level state. */
  class TrackingServer {
    var busLocations: map<Key, Location>
    var events: seq<Event>

    function State(): Tracker
      reads this
    {
      Tracker(busLocations, events)
    }

    /** At start-up `bus_locations` is empty and nothing has been broadcast. */
    constructor ()
      ensures busLocations == map[] && events == []
    {
      busLocations := map[];
      events := [];
    }

    method MobileLocationUpdate(sid: string, data: Payload) returns (outcome: UpdateOutcome)
      modifies this
      ensures UpdateStep(State(), outcome) == OnLocationUpdate(old(State()), data)
    {
      if !Truthy(Get(data, "bus_id")) || !Truthy(Get(data, "lat")) || !Truthy(Get(data, "lng")) {
        return Ignored;
      }
      var lat := PlusOne(Get(data, "lat"));
      if lat.None? {
        return TypeError;
      }
      var lng := PlusOne(Get(data, "lng"));
      if lng.None? {
        return TypeError;
      }
      var bus := KeyOf(Get(data, "bus_id"));
      if bus.None? {
        return TypeError;
      }
      busLocations := busLocations[bus.value := Location(lat.value, lng.value)];
      events := events + [LocationBroadcast(data)];
      outcome := Stored(bus.value, Location(lat.value, lng.value));
    }

    method NotifyTripStart(busId: string) returns (response: NotifyResponse)
      modifies this
      ensures NotifyStep(State(), response) == OnNotifyTripStart(old(State()), busId)
    {
      events := events + [TripStarted(busId, TripStartedMessage)];
      response := NotifyResponse("success", "Bus " + busId + " has started the trip.");
    }

    method Disconnect(sid: string)
      modifies this
      ensures State() == OnDisconnect(old(State()), sid)
    {
      busLocations := busLocations - {StrKey(sid)};
    }
  }

  // ---------------------------------------------------------------------------
  // Single-call properties

  /** A payload with a falsy coordinate (0 included) is dropped without a trace. */
  lemma ZeroCoordinateRejected(t: Tracker, data: Payload)
    requires Get(data, "lat") == Num(0.0) || Get(data, "lng") == Num(0.0)
    ensures OnLocationUpdate(t, data) == UpdateStep(t, Ignored)
  {
  }

  /** The broadcast carries the coordinates as received, the store holds them plus one. */
  lemma StoredDiffersFromBroadcast(t: Tracker, data: Payload)
    requires Accepted(data) && Get(data, "lat").Num? && Get(data, "lng").Num?
    ensures var r := OnLocationUpdate(t, data).next;
      && r.events[|r.events| - 1] == LocationBroadcast(data)
      && r.busLocations[BusKey(data)].lat == Get(data, "lat").x + 1.0
      && r.busLocations[BusKey(data)].lng == Get(data, "lng").x + 1.0
      && r.busLocations[BusKey(data)].lat != Get(data, "lat").x
  {
  }

  /** Two accepted updates for the same bus leave one entry, the second one. */
  lemma LastWriterWins(t: Tracker, first: Payload, second: Payload)
    requires Accepted(first) && Accepted(second) && BusKey(first) == BusKey(second)
    ensures var r := OnLocationUpdate(OnLocationUpdate(t, first).next, second).next;
      r.busLocations == t.busLocations[BusKey(second) := Shifted(second)]
  {
  }

  /** Popping the same session id twice is the same as popping it once. */
  lemma DisconnectIdempotent(t: Tracker, sid: string)
    ensures OnDisconnect(OnDisconnect(t, sid), sid) == OnDisconnect(t, sid)
  {
  }

  /** When no bus is stored under the session id, disconnect changes nothing; entries under
      numeric bus ids are never removed. */
  lemma DisconnectWithoutMatchingKey(t: Tracker, sid: string)
    ensures StrKey(sid) !in t.busLocations ==> OnDisconnect(t, sid) == t
    ensures forall x :: NumKey(x) in t.busLocations ==> NumKey(x) in OnDisconnect(t, sid).busLocations
  {
  }

  // ---------------------------------------------------------------------------
  // Properties of runs: a sequence of handler invocations

  /** One handler invocation. */
  datatype Call =
    | UpdateCall(sid: string, data: Payload)
    | DisconnectCall(sid: string)
    | NotifyCall(busId: string)

  function Apply(t: Tracker, c: Call): Tracker
  {
    match c
    case UpdateCall(_, data) => OnLocationUpdate(t, data).next
    case DisconnectCall(sid) => OnDisconnect(t, sid)
    case NotifyCall(busId) => OnNotifyTripStart(t, busId).next
  }

  function Run(t: Tracker, calls: seq<Call>): Tracker
    decreases |calls|
  {
    if calls == [] then t else Run(Apply(t, calls[0]), calls[1..])
  }

  /** What one invocation broadcasts, read off the invocation alone. */
  function Emitted(c: Call): seq<Event>
  {
    match c
    case UpdateCall(_, data) => if Accepted(data) then [LocationBroadcast(data)] else []
    case DisconnectCall(_) => []
    case NotifyCall(busId) => [TripStarted(busId, TripStartedMessage)]
  }

  function Broadcasts(calls: seq<Call>): seq<Event>
    decreases |calls|
  {
    if calls == [] then [] else Emitted(calls[0]) + Broadcasts(calls[1..])
  }

  /** The event log is append-only, and what a run appends depends only on the calls,
      never on the stored locations. */
  lemma {:induction false} RunBroadcasts(t: Tracker, calls: seq<Call>)
    ensures Run(t, calls).events == t.events + Broadcasts(calls)
    decreases |calls|
  {
    if calls != [] {
      var t' := Apply(t, calls[0]);
      assert t'.events == t.events + Emitted(calls[0]);
      RunBroadcasts(t', calls[1..]);
      assert t.events + Emitted(calls[0]) + Broadcasts(calls[1..])
          == t.events + (Emitted(calls[0]) + Broadcasts(calls[1..]));
    }
  }

  function CountTripStarted(events: seq<Event>): nat
    decreases |events|
  {
    if events == [] then 0
    else (if events[0].TripStarted? then 1 else 0) + CountTripStarted(events[1..])
  }

  function CountNotifies(calls: seq<Call>): nat
    decreases |calls|
  {
    if calls == [] then 0
    else (if calls[0].NotifyCall? then 1 else 0) + CountNotifies(calls[1..])
  }

  lemma {:induction false} CountTripStartedAppend(a: seq<Event>, b: seq<Event>)
    ensures CountTripStarted(a + b) == CountTripStarted(a) + CountTripStarted(b)
    decreases |a|
  {
    if a != [] {
      assert (a + b)[1..] == a[1..] + b;
      CountTripStartedAppend(a[1..], b);
    } else {
      assert a + b == b;
    }
  }

  /** No once-per-trip gating: every `notify_start` call adds one `trip_started` broadcast,
      and nothing else does. */
  lemma {:induction false} EveryNotifyBroadcasts(t: Tracker, calls: seq<Call>)
    ensures CountTripStarted(Run(t, calls).events) == CountTripStarted(t.events) + CountNotifies(calls)
  {
    RunBroadcasts(t, calls);
    CountTripStartedAppend(t.events, Broadcasts(calls));
    BroadcastsCountNotifies(calls);
  }

  lemma {:induction false} BroadcastsCountNotifies(calls: seq<Call>)
    ensures CountTripStarted(Broadcasts(calls)) == CountNotifies(calls)
    decreases |calls|
  {
    if calls != [] {
      CountTripStartedAppend(Emitted(calls[0]), Broadcasts(calls[1..]));
      BroadcastsCountNotifies(calls[1..]);
    }
  }

  /** `n` start notifications for one bus broadcast `n` identical `trip_started` events
      and leave the stored locations alone. */
  lemma {:induction false} RepeatedNotify(t: Tracker, busId: string, n: nat)
    ensures Run(t, seq(n, _ => NotifyCall(busId)))
         == Tracker(t.busLocations, t.events + seq(n, _ => TripStarted(busId, TripStartedMessage)))
    decreases n
  {
    var calls := seq(n, _ => NotifyCall(busId));
    var sent := seq(n, _ => TripStarted(busId, TripStartedMessage));
    if n > 0 {
      var t' := OnNotifyTripStart(t, busId).next;
      assert calls[1..] == seq(n - 1, _ => NotifyCall(busId));
      RepeatedNotify(t', busId, n - 1);
      assert [TripStarted(busId, TripStartedMessage)] + seq(n - 1, _ => TripStarted(busId, TripStartedMessage)) == sent;
    }
  }

  function Lookup(m: map<Key, Location>, k: Key): Option<Location>
  {
    if k in m then Some(m[k]) else None
  }

  /** The entry for bus `k` after one invocation, read off that invocation alone. */
  function EntryStep(c: Call, k: Key, entry: Option<Location>): Option<Location>
  {
    match c
    case UpdateCall(_, data) =>
      if Accepted(data) && BusKey(data) == k then Some(Shifted(data)) else entry
    case DisconnectCall(sid) => if StrKey(sid) == k then None else entry
    case NotifyCall(_) => entry
  }

  function EntryAfter(calls: seq<Call>, k: Key, entry: Option<Location>): Option<Location>
    decreases |calls|
  {
    if calls == [] then entry else EntryAfter(calls[1..], k, EntryStep(calls[0], k, entry))
  }

  /** Entries are independent: the entry for bus `k` after any run is decided by the calls
      that name `k` (the last accepted update for it, or a disconnect by that id). */
  lemma {:induction false} RunEntry(t: Tracker, calls: seq<Call>, k: Key)
    ensures Lookup(Run(t, calls).busLocations, k) == EntryAfter(calls, k, Lookup(t.busLocations, k))
    decreases |calls|
  {
    if calls != [] {
      var t' := Apply(t, calls[0]);
      assert Lookup(t'.busLocations, k) == EntryStep(calls[0], k, Lookup(t.busLocations, k));
      RunEntry(t', calls[1..], k);
    }
  }

  /** A run that never names bus `k` leaves its entry as it was. */
  lemma {:induction false} UntouchedEntry(calls: seq<Call>, k: Key, entry: Option<Location>)
    requires forall i :: 0 <= i < |calls| ==> EntryStep(calls[i], k, entry) == entry
    ensures EntryAfter(calls, k, entry) == entry
    decreases |calls|
  {
    if calls != [] {
      UntouchedEntry(calls[1..], k, entry);
    }
  }

  /** A run in which no call names bus `k` leaves the stored entry for `k` as it was. */
  lemma RunWithoutKey(t: Tracker, calls: seq<Call>, k: Key)
    requires forall i :: 0 <= i < |calls| ==>
      EntryStep(calls[i], k, Lookup(t.busLocations, k)) == Lookup(t.busLocations, k)
    ensures Lookup(Run(t, calls).busLocations, k) == Lookup(t.busLocations, k)
  {
    RunEntry(t, calls, k);
    UntouchedEntry(calls, k, Lookup(t.busLocations, k));
  }
}
