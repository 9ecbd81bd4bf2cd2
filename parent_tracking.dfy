/**
 * The parent-facing tracking lookup: a student id is resolved to the student's record,
 * then to the record of the student's bus, and a response is assembled from both records
 * plus a simulated location drift, ETA and status. The random draws and the clock are
 * inputs of the model.
 */
module ParentTracking {
  datatype Route = Route(source: string, destination: string)
  datatype Coordinates = Coordinates(lat: real, lng: real)
  datatype Driver = Driver(name: string, phone: string)

  datatype StudentRecord = StudentRecord(id: string, name: string, grade: string, route: Route, busId: string)
  datatype BusRecord = BusRecord(busNumber: string, model: string, location: Coordinates, speed: int, driver: Driver)

  /** The three statuses `random.choice` picks from. */
  datatype TripStatus = OnTime | Delayed | Arrived
  {
    function Label(): (s: string)
      ensures s in {"On Time", "Delayed", "Arrived"}
    {
      match this
      case OnTime => "On Time"
      case Delayed => "Delayed"
      case Arrived => "Arrived"
    }
  }

  /** The random draws of one request: two uniform drifts, the ETA and the status. */
  datatype Draws = Draws(latOffset: real, lngOffset: real, eta: int, status: TripStatus)

  const MaxDrift: real := 0.002
  const MinEta: int := 10
  const MaxEta: int := 25

  /** The ranges of `random.uniform(-0.002, 0.002)` and `random.randint(10, 25)`. */
  predicate ValidDraws(d: Draws)
  {
    -MaxDrift <= d.latOffset <= MaxDrift && -MaxDrift <= d.lngOffset <= MaxDrift
    && MinEta <= d.eta <= MaxEta
  }

  datatype StudentSummary = StudentSummary(id: string, name: string, grade: string)
  datatype BusReport = BusReport(busNumber: string, model: string, location: Coordinates, speed: int)

  datatype TrackingInfo = TrackingInfo(
    student: StudentSummary,
    bus: BusReport,
    driver: Driver,
    route: Route,
    status: string,
    eta: int,
    timestamp: string)

  /** An `HTTPException` raised by the route. */
  datatype HttpError = HttpError(statusCode: int, detail: string)

  datatype Result<T> = Ok(value: T) | Err(error: HttpError)

  const StudentNotFound: HttpError := HttpError(404, "Student not found")
  const BusNotFound: HttpError := HttpError(404, "Bus not found")

  const Students: map<string, StudentRecord> := map[
    "STU12345" := StudentRecord("STU12345", "Aarav Reddy", "7A", Route("NIT Main Campus", "Madhapur"), "BUS_27"),
    "STU56789" := StudentRecord("STU56789", "Sneha Sharma", "5B", Route("NIT Main Campus", "Gachibowli"), "BUS_12")
  ]

  const Buses: map<string, BusRecord> := map[
    "BUS_27" := BusRecord("B-27", "Tata Starbus 24 Seater", Coordinates(17.448, 78.391), 40,
                          Driver("Ramesh Kumar", "+91-9876543210")),
    "BUS_12" := BusRecord("B-12", "Eicher School Bus", Coordinates(17.432, 78.356), 38,
                          Driver("Anil Verma", "+91-9988776655"))
  ]

  /** Distance between two reals. */
  function Dist(a: real, b: real): real
  {
    if a <= b then b - a else a - b
  }

  /** The lookup over given student and bus tables. */
  function TrackingInfoIn(
    students: map<string, StudentRecord>, buses: map<string, BusRecord>,
    studentId: string, draws: Draws, timestamp: string): (r: Result<TrackingInfo>)
    requires ValidDraws(draws)
    ensures studentId !in students <==> r == Err(StudentNotFound)
    ensures r == Err(BusNotFound) <==> studentId in students && students[studentId].busId !in buses
    ensures r.Ok? <==> studentId in students && students[studentId].busId in buses
    ensures r.Ok? ==>
      var s := students[studentId];
      var b := buses[s.busId];
      && r.value.student == StudentSummary(s.id, s.name, s.grade)
      && r.value.route == s.route
      && r.value.bus.busNumber == b.busNumber
      && r.value.bus.model == b.model
      && r.value.bus.speed == b.speed
      && r.value.driver == b.driver
      && Dist(r.value.bus.location.lat, b.location.lat) <= MaxDrift
      && Dist(r.value.bus.location.lng, b.location.lng) <= MaxDrift
      && r.value.bus.location == Coordinates(b.location.lat + draws.latOffset, b.location.lng + draws.lngOffset)
      && MinEta <= r.value.eta <= MaxEta && r.value.eta == draws.eta
      && r.value.status in {"On Time", "Delayed", "Arrived"} && r.value.status == draws.status.Label()
      && r.value.timestamp == timestamp
  {
    if studentId !in students then Err(StudentNotFound)
    else
      var student := students[studentId];
      if student.busId !in buses then Err(BusNotFound)
      else
        var bus := buses[student.busId];
        var current := Coordinates(bus.location.lat + draws.latOffset, bus.location.lng + draws.lngOffset);
        Ok(TrackingInfo(
          StudentSummary(student.id, student.name, student.grade),
          BusReport(bus.busNumber, bus.model, current, bus.speed),
          bus.driver,
          student.route,
          draws.status.Label(),
          draws.eta,
          timestamp))
  }

  /** `get_tracking_info(student_id)` over the seeded tables. */
  function GetTrackingInfo(studentId: string, draws: Draws, timestamp: string): (r: Result<TrackingInfo>)
    requires ValidDraws(draws)
    ensures r.Ok? <==> studentId in Students
    ensures r.Err? ==> r.error == StudentNotFound
    ensures r.Ok? ==> r.value.student.id == studentId
  {
    SeededStudentsHaveBuses();
    TrackingInfoIn(Students, Buses, studentId, draws, timestamp)
  }

  /** In the seeded tables every student is stored under its own id and rides a known bus,
      so "Bus not found" cannot happen for them. */
  lemma SeededStudentsHaveBuses()
    ensures forall id :: id in Students ==> Students[id].id == id && Students[id].busId in Buses
  {
  }

  /** The seeded lookup for one student, field by field. */
  lemma TrackingAarav(draws: Draws, timestamp: string)
    requires ValidDraws(draws)
    ensures var r := GetTrackingInfo("STU12345", draws, timestamp);
      && r.Ok?
      && r.value.student == StudentSummary("STU12345", "Aarav Reddy", "7A")
      && r.value.bus.busNumber == "B-27"
      && r.value.driver == Driver("Ramesh Kumar", "+91-9876543210")
      && r.value.route == Route("NIT Main Campus", "Madhapur")
      && 17.446 <= r.value.bus.location.lat <= 17.450
  {
  }
}
