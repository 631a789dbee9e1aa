/** The four tables of the dispatch engine, and the guarded writes the service methods are made of. */
module Rows {
  import opened StateMachines

  /** A uuid; only equality matters. */
  type Id = nat

  datatype Option<+T> = None | Some(value: T)

  datatype Assignment = Assignment(
    bookingId: Id,
    transporterId: Id,
    vehicleId: Id,
    driverId: Id,
    tripId: Id,
    status: AssignmentStatus)

  datatype Vehicle = Vehicle(
    transporterId: Id,
    vehicleType: Id,
    vehicleSubtype: Option<Id>,
    status: VehicleStatus,
    currentTripId: Option<Id>,
    assignedDriverId: Option<Id>)

  datatype Booking = Booking(
    customerId: Id,
    vehicleType: Id,
    vehicleSubtype: Option<Id>,
    trucksNeeded: nat,
    trucksFilled: int,
    status: BookingStatus,
    expiresAt: int)

  /** `drivers` maps a driver to its transporter. */
  datatype Db = Db(
    assignments: map<Id, Assignment>,
    vehicles: map<Id, Vehicle>,
    bookings: map<Id, Booking>,
    drivers: map<Id, Id>)

  /** What a service method read before its transaction began: each table as it stood at some earlier moment. The
      assignment table is read twice by acceptAssignment and by the completion path, hence `recheck`. */
  datatype Seen = Seen(
    assignments: map<Id, Assignment>,
    recheck: map<Id, Assignment>,
    vehicles: map<Id, Vehicle>,
    bookings: map<Id, Booking>)

  function Fresh(s: Db): Seen {
    Seen(s.assignments, s.assignments, s.vehicles, s.bookings)
  }

  // ---- assignment rows ----

  function WithStatus(s: Db, id: Id, status: AssignmentStatus): Db
    requires id in s.assignments
  {
    s.(assignments := s.assignments[id := s.assignments[id].(status := status)])
  }

  /** The driver check inside the create transaction: no row of this driver is in an active status. */
  predicate DriverIdle(assignments: map<Id, Assignment>, driverId: Id) {
    forall id | id in assignments :: assignments[id].driverId == driverId ==> IsTerminal(assignments[id].status)
  }

  predicate TripUnused(assignments: map<Id, Assignment>, tripId: Id) {
    forall id | id in assignments :: assignments[id].tripId != tripId
  }

  // ---- vehicle rows ----

  /** updateMany where status is available, to on_hold. */
  function HoldVehicle(s: Db, vehicleId: Id, tripId: Id, driverId: Id): Db {
    if vehicleId in s.vehicles && s.vehicles[vehicleId].status == Available then
      s.(vehicles := s.vehicles[vehicleId :=
        s.vehicles[vehicleId].(status := OnHold, currentTripId := Some(tripId), assignedDriverId := Some(driverId))])
    else s
  }

  /** updateMany where status is on_hold or available, to in_transit. */
  function BoardVehicle(s: Db, vehicleId: Id, tripId: Id, driverId: Id): Db {
    if vehicleId in s.vehicles && s.vehicles[vehicleId].status in {OnHold, Available} then
      s.(vehicles := s.vehicles[vehicleId :=
        s.vehicles[vehicleId].(status := OnTrip, currentTripId := Some(tripId), assignedDriverId := Some(driverId))])
    else s
  }

  function Released(v: Vehicle): Vehicle {
    if v.status != Available then
      v.(status := Available, currentTripId := None, assignedDriverId := None)
    else v
  }

  /** updateMany where status is not available, to available. */
  function ReleaseVehicle(s: Db, vehicleId: Id): Db {
    if vehicleId in s.vehicles then
      s.(vehicles := s.vehicles[vehicleId := Released(s.vehicles[vehicleId])])
    else s
  }

  // ---- booking rows ----

  /** The raw UPDATE of the create transaction: count up while there is room; the status is not written. */
  function FillOne(s: Db, bookingId: Id): Db {
    if bookingId in s.bookings && s.bookings[bookingId].trucksFilled < s.bookings[bookingId].trucksNeeded then
      s.(bookings := s.bookings[bookingId :=
        s.bookings[bookingId].(trucksFilled := s.bookings[bookingId].trucksFilled + 1)])
    else s
  }

  /** The booking row after decrementTrucksFilled: GREATEST(0, count - 1) and a status by the new count, unless the
      booking is closed. */
  function Decremented(b: Booking): Booking {
    if IsClosed(b.status) then b
    else
      var filled := if b.trucksFilled - 1 > 0 then b.trucksFilled - 1 else 0;
      b.(trucksFilled := filled, status := if filled == 0 then Active else PartiallyFilled)
  }

  /** The booking row after incrementTrucksFilled, whose early exit looks at the row read first. */
  function Incremented(seen: Booking, b: Booking): Booking {
    if seen.trucksFilled >= seen.trucksNeeded || seen.status == FullyFilled then b
    else if b.trucksFilled >= b.trucksNeeded then b
    else
      var filled := b.trucksFilled + 1;
      var status := if filled >= b.trucksNeeded then FullyFilled else PartiallyFilled;
      b.(trucksFilled := filled, status := if IsClosed(b.status) then b.status else status)
  }

  /** updateMany on one booking with a status precondition. */
  function CasBooking(s: Db, bookingId: Id, from: set<BookingStatus>, to: BookingStatus): Db {
    if bookingId in s.bookings && s.bookings[bookingId].status in from then
      s.(bookings := s.bookings[bookingId := s.bookings[bookingId].(status := to)])
    else s
  }

  /** The transaction's own check of persistBookingTransaction, on bookings. */
  predicate NoOpenBooking(bookings: map<Id, Booking>, customerId: Id) {
    forall id | id in bookings :: bookings[id].customerId == customerId ==> IsClosed(bookings[id].status)
  }

  // ---- locks ----

  /** acquireLock: granted when the lock is free, or already held under the same holder id. */
  predicate CanLock(lock: Option<Id>, holder: Id) {
    lock == None || lock == Some(holder)
  }
}
