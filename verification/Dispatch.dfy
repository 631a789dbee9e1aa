/** What each service method does to the tables, as a function of what it read before its transaction (`seen`) and of
    the tables its transaction finds (`s`). A throw inside a transaction rolls every write back. */
module Dispatch {
  import opened StateMachines
  import opened Rows

  datatype ErrorCode =
    | BookingNotFound
    | BookingNotActive
    | VehicleNotFound
    | VehicleBusy
    | VehicleMismatch
    | VehicleSubtypeMismatch
    | DriverNotFound
    | DriverBusy
    | Forbidden
    | DuplicateKey
    | AssignmentNotFound
    | InvalidStatus
    | InvalidTransition
    | AssignmentStateChanged
    | AssignmentAlreadyTerminal
    | StatusConflict
    | DecrementFailed
    | ActiveOrderExists
    | BookingCannotCancel

  /** `Skipped` is a silent no-op: a compare-and-set that matched no row, or an early return. */
  datatype Outcome = Done | Skipped | Failed(code: ErrorCode)

  datatype Result = Result(db: Db, outcome: Outcome)

  /** The two decrementTrucksFilled implementations differ on a closed booking: booking-lifecycle.service.ts skips, the
      bookingService that assignment.service.ts loads throws and so rolls the calling transaction back. */
  datatype Decrement = SkipsClosed | ThrowsOnClosed

  datatype CreateRequest = CreateRequest(
    transporterId: Id,
    bookingId: Id,
    vehicleId: Id,
    driverId: Id,
    newId: Id,
    tripId: Id)

  // ==== assignments ====

  function CreatePrecheck(seen: Seen, drivers: map<Id, Id>, req: CreateRequest): Option<ErrorCode> {
    if req.bookingId !in seen.bookings then Some(BookingNotFound)
    else
      var booking := seen.bookings[req.bookingId];
      if booking.status != Active && booking.status != PartiallyFilled then Some(BookingNotActive)
      else if req.vehicleId !in seen.vehicles then Some(VehicleNotFound)
      else
        var vehicle := seen.vehicles[req.vehicleId];
        if vehicle.transporterId != req.transporterId then Some(Forbidden)
        else if vehicle.status != Available then Some(VehicleBusy)
        else if vehicle.vehicleType != booking.vehicleType then Some(VehicleMismatch)
        else if booking.vehicleSubtype.Some? && vehicle.vehicleSubtype.Some?
                && vehicle.vehicleSubtype != booking.vehicleSubtype then Some(VehicleSubtypeMismatch)
        else if req.driverId !in drivers then Some(DriverNotFound)
        else if drivers[req.driverId] != req.transporterId then Some(Forbidden)
        else None
  }

  function NewAssignment(req: CreateRequest): Assignment {
    Assignment(req.bookingId, req.transporterId, req.vehicleId, req.driverId, req.tripId, Pending)
  }

  function CreateCommit(s: Db, req: CreateRequest): Db {
    var inserted := s.(assignments := s.assignments[req.newId := NewAssignment(req)]);
    FillOne(HoldVehicle(inserted, req.vehicleId, req.tripId, req.driverId), req.bookingId)
  }

  function CreateAssignment(seen: Seen, s: Db, req: CreateRequest): Result {
    var err := CreatePrecheck(seen, s.drivers, req);
    if err.Some? then Result(s, Failed(err.value))
    else if !DriverIdle(s.assignments, req.driverId) then Result(s, Failed(DriverBusy))
    else if req.newId in s.assignments || !TripUnused(s.assignments, req.tripId) then Result(s, Failed(DuplicateKey))
    else Result(CreateCommit(s, req), Done)
  }

  /** getActiveAssignmentByDriver lists five statuses: a driver waiting at the drop does not count as busy here. */
  predicate BusyElsewhere(assignments: map<Id, Assignment>, driverId: Id, id: Id) {
    exists other | other in assignments ::
      && other != id
      && assignments[other].driverId == driverId
      && assignments[other].status in ACTIVE_ASSIGNMENT - {ArrivedAtDrop}
  }

  function AcceptAssignment(seen: Seen, s: Db, id: Id, driverId: Id): Result {
    if id !in seen.assignments then Result(s, Failed(AssignmentNotFound))
    else
      var a := seen.assignments[id];
      if a.driverId != driverId then Result(s, Failed(Forbidden))
      else if a.status != Pending then Result(s, Failed(InvalidStatus))
      else if BusyElsewhere(seen.recheck, driverId, id) then Result(s, Failed(DriverBusy))
      else if id !in s.assignments || s.assignments[id].status != Pending then
        Result(s, Failed(AssignmentStateChanged))
      else
        Result(BoardVehicle(WithStatus(s, id, DriverAccepted), a.vehicleId, a.tripId, driverId), Done)
  }

  /** The shared transaction of decline, timeout and cancel: leave the active statuses, free the vehicle, count down. */
  function ExitTx(
    decrement: Decrement, s: Db, id: Id, from: set<AssignmentStatus>, to: AssignmentStatus,
    vehicleId: Id, bookingId: Id): Result
  {
    if id !in s.assignments || s.assignments[id].status !in from then Result(s, Skipped)
    else if bookingId !in s.bookings then Result(s, Failed(BookingNotFound))
    else if decrement.ThrowsOnClosed? && IsClosed(s.bookings[bookingId].status) then Result(s, Failed(DecrementFailed))
    else
      var freed := ReleaseVehicle(WithStatus(s, id, to), vehicleId);
      Result(freed.(bookings := freed.bookings[bookingId := Decremented(freed.bookings[bookingId])]), Done)
  }

  function DeclineAssignment(decrement: Decrement, seen: Seen, s: Db, id: Id, driverId: Id): Result {
    if id !in seen.assignments then Result(s, Failed(AssignmentNotFound))
    else
      var a := seen.assignments[id];
      if a.driverId != driverId then Result(s, Failed(Forbidden))
      else if a.status != Pending then Result(s, Failed(InvalidStatus))
      else ExitTx(decrement, s, id, {Pending}, DriverDeclined, a.vehicleId, a.bookingId)
  }

  /** The timer carries the ids it was given at creation; they never change, so they are read off the seen row. */
  function HandleAssignmentTimeout(decrement: Decrement, seen: Seen, s: Db, id: Id): Result {
    if id !in seen.assignments then Result(s, Skipped)
    else
      var timer := seen.assignments[id];
      ExitTx(decrement, s, id, {Pending}, DriverDeclined, timer.vehicleId, timer.bookingId)
  }

  function CancelAssignment(decrement: Decrement, seen: Seen, s: Db, id: Id, userId: Id): Result {
    if id !in seen.assignments then Result(s, Failed(AssignmentNotFound))
    else
      var a := seen.assignments[id];
      if a.transporterId != userId && a.driverId != userId then Result(s, Failed(Forbidden))
      else if IsTerminal(a.status) then Result(s, Failed(AssignmentAlreadyTerminal))
      else ExitTx(decrement, s, id, ACTIVE_ASSIGNMENT, Cancelled, a.vehicleId, a.bookingId)
  }

  /** The compare-and-set transaction of completeTrip; the fill count is left alone. */
  function CompleteTrip(assignments: map<Id, Assignment>, s: Db, id: Id, target: AssignmentStatus): Result {
    if id !in assignments then Result(s, Failed(AssignmentNotFound))
    else if IsTerminal(assignments[id].status) then Result(s, Skipped)
    else if id !in s.assignments || IsTerminal(s.assignments[id].status) then Result(s, Skipped)
    else Result(ReleaseVehicle(WithStatus(s, id, target), assignments[id].vehicleId), Done)
  }

  /** The single writer: legal by the status it read, then written over whatever non-terminal status it finds. */
  function UpdateAssignmentStatus(seen: Seen, s: Db, id: Id, target: AssignmentStatus): Result {
    if id !in seen.assignments then Result(s, Failed(AssignmentNotFound))
    else
      var previous := seen.assignments[id].status;
      if previous == target then Result(s, Skipped)
      else if target !in AssignmentNext(previous) then Result(s, Failed(InvalidTransition))
      else if id !in s.assignments || IsTerminal(s.assignments[id].status) then Result(s, Skipped)
      else Result(WithStatus(s, id, target), Done)
  }

  predicate IsDelivery(status: AssignmentStatus) {
    status == Completed || status == PartialDelivery
  }

  /** The REST status update. `orchestrator` is the feature flag that picks the completion path. */
  function UpdateStatus(
    seen: Seen, s: Db, id: Id, driverId: Id, target: AssignmentStatus, orchestrator: bool): Result
  {
    if id !in seen.assignments then Result(s, Failed(AssignmentNotFound))
    else
      var a := seen.assignments[id];
      if a.driverId != driverId then Result(s, Failed(Forbidden))
      else if target !in AssignmentNext(a.status) then Result(s, Failed(InvalidTransition))
      else if IsDelivery(target) && orchestrator then CompleteTrip(seen.recheck, s, id, target)
      else if IsDelivery(target) then
        if id !in s.assignments || s.assignments[id].status != a.status then Result(s, Failed(StatusConflict))
        else Result(ReleaseVehicle(WithStatus(s, id, target), a.vehicleId), Done)
      else
        var parent := if target == InTransit
                      then CasBooking(s, a.bookingId, {FullyFilled, PartiallyFilled}, InProgress) else s;
        if id !in s.assignments then Result(parent, Failed(AssignmentNotFound))
        else Result(WithStatus(parent, id, target), Done)
  }

  /** Both attempts to schedule the timeout failed: decline if still pending, then release the vehicle either way. */
  function ScheduleFailure(seen: Seen, s: Db, id: Id): Result {
    if id !in seen.assignments then Result(s, Skipped)
    else
      var declined := if id in s.assignments && s.assignments[id].status == Pending
                      then WithStatus(s, id, DriverDeclined) else s;
      Result(ReleaseVehicle(declined, seen.assignments[id].vehicleId), Done)
  }

  // ==== bookings ====

  datatype BookingRequest = BookingRequest(
    newId: Id,
    customerId: Id,
    vehicleType: Id,
    vehicleSubtype: Option<Id>,
    trucksNeeded: nat,
    expiresAt: int)

  /** `openOrder`: the same transaction also looks for an open row of the order table, which is not modelled. */
  function CreateBooking(s: Db, req: BookingRequest, openOrder: bool): Result {
    if !NoOpenBooking(s.bookings, req.customerId) || openOrder then Result(s, Failed(ActiveOrderExists))
    else if req.newId in s.bookings then Result(s, Failed(DuplicateKey))
    else
      Result(
        s.(bookings := s.bookings[req.newId :=
          Booking(req.customerId, req.vehicleType, req.vehicleSubtype, req.trucksNeeded, 0, Created, req.expiresAt)]),
        Done)
  }

  /** The conditional status writes of the broadcast pipeline, named by what they are for. */
  datatype StatusWrite =
    | StartBroadcast
    | Activate
    | ExpireUnnotified
    | ExpireAfterBroadcastFailure
    | ExpireOnResume

  const OPEN_FOR_TIMEOUT: set<BookingStatus> := {Broadcasting, Active, PartiallyFilled, Created}

  function WriteFrom(w: StatusWrite): set<BookingStatus> {
    match w
    case StartBroadcast => {Created}
    case Activate => {Broadcasting}
    case ExpireUnnotified => {Created, Broadcasting}
    case ExpireAfterBroadcastFailure => {Created, Broadcasting, Active, PartiallyFilled, InProgress}
    case ExpireOnResume => {Created, Broadcasting, Active, PartiallyFilled, InProgress}
  }

  function WriteTo(w: StatusWrite): BookingStatus {
    match w
    case StartBroadcast => Broadcasting
    case Activate => Active
    case _ => Expired
  }

  /** handleBookingTimeout: branches on the row it read, then writes with a status precondition. A full booking falls
      through both branches. */
  function HandleBookingTimeout(seen: Seen, s: Db, id: Id): Result {
    if id !in seen.bookings then Result(s, Skipped)
    else
      var b := seen.bookings[id];
      if b.status !in OPEN_FOR_TIMEOUT then Result(s, Skipped)
      else if (b.trucksFilled > 0 && b.trucksFilled < b.trucksNeeded) || b.trucksFilled == 0 then
        Result(CasBooking(s, id, OPEN_FOR_TIMEOUT, Expired), Done)
      else Result(s, Done)
  }

  const CANCELLABLE: set<BookingStatus> := {Created, Broadcasting, Active, PartiallyFilled, FullyFilled}

  predicate PendingOf(assignments: map<Id, Assignment>, bookingId: Id, id: Id) {
    id in assignments && assignments[id].bookingId == bookingId && assignments[id].status == Pending
  }

  function CancelPending(assignments: map<Id, Assignment>, bookingId: Id): map<Id, Assignment> {
    map id | id in assignments ::
      if PendingOf(assignments, bookingId, id) then assignments[id].(status := Cancelled) else assignments[id]
  }

  /** releaseVehicle leaves a vehicle alone whose status may not become available; every status but available may. */
  function ReleaseAll(vehicles: map<Id, Vehicle>, freed: set<Id>): map<Id, Vehicle> {
    map v | v in vehicles :: if v in freed then Released(vehicles[v]) else vehicles[v]
  }

  function CancelBooking(seen: Seen, s: Db, id: Id, customerId: Id): Result {
    if id !in seen.bookings then Result(s, Failed(BookingNotFound))
    else if seen.bookings[id].customerId != customerId then Result(s, Failed(Forbidden))
    else if seen.bookings[id].status == BookingCancelled then Result(s, Skipped)
    else if id !in s.bookings then Result(s, Failed(BookingNotFound))
    else if s.bookings[id].customerId != customerId || s.bookings[id].status !in CANCELLABLE then
      if s.bookings[id].status == BookingCancelled then Result(s, Skipped) else Result(s, Failed(BookingCannotCancel))
    else
      var freed := set a | a in s.assignments && PendingOf(s.assignments, id, a) :: s.assignments[a].vehicleId;
      Result(
        s.(bookings := s.bookings[id := s.bookings[id].(status := BookingCancelled)],
           assignments := CancelPending(s.assignments, id),
           vehicles := ReleaseAll(s.vehicles, freed)),
        Done)
  }

  function IncrementTrucksFilled(seen: Seen, s: Db, id: Id): Result {
    if id !in seen.bookings then Result(s, Failed(BookingNotFound))
    else if id !in s.bookings then Result(s, Skipped)
    else Result(s.(bookings := s.bookings[id := Incremented(seen.bookings[id], s.bookings[id])]), Done)
  }

  function DecrementTrucksFilled(s: Db, id: Id): Result {
    if id !in s.bookings then Result(s, Failed(BookingNotFound))
    else Result(s.(bookings := s.bookings[id := Decremented(s.bookings[id])]), Done)
  }

  /** The hard expiry: every booking found stale that is still not closed. */
  function ExpireStale(s: Db, stale: set<Id>): Result {
    Result(
      s.(bookings := map id | id in s.bookings ::
        if id in stale && !IsClosed(s.bookings[id].status) then s.bookings[id].(status := Expired)
        else s.bookings[id]),
      Done)
  }

  /** The two checkBookingCompletion implementations: the one of tracking-fleet.service.ts wants a trip delivered in
      full, the one of tracking.service.ts, which completeTrip calls, only wants every trip ended. */
  datatype CompletionCheck = WantsDelivery | AnyEnding

  /** The booking has trips, none of them is under way or was declined, and one is completed where that is wanted. */
  predicate TripsDone(check: CompletionCheck, assignments: map<Id, Assignment>, bookingId: Id) {
    && (forall a | a in assignments ::
          assignments[a].bookingId == bookingId ==> assignments[a].status in {Completed, Cancelled, PartialDelivery})
    && (exists a | a in assignments ::
          assignments[a].bookingId == bookingId && (check.WantsDelivery? ==> assignments[a].status == Completed))
  }

  /** checkBookingCompletion: trips and guard are read first, at two moments, and the guard forgets expired; then the
      status is written without any condition. */
  function CheckBookingCompletion(check: CompletionCheck, seen: Seen, s: Db, id: Id): Result {
    if !TripsDone(check, seen.assignments, id) then Result(s, Skipped)
    else if id !in seen.bookings || seen.bookings[id].status in {BookingCompleted, BookingCancelled} then
      Result(s, Skipped)
    else if id !in s.bookings then Result(s, Failed(BookingNotFound))
    else Result(s.(bookings := s.bookings[id := s.bookings[id].(status := BookingCompleted)]), Done)
  }

  // ==== one step of the engine ====

  datatype Op =
    | OpCreate(req: CreateRequest)
    | OpAccept(id: Id, driverId: Id)
    | OpDecline(id: Id, driverId: Id)
    | OpTimeout(id: Id)
    | OpCancel(id: Id, userId: Id)
    | OpComplete(id: Id, target: AssignmentStatus)
    | OpSingleWriter(id: Id, target: AssignmentStatus)
    | OpUpdateStatus(id: Id, driverId: Id, target: AssignmentStatus, orchestrator: bool)
    | OpScheduleFailure(id: Id)
    | OpCreateBooking(booking: BookingRequest, openOrder: bool)
    | OpStatusWrite(write: StatusWrite, bookingId: Id)
    | OpBookingTimeout(bookingId: Id)
    | OpCancelBooking(bookingId: Id, customerId: Id)
    | OpIncrement(bookingId: Id)
    | OpDecrement(bookingId: Id)
    | OpExpireStale(stale: set<Id>)
    | OpCheckCompletion(bookingId: Id, check: CompletionCheck)

  function Exec(decrement: Decrement, seen: Seen, s: Db, op: Op): Result {
    match op
    case OpCreate(req) => CreateAssignment(seen, s, req)
    case OpAccept(id, driverId) => AcceptAssignment(seen, s, id, driverId)
    case OpDecline(id, driverId) => DeclineAssignment(decrement, seen, s, id, driverId)
    case OpTimeout(id) => HandleAssignmentTimeout(decrement, seen, s, id)
    case OpCancel(id, userId) => CancelAssignment(decrement, seen, s, id, userId)
    case OpComplete(id, target) =>
      if IsDelivery(target) then CompleteTrip(seen.assignments, s, id, target) else Result(s, Skipped)
    case OpSingleWriter(id, target) => UpdateAssignmentStatus(seen, s, id, target)
    case OpUpdateStatus(id, driverId, target, orchestrator) => UpdateStatus(seen, s, id, driverId, target, orchestrator)
    case OpScheduleFailure(id) => ScheduleFailure(seen, s, id)
    case OpCreateBooking(booking, openOrder) => CreateBooking(s, booking, openOrder)
    case OpStatusWrite(write, id) => Result(CasBooking(s, id, WriteFrom(write), WriteTo(write)), Done)
    case OpBookingTimeout(id) => HandleBookingTimeout(seen, s, id)
    case OpCancelBooking(id, customerId) => CancelBooking(seen, s, id, customerId)
    case OpIncrement(id) => IncrementTrucksFilled(seen, s, id)
    case OpDecrement(id) => DecrementTrucksFilled(s, id)
    case OpExpireStale(stale) => ExpireStale(s, stale)
    case OpCheckCompletion(id, check) => CheckBookingCompletion(check, seen, s, id)
  }
}
