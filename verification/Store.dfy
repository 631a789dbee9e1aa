/** The service methods as code over mutable tables: each is one transaction, proved to do what its function in Dispatch
    says to the tables it finds. `seen` holds what the method read before the transaction. */
module Store {
  import opened StateMachines
  import opened Rows
  import opened Dispatch

  class Database {
    const decrement: Decrement
    const drivers: map<Id, Id>
    var assignments: map<Id, Assignment>
    var vehicles: map<Id, Vehicle>
    var bookings: map<Id, Booking>

    ghost function Tables(): Db
      reads this
    {
      Db(assignments, vehicles, bookings, drivers)
    }

    constructor (decrement: Decrement, tables: Db)
      ensures Tables() == tables && this.decrement == decrement
    {
      this.decrement, this.drivers := decrement, tables.drivers;
      this.assignments, this.vehicles, this.bookings := tables.assignments, tables.vehicles, tables.bookings;
    }

    // ==== updateMany with a status precondition ====

    method UpdateAssignment(id: Id, from: set<AssignmentStatus>, to: AssignmentStatus) returns (count: nat)
      modifies `assignments
      ensures count == if id in old(assignments) && old(assignments)[id].status in from then 1 else 0
      ensures count == 0 ==> assignments == old(assignments)
      ensures count == 1 ==> Tables() == WithStatus(old(Tables()), id, to)
    {
      if id in assignments && assignments[id].status in from {
        assignments := assignments[id := assignments[id].(status := to)];
        count := 1;
      } else {
        count := 0;
      }
    }

    method MakeAvailable(vehicleId: Id)
      modifies `vehicles
      ensures Tables() == ReleaseVehicle(old(Tables()), vehicleId)
    {
      if vehicleId in vehicles && vehicles[vehicleId].status != Available {
        vehicles := vehicles[vehicleId :=
          vehicles[vehicleId].(status := Available, currentTripId := None, assignedDriverId := None)];
      } else {
        assert Tables().vehicles == ReleaseVehicle(Tables(), vehicleId).vehicles;
      }
    }

    method UpdateBooking(id: Id, from: set<BookingStatus>, to: BookingStatus) returns (count: nat)
      modifies `bookings
      ensures count == if id in old(bookings) && old(bookings)[id].status in from then 1 else 0
      ensures Tables() == CasBooking(old(Tables()), id, from, to)
    {
      count := 0;
      if id in bookings && bookings[id].status in from {
        bookings := bookings[id := bookings[id].(status := to)];
        count := 1;
      }
    }

    // ==== assignment.service.ts ====

    method CreateAssignment(seen: Seen, req: CreateRequest) returns (r: Outcome)
      modifies this
      ensures Result(Tables(), r) == Dispatch.CreateAssignment(seen, old(Tables()), req)
    {
      if req.bookingId !in seen.bookings {
        return Failed(BookingNotFound);
      }
      var booking := seen.bookings[req.bookingId];
      if booking.status !in {Active, PartiallyFilled} {
        return Failed(BookingNotActive);
      }
      if req.vehicleId !in seen.vehicles {
        return Failed(VehicleNotFound);
      }
      var vehicle := seen.vehicles[req.vehicleId];
      if vehicle.transporterId != req.transporterId {
        return Failed(Forbidden);
      }
      if vehicle.status != Available {
        return Failed(VehicleBusy);
      }
      if vehicle.vehicleType != booking.vehicleType {
        return Failed(VehicleMismatch);
      }
      if booking.vehicleSubtype != None && vehicle.vehicleSubtype != None
         && vehicle.vehicleSubtype != booking.vehicleSubtype {
        return Failed(VehicleSubtypeMismatch);
      }
      if req.driverId !in drivers {
        return Failed(DriverNotFound);
      }
      if drivers[req.driverId] != req.transporterId {
        return Failed(Forbidden);
      }
      if exists id | id in assignments ::
           assignments[id].driverId == req.driverId && assignments[id].status in ACTIVE_ASSIGNMENT {
        assert !DriverIdle(assignments, req.driverId);
        return Failed(DriverBusy);
      }
      forall id | id in assignments && assignments[id].driverId == req.driverId
        ensures IsTerminal(assignments[id].status)
      {
        ActiveIsNotTerminal(assignments[id].status);
      }
      if req.newId in assignments || exists id | id in assignments :: assignments[id].tripId == req.tripId {
        return Failed(DuplicateKey);
      }
      assert TripUnused(assignments, req.tripId);
      assignments := assignments[req.newId :=
        Assignment(req.bookingId, req.transporterId, req.vehicleId, req.driverId, req.tripId, Pending)];
      if req.vehicleId in vehicles && vehicles[req.vehicleId].status == Available {
        vehicles := vehicles[req.vehicleId := vehicles[req.vehicleId].(
          status := OnHold, currentTripId := Some(req.tripId), assignedDriverId := Some(req.driverId))];
      }
      if req.bookingId in bookings && bookings[req.bookingId].trucksFilled < bookings[req.bookingId].trucksNeeded {
        bookings := bookings[req.bookingId :=
          bookings[req.bookingId].(trucksFilled := bookings[req.bookingId].trucksFilled + 1)];
      }
      r := Done;
    }

    method AcceptAssignment(seen: Seen, id: Id, driverId: Id) returns (r: Outcome)
      modifies this
      ensures Result(Tables(), r) == Dispatch.AcceptAssignment(seen, old(Tables()), id, driverId)
    {
      if id !in seen.assignments {
        return Failed(AssignmentNotFound);
      }
      var assignment := seen.assignments[id];
      if assignment.driverId != driverId {
        return Failed(Forbidden);
      }
      if assignment.status != Pending {
        return Failed(InvalidStatus);
      }
      if BusyElsewhere(seen.recheck, driverId, id) {
        return Failed(DriverBusy);
      }
      var count := UpdateAssignment(id, {Pending}, DriverAccepted);
      if count == 0 {
        return Failed(AssignmentStateChanged);
      }
      var v := assignment.vehicleId;
      if v in vehicles && vehicles[v].status in {OnHold, Available} {
        vehicles := vehicles[v := vehicles[v].(
          status := OnTrip, currentTripId := Some(assignment.tripId), assignedDriverId := Some(driverId))];
      }
      r := Done;
    }

    /** decrementTrucksFilled called inside a transaction; an error here is a throw. */
    method CountDown(bookingId: Id) returns (err: Option<ErrorCode>)
      modifies `bookings
      ensures err == if bookingId !in old(bookings) then Some(BookingNotFound)
                     else if decrement.ThrowsOnClosed? && IsClosed(old(bookings)[bookingId].status)
                     then Some(DecrementFailed) else None
      ensures bookings == if err.Some? then old(bookings)
                          else old(bookings)[bookingId := Decremented(old(bookings)[bookingId])]
    {
      if bookingId !in bookings {
        return Some(BookingNotFound);
      }
      var b := bookings[bookingId];
      if IsClosed(b.status) {
        assert bookings == bookings[bookingId := b];
        return if decrement.ThrowsOnClosed? then Some(DecrementFailed) else None;
      }
      var filled := b.trucksFilled - 1;
      if filled < 0 {
        filled := 0;
      }
      bookings := bookings[bookingId := b.(trucksFilled := filled)];
      var status := if filled == 0 then Active else PartiallyFilled;
      bookings := bookings[bookingId := bookings[bookingId].(status := status)];
      err := None;
    }

    method ExitTx(id: Id, from: set<AssignmentStatus>, to: AssignmentStatus, vehicleId: Id, bookingId: Id)
      returns (r: Outcome)
      modifies this
      ensures Result(Tables(), r) == Dispatch.ExitTx(decrement, old(Tables()), id, from, to, vehicleId, bookingId)
    {
      var before := (assignments, vehicles, bookings);
      var count := UpdateAssignment(id, from, to);
      if count == 0 {
        return Skipped;
      }
      MakeAvailable(vehicleId);
      var err := CountDown(bookingId);
      if err.Some? {
        assignments, vehicles, bookings := before.0, before.1, before.2;
        return Failed(err.value);
      }
      r := Done;
    }

    method DeclineAssignment(seen: Seen, id: Id, driverId: Id) returns (r: Outcome)
      modifies this
      ensures Result(Tables(), r) == Dispatch.DeclineAssignment(decrement, seen, old(Tables()), id, driverId)
    {
      if id !in seen.assignments {
        return Failed(AssignmentNotFound);
      }
      var assignment := seen.assignments[id];
      if assignment.driverId != driverId {
        return Failed(Forbidden);
      }
      if assignment.status != Pending {
        return Failed(InvalidStatus);
      }
      r := ExitTx(id, {Pending}, DriverDeclined, assignment.vehicleId, assignment.bookingId);
    }

    method HandleAssignmentTimeout(seen: Seen, id: Id) returns (r: Outcome)
      modifies this
      ensures Result(Tables(), r) == Dispatch.HandleAssignmentTimeout(decrement, seen, old(Tables()), id)
    {
      if id !in seen.assignments {
        return Skipped;
      }
      var timer := seen.assignments[id];
      r := ExitTx(id, {Pending}, DriverDeclined, timer.vehicleId, timer.bookingId);
    }

    method CancelAssignment(seen: Seen, id: Id, userId: Id) returns (r: Outcome)
      modifies this
      ensures Result(Tables(), r) == Dispatch.CancelAssignment(decrement, seen, old(Tables()), id, userId)
    {
      if id !in seen.assignments {
        return Failed(AssignmentNotFound);
      }
      var assignment := seen.assignments[id];
      if assignment.transporterId != userId && assignment.driverId != userId {
        return Failed(Forbidden);
      }
      if IsTerminal(assignment.status) {
        return Failed(AssignmentAlreadyTerminal);
      }
      r := ExitTx(id, ACTIVE_ASSIGNMENT, Cancelled, assignment.vehicleId, assignment.bookingId);
    }

    /** The read and the compare-and-set transaction of completeTrip, inside its lock. */
    method CompleteTrip(read: map<Id, Assignment>, id: Id, target: AssignmentStatus) returns (r: Outcome)
      modifies this
      ensures Result(Tables(), r) == Dispatch.CompleteTrip(read, old(Tables()), id, target)
    {
      if id !in read {
        return Failed(AssignmentNotFound);
      }
      if read[id].status in TERMINAL_ASSIGNMENT {
        return Skipped;
      }
      if id in assignments {
        ActiveIsNotTerminal(assignments[id].status);
      }
      var count := UpdateAssignment(id, ACTIVE_ASSIGNMENT, target);
      if count == 0 {
        return Skipped;
      }
      MakeAvailable(read[id].vehicleId);
      r := Done;
    }

    method UpdateAssignmentStatus(seen: Seen, id: Id, target: AssignmentStatus) returns (r: Outcome)
      modifies this
      ensures Result(Tables(), r) == Dispatch.UpdateAssignmentStatus(seen, old(Tables()), id, target)
    {
      if id !in seen.assignments {
        return Failed(AssignmentNotFound);
      }
      var previous := seen.assignments[id].status;
      if previous == target {
        return Skipped;
      }
      if target !in AssignmentNext(previous) {
        return Failed(InvalidTransition);
      }
      if id in assignments {
        ActiveIsNotTerminal(assignments[id].status);
      }
      var count := UpdateAssignment(id, ACTIVE_ASSIGNMENT, target);
      r := if count == 0 then Skipped else Done;
    }

    method UpdateStatus(seen: Seen, id: Id, driverId: Id, target: AssignmentStatus, orchestrator: bool)
      returns (r: Outcome)
      modifies this
      ensures Result(Tables(), r) == Dispatch.UpdateStatus(seen, old(Tables()), id, driverId, target, orchestrator)
    {
      if id !in seen.assignments {
        return Failed(AssignmentNotFound);
      }
      var assignment := seen.assignments[id];
      if assignment.driverId != driverId {
        return Failed(Forbidden);
      }
      if target !in AssignmentNext(assignment.status) {
        return Failed(InvalidTransition);
      }
      if target == InTransit {
        var _ := UpdateBooking(assignment.bookingId, {FullyFilled, PartiallyFilled}, InProgress);
      }
      if IsDelivery(target) && orchestrator {
        r := CompleteTrip(seen.recheck, id, target);
      } else if IsDelivery(target) {
        var count := UpdateAssignment(id, {assignment.status}, target);
        if count == 0 {
          return Failed(StatusConflict);
        }
        MakeAvailable(assignment.vehicleId);
        r := Done;
      } else if id !in assignments {
        r := Failed(AssignmentNotFound);
      } else {
        assignments := assignments[id := assignments[id].(status := target)];
        r := Done;
      }
    }

    /** What is left to do when the timeout of a new assignment could not be scheduled twice. */
    method ScheduleFailure(seen: Seen, id: Id) returns (r: Outcome)
      modifies this
      ensures Result(Tables(), r) == Dispatch.ScheduleFailure(seen, old(Tables()), id)
    {
      if id !in seen.assignments {
        return Skipped;
      }
      var _ := UpdateAssignment(id, {Pending}, DriverDeclined);
      MakeAvailable(seen.assignments[id].vehicleId);
      r := Done;
    }

    // ==== booking services ====

    method CreateBooking(req: BookingRequest, openOrder: bool) returns (r: Outcome)
      modifies `bookings
      ensures Result(Tables(), r) == Dispatch.CreateBooking(old(Tables()), req, openOrder)
    {
      var existing := exists id | id in bookings ::
        bookings[id].customerId == req.customerId && bookings[id].status !in TERMINAL_BOOKING;
      assert existing <==> !NoOpenBooking(bookings, req.customerId);
      if existing || openOrder {
        return Failed(ActiveOrderExists);
      }
      if req.newId in bookings {
        return Failed(DuplicateKey);
      }
      bookings := bookings[req.newId :=
        Booking(req.customerId, req.vehicleType, req.vehicleSubtype, req.trucksNeeded, 0, Created, req.expiresAt)];
      r := Done;
    }

    method HandleBookingTimeout(seen: Seen, id: Id) returns (r: Outcome)
      modifies `bookings
      ensures Result(Tables(), r) == Dispatch.HandleBookingTimeout(seen, old(Tables()), id)
    {
      if id !in seen.bookings {
        return Skipped;
      }
      var booking := seen.bookings[id];
      if booking.status in {FullyFilled, BookingCompleted, BookingCancelled} {
        return Skipped;
      }
      if booking.status !in OPEN_FOR_TIMEOUT {
        return Skipped;
      }
      if booking.trucksFilled > 0 && booking.trucksFilled < booking.trucksNeeded {
        var _ := UpdateBooking(id, OPEN_FOR_TIMEOUT, Expired);
      } else if booking.trucksFilled == 0 {
        var _ := UpdateBooking(id, OPEN_FOR_TIMEOUT, Expired);
      }
      r := Done;
    }

    method CancelBooking(seen: Seen, id: Id, customerId: Id) returns (r: Outcome)
      modifies this
      ensures Result(Tables(), r) == Dispatch.CancelBooking(seen, old(Tables()), id, customerId)
    {
      if id !in seen.bookings {
        return Failed(BookingNotFound);
      }
      if seen.bookings[id].customerId != customerId {
        return Failed(Forbidden);
      }
      if seen.bookings[id].status == BookingCancelled {
        return Skipped;
      }
      if id !in bookings {
        return Failed(BookingNotFound);
      }
      if bookings[id].customerId != customerId || bookings[id].status !in CANCELLABLE {
        return if bookings[id].status == BookingCancelled then Skipped else Failed(BookingCannotCancel);
      }
      bookings := bookings[id := bookings[id].(status := BookingCancelled)];
      var cancelled := set a | a in assignments && PendingOf(assignments, id, a);
      assignments := CancelPending(assignments, id);
      ReleaseVehiclesOf(cancelled);
      ghost var freed := set a | a in old(assignments) && PendingOf(old(assignments), id, a)
                           :: old(assignments)[a].vehicleId;
      ghost var named := set a | a in cancelled :: assignments[a].vehicleId;
      assert forall a | a in cancelled :: assignments[a].vehicleId == old(assignments)[a].vehicleId;
      assert forall v :: v in freed <==> v in named;
      assert freed == named;
      r := Done;
    }

    /** The release loop after the cancel transaction, one vehicle at a time and in any order. */
    method ReleaseVehiclesOf(cancelled: set<Id>)
      requires forall a | a in cancelled :: a in assignments
      modifies `vehicles
      ensures vehicles == ReleaseAll(old(vehicles), set a | a in cancelled :: assignments[a].vehicleId)
    {
      var todo := cancelled;
      ghost var done: set<Id> := {};
      while todo != {}
        invariant todo <= cancelled && done == (set a | a in cancelled - todo :: assignments[a].vehicleId)
        invariant vehicles == ReleaseAll(old(vehicles), done)
        decreases todo
      {
        var a :| a in todo;
        var v := assignments[a].vehicleId;
        MakeAvailable(v);
        todo := todo - {a};
        assert done + {v} == (set x | x in cancelled - todo :: assignments[x].vehicleId);
        done := done + {v};
      }
      assert cancelled - todo == cancelled;
    }

    method IncrementTrucksFilled(seen: Seen, id: Id) returns (r: Outcome)
      modifies `bookings
      ensures Result(Tables(), r) == Dispatch.IncrementTrucksFilled(seen, old(Tables()), id)
    {
      if id !in seen.bookings {
        return Failed(BookingNotFound);
      }
      if id !in bookings {
        return Skipped;
      }
      var booking := seen.bookings[id];
      if booking.trucksFilled >= booking.trucksNeeded || booking.status == FullyFilled
         || bookings[id].trucksFilled >= bookings[id].trucksNeeded {
        assert bookings == bookings[id := bookings[id]];
        return Done;
      }
      var filled := bookings[id].trucksFilled + 1;
      bookings := bookings[id := bookings[id].(trucksFilled := filled)];
      var status := if filled >= bookings[id].trucksNeeded then FullyFilled else PartiallyFilled;
      if bookings[id].status !in TERMINAL_BOOKING {
        bookings := bookings[id := bookings[id].(status := status)];
      }
      r := Done;
    }

    /** The update of the hard expiry, over the ids found stale before and in any order: each that is still open is
        expired, and nothing else changes. */
    method ExpireStaleBookings(stale: set<Id>)
      modifies `bookings
      ensures bookings.Keys == old(bookings).Keys
      ensures forall id | id in bookings :: id in stale ==> IsClosed(bookings[id].status)
      ensures forall id | id in bookings && bookings[id] != old(bookings)[id] ::
                && id in stale && !IsClosed(old(bookings)[id].status)
                && bookings[id] == old(bookings)[id].(status := Expired)
      ensures Tables() == ExpireStale(old(Tables()), stale).db
    {
      var todo := stale;
      while todo != {}
        invariant todo <= stale
        invariant Tables() == ExpireStale(old(Tables()), stale - todo).db
        decreases todo
      {
        var id :| id in todo;
        todo := todo - {id};
        assert stale - todo == (stale - todo - {id}) + {id};
        if id in bookings && bookings[id].status !in TERMINAL_BOOKING {
          bookings := bookings[id := bookings[id].(status := Expired)];
        }
      }
    }

    method CheckBookingCompletion(check: CompletionCheck, seen: Seen, id: Id) returns (r: Outcome)
      modifies `bookings
      ensures Result(Tables(), r) == Dispatch.CheckBookingCompletion(check, seen, old(Tables()), id)
    {
      var trips := set a | a in seen.assignments && seen.assignments[a].bookingId == id;
      var allTerminal := forall a | a in trips :: seen.assignments[a].status in {Completed, Cancelled, PartialDelivery};
      var hasCompleted := exists a | a in trips :: seen.assignments[a].status == Completed;
      TripsOf(check, seen.assignments, id, trips);
      if trips == {} || !allTerminal || (check.WantsDelivery? && !hasCompleted) {
        return Skipped;
      }
      if id !in seen.bookings || seen.bookings[id].status == BookingCompleted
         || seen.bookings[id].status == BookingCancelled {
        return Skipped;
      }
      if id !in bookings {
        return Failed(BookingNotFound);
      }
      bookings := bookings[id := bookings[id].(status := BookingCompleted)];
      r := Done;
    }
  }

  lemma TripsOf(check: CompletionCheck, assignments: map<Id, Assignment>, id: Id, trips: set<Id>)
    requires trips == set a | a in assignments && assignments[a].bookingId == id
    ensures TripsDone(check, assignments, id)
            <==> && trips != {}
                 && (forall a | a in trips :: assignments[a].status in {Completed, Cancelled, PartialDelivery})
                 && (check.WantsDelivery? ==> exists a | a in trips :: assignments[a].status == Completed)
  {
    assert forall a :: a in trips <==> a in assignments && assignments[a].bookingId == id;
  }
}
