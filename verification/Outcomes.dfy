/** Exactly when each service method succeeds and what it then writes, told from the rows it read and the rows its
    transaction finds, every status spelled out. */
module Outcomes {
  import opened StateMachines
  import opened Rows
  import opened Dispatch
  import opened Runs
  import opened Safety
  import opened FillConservation
  import opened TripMatching

  // ==== a trip is created ====

  /** A create wins exactly with an open booking and a free, suitable vehicle of the caller among the rows read, and a
      driver of the caller without a trip under way, and two unused ids, among the rows found. */
  lemma CreateWinsIff(seen: Seen, s: Db, req: CreateRequest)
    ensures CreateAssignment(seen, s, req).outcome == Done
            <==> && req.bookingId in seen.bookings && req.vehicleId in seen.vehicles
                 && seen.bookings[req.bookingId].status in {Active, PartiallyFilled}
                 && seen.vehicles[req.vehicleId].status == Available
                 && seen.vehicles[req.vehicleId].transporterId == req.transporterId
                 && Fits(seen.vehicles[req.vehicleId], seen.bookings[req.bookingId])
                 && req.driverId in s.drivers && s.drivers[req.driverId] == req.transporterId
                 && (forall id | id in s.assignments && s.assignments[id].driverId == req.driverId ::
                       s.assignments[id].status in {Completed, PartialDelivery, DriverDeclined, Cancelled})
                 && req.newId !in s.assignments
                 && (forall id | id in s.assignments :: s.assignments[id].tripId != req.tripId)
  {
  }

  /** Vehicle `v` is taken for the trip if its status is one of `from`, and nothing else of the fleet changes. */
  predicate TakesVehicle(
    s: Db, after: Db, v: Id, from: set<VehicleStatus>, to: VehicleStatus, tripId: Id, driverId: Id)
  {
    && after.vehicles.Keys == s.vehicles.Keys && after.drivers == s.drivers
    && (forall w | w in s.vehicles ::
          after.vehicles[w] ==
            if w == v && s.vehicles[w].status in from then
              s.vehicles[w].(status := to, currentTripId := Some(tripId), assignedDriverId := Some(driverId))
            else s.vehicles[w])
  }

  /** Vehicle `v` is free afterwards, and nothing else of the fleet changes. */
  predicate FreesVehicle(s: Db, after: Db, v: Id) {
    && after.vehicles.Keys == s.vehicles.Keys && after.drivers == s.drivers
    && (forall w | w in s.vehicles ::
          after.vehicles[w] ==
            if w == v && s.vehicles[w].status != Available then
              s.vehicles[w].(status := Available, currentTripId := None, assignedDriverId := None)
            else s.vehicles[w])
  }

  lemma ReleaseFrees(s: Db, after: Db, v: Id)
    requires after.vehicles == ReleaseVehicle(s, v).vehicles && after.drivers == s.drivers
    ensures FreesVehicle(s, after, v)
  {
  }

  /** One truck more on booking `b` if it has room, its status as it was. */
  predicate FillsOne(s: Db, after: Db, b: Id) {
    && after.bookings.Keys == s.bookings.Keys
    && (forall c | c in s.bookings ::
          after.bookings[c] ==
            if c == b && s.bookings[c].trucksFilled < s.bookings[c].trucksNeeded then
              s.bookings[c].(trucksFilled := s.bookings[c].trucksFilled + 1)
            else s.bookings[c])
  }

  lemma CommitFills(s: Db, req: CreateRequest)
    ensures FillsOne(s, CreateCommit(s, req), req.bookingId)
  {
    CommitTables(s, req);
  }

  lemma CommitHolds(s: Db, req: CreateRequest)
    ensures TakesVehicle(s, CreateCommit(s, req), req.vehicleId, {Available}, OnHold, req.tripId, req.driverId)
  {
    CommitTables(s, req);
  }

  /** What a winning create writes: the pending row, the vehicle if it is still available, one truck more. */
  lemma CreateWrites(seen: Seen, s: Db, req: CreateRequest)
    ensures var r := CreateAssignment(seen, s, req);
            if r.outcome == Done then
              && r.db.assignments == s.assignments[req.newId :=
                   Assignment(req.bookingId, req.transporterId, req.vehicleId, req.driverId, req.tripId, Pending)]
              && TakesVehicle(s, r.db, req.vehicleId, {Available}, OnHold, req.tripId, req.driverId)
              && FillsOne(s, r.db, req.bookingId)
            else r.db == s && r.outcome.Failed?
  {
    var r := CreateAssignment(seen, s, req);
    if r.outcome == Done {
      assert r.db == CreateCommit(s, req);
      CommitTables(s, req);
      CommitFills(s, req);
      CommitHolds(s, req);
    }
  }

  // ==== a trip is accepted ====

  /** An accept wins exactly on a row read pending and the driver's own and still pending, while none of the driver's
      other rows read next was in one of the five statuses of getActiveAssignmentByDriver. */
  lemma AcceptWinsIff(seen: Seen, s: Db, id: Id, driverId: Id)
    ensures AcceptAssignment(seen, s, id, driverId).outcome == Done
            <==> && id in seen.assignments && seen.assignments[id].status == Pending
                 && seen.assignments[id].driverId == driverId
                 && (forall other | other in seen.recheck && other != id && seen.recheck[other].driverId == driverId ::
                       seen.recheck[other].status !in {Pending, DriverAccepted, EnRoutePickup, AtPickup, InTransit})
                 && id in s.assignments && s.assignments[id].status == Pending
  {
  }

  /** What it writes: the row and the row's own vehicle. */
  lemma AcceptWrites(seen: Seen, s: Db, id: Id, driverId: Id)
    requires StaleView(seen.assignments, s.assignments)
    ensures var r := AcceptAssignment(seen, s, id, driverId);
            if r.outcome == Done then
              && id in s.assignments
              && r.db.assignments == s.assignments[id := s.assignments[id].(status := DriverAccepted)]
              && TakesVehicle(s, r.db, s.assignments[id].vehicleId, {OnHold, Available}, OnTrip,
                              s.assignments[id].tripId, driverId)
              && r.db.bookings == s.bookings
            else r.db == s && r.outcome.Failed?
  {
    if id in seen.assignments {
      assert RowStep(seen.assignments[id], s.assignments[id]);
    }
  }

  lemma AcceptAmongSafe(seen: Seen, s: Db, id: Id, driverId: Id)
    requires StaleView(seen.assignments, seen.recheck) && StaleView(seen.recheck, s.assignments)
    requires OneActiveTripPerDriver(seen.recheck)
    ensures AcceptAssignment(seen, s, id, driverId).outcome == Done
            <==> && id in seen.assignments
                 && s.assignments[id].status == Pending && s.assignments[id].driverId == driverId
  {
    AcceptWinsIff(seen, s, id, driverId);
    if id in seen.assignments {
      assert RowStep(seen.assignments[id], seen.recheck[id]);
      assert RowStep(seen.recheck[id], s.assignments[id]);
    }
  }

  /** In every run the driver check of accept decides nothing: a driver has one trip under way, so a row still pending
      is the only one. The accept wins exactly if the caller's row, read at any earlier moment, is still pending. */
  lemma AcceptInRuns(d: Decrement, states: seq<Db>, events: seq<Event>, k: nat)
    requires IsRun(d, states, events) && Safe(states[0]) && k < |events| && events[k].op.OpAccept?
    requires events[k].at.assignments <= events[k].at.recheck
    ensures ReadsFrom(events[k].at, k)
    ensures var id, found := events[k].op.id, states[k].assignments;
            OutcomeAt(d, states, events, k) == Done
            <==> && id in states[events[k].at.assignments].assignments
                 && id in found && found[id].status == Pending && found[id].driverId == events[k].op.driverId
  {
    assert StepAt(d, states, events, k);
    var at := events[k].at;
    SeenIsStale(d, states, events, k);
    TripsPersist(d, states, events, at.assignments, at.recheck);
    EveryRunIsSafe(d, states, events, at.recheck);
    AcceptAmongSafe(SeenAt(states, at), states[k], events[k].op.id, events[k].op.driverId);
  }

  // ==== a trip is declined, times out, or is cancelled ====

  /** The caller the row lets make this call. */
  predicate MayCall(op: Op, a: Assignment)
    requires LeavesTrip(op)
  {
    if op.OpDecline? then a.driverId == op.driverId
    else if op.OpCancel? then a.transporterId == op.userId || a.driverId == op.userId
    else true
  }

  /** What the call asks of the row it read: the caller, and the status in which the call may be made. */
  predicate Asks(op: Op, read: Assignment)
    requires LeavesTrip(op)
  {
    && MayCall(op, read)
    && (op.OpDecline? ==> read.status == Pending)
    && (op.OpCancel? ==> read.status !in {Completed, Cancelled, DriverDeclined, PartialDelivery})
  }

  /** What its transaction asks of the row it finds. */
  predicate Finds(op: Op, found: Assignment)
    requires LeavesTrip(op)
  {
    if op.OpCancel? then
      found.status in {Pending, DriverAccepted, EnRoutePickup, AtPickup, InTransit, ArrivedAtDrop}
    else found.status == Pending
  }

  predicate CountsDown(d: Decrement, bookings: map<Id, Booking>, b: Id) {
    && b in bookings
    && !(d == ThrowsOnClosed && bookings[b].status in {BookingCompleted, BookingCancelled, Expired})
  }

  /** Decline, timeout and cancel, however stale their read: each wins exactly if the row it read lets the caller, the
      row it finds is still pending (for cancel: has not ended), and the decrement of its booking does not throw. */
  lemma LeaveWinsIff(d: Decrement, seen: Seen, s: Db, op: Op)
    requires LeavesTrip(op) && StaleView(seen.assignments, s.assignments)
    ensures Exec(d, seen, s, op).outcome == Done
            <==> && op.id in seen.assignments && Asks(op, seen.assignments[op.id])
                 && op.id in s.assignments && Finds(op, s.assignments[op.id])
                 && CountsDown(d, s.bookings, s.assignments[op.id].bookingId)
  {
    if op.id in seen.assignments {
      assert RowStep(seen.assignments[op.id], s.assignments[op.id]);
    }
  }

  lemma {:induction false} ReferencesInRuns(d: Decrement, states: seq<Db>, events: seq<Event>, k: nat)
    requires IsRun(d, states, events) && References(states[0]) && k < |states|
    ensures References(states[k])
  {
    if k > 0 {
      ReferencesInRuns(d, states, events, k - 1);
      SeenIsStale(d, states, events, k - 1);
      assert StepAt(d, states, events, k - 1);
      StepKeepsReferences(d, SeenAt(states, events[k - 1].at), states[k - 1], events[k - 1].op);
    }
  }

  /** In every run neither the status read nor the lookup of the booking decides: only the caller, the status found, and
      whether the decrement throws. */
  lemma LeaveInRuns(d: Decrement, states: seq<Db>, events: seq<Event>, k: nat)
    requires IsRun(d, states, events) && References(states[0]) && k < |events| && LeavesTrip(events[k].op)
    ensures ReadsFrom(events[k].at, k)
    ensures var op, s := events[k].op, states[k];
            OutcomeAt(d, states, events, k) == Done
            <==> && op.id in states[events[k].at.assignments].assignments && op.id in s.assignments
                 && MayCall(op, s.assignments[op.id]) && Finds(op, s.assignments[op.id])
                 && (d == ThrowsOnClosed ==>
                       CountsDown(ThrowsOnClosed, s.bookings, s.assignments[op.id].bookingId))
  {
    assert StepAt(d, states, events, k);
    SeenIsStale(d, states, events, k);
    ReferencesInRuns(d, states, events, k);
    var op, seen := events[k].op, SeenAt(states, events[k].at);
    LeaveWinsIff(d, seen, states[k], op);
    if op.id in seen.assignments {
      assert RowStep(seen.assignments[op.id], states[k].assignments[op.id]);
    }
  }

  /** One truck less on booking `b`, down to zero, with the status of the new count, unless it is closed. */
  predicate UnfillsOne(s: Db, after: Db, b: Id) {
    && after.bookings.Keys == s.bookings.Keys
    && (forall c | c in s.bookings ::
          after.bookings[c] ==
            if c != b || s.bookings[c].status in {BookingCompleted, BookingCancelled, Expired} then s.bookings[c]
            else if s.bookings[c].trucksFilled > 1 then
              s.bookings[c].(trucksFilled := s.bookings[c].trucksFilled - 1, status := PartiallyFilled)
            else s.bookings[c].(trucksFilled := 0, status := Active))
  }

  /** What a winning one of the three writes: the row, its own vehicle, and one truck less on its own booking, down to
      zero, unless that is closed. */
  lemma LeaveWrites(d: Decrement, seen: Seen, s: Db, op: Op)
    requires LeavesTrip(op) && StaleView(seen.assignments, s.assignments)
    ensures var r := Exec(d, seen, s, op);
            if r.outcome == Done then
              && op.id in s.assignments
              && r.db.assignments == s.assignments[op.id := s.assignments[op.id].(
                   status := if op.OpCancel? then Cancelled else DriverDeclined)]
              && FreesVehicle(s, r.db, s.assignments[op.id].vehicleId)
              && UnfillsOne(s, r.db, s.assignments[op.id].bookingId)
            else r.db == s
  {
    LeaveTables(d, seen, s, op);
    var r := Exec(d, seen, s, op);
    if r.outcome == Done {
      FleetStepOf(d, seen, s, op);
      ReleaseFrees(s, r.db, s.assignments[op.id].vehicleId);
    }
  }

  // ==== a create undone ====

  lemma TakenThenFreed(s: Db, created: Db, after: Db, v: Id, tripId: Id, driverId: Id)
    requires TakesVehicle(s, created, v, {Available}, OnHold, tripId, driverId) && FreesVehicle(created, after, v)
    requires v in s.vehicles && s.vehicles[v].status == Available
    requires s.vehicles[v].currentTripId == None && s.vehicles[v].assignedDriverId == None
    ensures after.vehicles == s.vehicles && after.drivers == s.drivers
  {
  }

  lemma FilledThenUnfilled(s: Db, created: Db, after: Db, b: Id)
    requires FillsOne(s, created, b) && UnfillsOne(created, after, b)
    requires b in s.bookings && !IsClosed(s.bookings[b].status)
    requires 0 <= s.bookings[b].trucksFilled < s.bookings[b].trucksNeeded
    ensures after.bookings == s.bookings[b := s.bookings[b].(
              status := if s.bookings[b].trucksFilled == 0 then Active else PartiallyFilled)]
  {
  }

  lemma NewTripCanBeLeft(d: Decrement, seen: Seen, s: Db, req: CreateRequest, op: Op)
    requires CreateAssignment(seen, s, req).outcome == Done
    requires req.bookingId in s.bookings && !IsClosed(s.bookings[req.bookingId].status)
    requires LeavesTrip(op) && op.id == req.newId && MayCall(op, NewAssignment(req))
    ensures var created := CreateAssignment(seen, s, req).db;
            Exec(d, Fresh(created), created, op).outcome == Done
  {
    CreateWrites(seen, s, req);
    var created := CreateAssignment(seen, s, req).db;
    LeaveWinsIff(d, Fresh(created), created, op);
  }

  /** Whichever way the new trip is taken back, by its driver, by the timer or by a cancel, and under either decrement:
      the call wins, and the tables are as before the create but for the ended row and the status of the booking, which
      is again the one of its count. */
  lemma LeaveUndoesCreate(d: Decrement, seen: Seen, s: Db, req: CreateRequest, op: Op)
    requires CreateAssignment(seen, s, req).outcome == Done
    requires req.bookingId in s.bookings && !IsClosed(s.bookings[req.bookingId].status)
    requires 0 <= s.bookings[req.bookingId].trucksFilled < s.bookings[req.bookingId].trucksNeeded
    requires req.vehicleId in s.vehicles && s.vehicles[req.vehicleId].status == Available
    requires s.vehicles[req.vehicleId].currentTripId == None && s.vehicles[req.vehicleId].assignedDriverId == None
    requires LeavesTrip(op) && op.id == req.newId && MayCall(op, NewAssignment(req))
    ensures var created := CreateAssignment(seen, s, req).db;
            var b, ended := s.bookings[req.bookingId], if op.OpCancel? then Cancelled else DriverDeclined;
            Exec(d, Fresh(created), created, op) == Result(
              s.(assignments := s.assignments[req.newId := NewAssignment(req).(status := ended)],
                 bookings := s.bookings[req.bookingId :=
                   b.(status := if b.trucksFilled == 0 then Active else PartiallyFilled)]),
              Done)
  {
    var created := CreateAssignment(seen, s, req).db;
    var after := Exec(d, Fresh(created), created, op).db;
    NewTripCanBeLeft(d, seen, s, req, op);
    CreateWrites(seen, s, req);
    LeaveWrites(d, Fresh(created), created, op);
    TakenThenFreed(s, created, after, req.vehicleId, req.tripId, req.driverId);
    FilledThenUnfilled(s, created, after, req.bookingId);
  }

  // ==== a trip moves on ====

  /** completeTrip wins exactly on a row read and found under way, arrived or not. */
  lemma CompleteWinsIff(read: map<Id, Assignment>, s: Db, id: Id, target: AssignmentStatus)
    ensures CompleteTrip(read, s, id, target).outcome == Done
            <==> && id in read && read[id].status !in {Completed, Cancelled, DriverDeclined, PartialDelivery}
                 && id in s.assignments
                 && s.assignments[id].status !in {Completed, Cancelled, DriverDeclined, PartialDelivery}
  {
  }

  lemma CompleteWrites(read: map<Id, Assignment>, s: Db, id: Id, target: AssignmentStatus)
    requires StaleView(read, s.assignments)
    ensures var r := CompleteTrip(read, s, id, target);
            if r.outcome == Done then
              && id in s.assignments
              && r.db.assignments == s.assignments[id := s.assignments[id].(status := target)]
              && FreesVehicle(s, r.db, s.assignments[id].vehicleId) && r.db.bookings == s.bookings
            else r.db == s
  {
    if id in read {
      assert RowStep(read[id], s.assignments[id]);
    }
  }

  /** The single writer wins exactly if the target is another status, next to the one read by the table, and the row
      found has not ended; then it writes that row and nothing else. */
  lemma SingleWriterWinsIff(seen: Seen, s: Db, id: Id, target: AssignmentStatus)
    ensures var r := UpdateAssignmentStatus(seen, s, id, target);
            && (r.outcome == Done
                <==> && id in seen.assignments && target != seen.assignments[id].status
                     && target in AssignmentNext(seen.assignments[id].status)
                     && id in s.assignments
                     && s.assignments[id].status !in {Completed, Cancelled, DriverDeclined, PartialDelivery})
            && if r.outcome == Done then
                 r.db == s.(assignments := s.assignments[id := s.assignments[id].(status := target)])
               else r.db == s
  {
  }

  /** A status update wins exactly for the trip's driver and a target next to the status read, and then: a delivery
      through the orchestrator, if the row is read again and found under way; a delivery without it, if the row found
      still has the status read; anything else, whatever the status found. */
  lemma UpdateStatusWinsIff(
    seen: Seen, s: Db, id: Id, driverId: Id, target: AssignmentStatus, orchestrator: bool)
    ensures UpdateStatus(seen, s, id, driverId, target, orchestrator).outcome == Done
            <==> && id in seen.assignments && seen.assignments[id].driverId == driverId
                 && target in AssignmentNext(seen.assignments[id].status)
                 && id in s.assignments
                 && (target in {Completed, PartialDelivery} && orchestrator ==>
                       && id in seen.recheck
                       && seen.recheck[id].status !in {Completed, Cancelled, DriverDeclined, PartialDelivery}
                       && s.assignments[id].status !in {Completed, Cancelled, DriverDeclined, PartialDelivery})
                 && (target in {Completed, PartialDelivery} && !orchestrator ==>
                       s.assignments[id].status == seen.assignments[id].status)
  {
    if IsDelivery(target) && orchestrator {
      CompleteWinsIff(seen.recheck, s, id, target);
    }
  }

  /** The booking of a trip that sets off is in progress from then on, if it was partially or fully filled. */
  predicate StartsParent(s: Db, after: Db, b: Id, target: AssignmentStatus) {
    && after.bookings.Keys == s.bookings.Keys
    && (forall c | c in s.bookings ::
          after.bookings[c] ==
            if c == b && target == InTransit && s.bookings[c].status in {FullyFilled, PartiallyFilled} then
              s.bookings[c].(status := InProgress)
            else s.bookings[c])
  }

  lemma DirectDeliveryWrites(seen: Seen, s: Db, id: Id, driverId: Id, target: AssignmentStatus)
    requires StaleView(seen.assignments, s.assignments) && IsDelivery(target)
    requires UpdateStatus(seen, s, id, driverId, target, false).outcome == Done
    ensures var after := UpdateStatus(seen, s, id, driverId, target, false).db;
            && after.assignments == s.assignments[id := s.assignments[id].(status := target)]
            && FreesVehicle(s, after, s.assignments[id].vehicleId) && after.bookings == s.bookings
  {
    assert RowStep(seen.assignments[id], s.assignments[id]);
    ReleaseFrees(s, UpdateStatus(seen, s, id, driverId, target, false).db, s.assignments[id].vehicleId);
  }

  /** What a winning status update writes: the row; the row's own vehicle with a delivery, the booking of a trip that
      sets off otherwise. */
  lemma UpdateStatusWrites(
    seen: Seen, s: Db, id: Id, driverId: Id, target: AssignmentStatus, orchestrator: bool)
    requires StaleView(seen.assignments, s.assignments) && StaleView(seen.recheck, s.assignments)
    requires UpdateStatus(seen, s, id, driverId, target, orchestrator).outcome == Done
    ensures var after := UpdateStatus(seen, s, id, driverId, target, orchestrator).db;
            && id in s.assignments
            && after.assignments == s.assignments[id := s.assignments[id].(status := target)]
            && (if target in {Completed, PartialDelivery} then FreesVehicle(s, after, s.assignments[id].vehicleId)
                else after.vehicles == s.vehicles && after.drivers == s.drivers)
            && StartsParent(s, after, s.assignments[id].bookingId, target)
  {
    if IsDelivery(target) && orchestrator {
      CompleteWrites(seen.recheck, s, id, target);
    } else if IsDelivery(target) {
      DirectDeliveryWrites(seen, s, id, driverId, target);
    } else {
      assert RowStep(seen.assignments[id], s.assignments[id]);
    }
  }

  /** The schedule compensation frees the vehicle in any case, and declines the trip exactly if it is still pending. */
  lemma ScheduleFailureWrites(seen: Seen, s: Db, id: Id)
    requires StaleView(seen.assignments, s.assignments) && id in seen.assignments
    ensures var r := ScheduleFailure(seen, s, id);
            && r.outcome == Done
            && r.db.assignments == s.assignments[id :=
                 if s.assignments[id].status == Pending then s.assignments[id].(status := DriverDeclined)
                 else s.assignments[id]]
            && FreesVehicle(s, r.db, s.assignments[id].vehicleId) && r.db.bookings == s.bookings
  {
    assert RowStep(seen.assignments[id], s.assignments[id]);
    ReleaseFrees(s, ScheduleFailure(seen, s, id).db, s.assignments[id].vehicleId);
  }

  // ==== bookings ====

  /** A booking is created exactly if the transaction sees no booking of the customer that is neither completed,
      cancelled nor expired, no open order, and an unused id; the new row is the request's, field by field. */
  lemma CreateBookingWinsIff(s: Db, req: BookingRequest, openOrder: bool)
    ensures var r := CreateBooking(s, req, openOrder);
            && (r.outcome == Done
                <==> && !openOrder && req.newId !in s.bookings
                     && forall id | id in s.bookings && s.bookings[id].customerId == req.customerId ::
                          s.bookings[id].status in {BookingCompleted, BookingCancelled, Expired})
            && (if r.outcome == Done then
                  && r.db == s.(bookings := r.db.bookings)
                  && r.db.bookings.Keys == s.bookings.Keys + {req.newId}
                  && (forall id | id in s.bookings :: r.db.bookings[id] == s.bookings[id])
                  && var b := r.db.bookings[req.newId];
                     && b.customerId == req.customerId && b.vehicleType == req.vehicleType
                     && b.vehicleSubtype == req.vehicleSubtype && b.trucksNeeded == req.trucksNeeded
                     && b.expiresAt == req.expiresAt && b.trucksFilled == 0 && b.status == Created
                else r.db == s && r.outcome.Failed?)
  {
  }

  /** A booking is cancelled exactly if it was read as the caller's and not cancelled, and is found before its trips set
      off and not closed. On a cancelled one the call is a silent success; in every losing case nothing changes. */
  lemma CancelBookingWinsIff(seen: Seen, s: Db, id: Id, customerId: Id)
    requires forall b | b in seen.bookings :: b in s.bookings && BookingRowStep(seen.bookings[b], s.bookings[b])
    ensures var r := CancelBooking(seen, s, id, customerId);
            && (r.outcome == Done
                <==> && id in seen.bookings && seen.bookings[id].customerId == customerId
                     && seen.bookings[id].status != BookingCancelled
                     && s.bookings[id].status in {Created, Broadcasting, Active, PartiallyFilled, FullyFilled})
            && (r.outcome == Skipped
                <==> && id in seen.bookings && seen.bookings[id].customerId == customerId
                     && (seen.bookings[id].status == BookingCancelled || s.bookings[id].status == BookingCancelled))
            && (r.outcome != Done ==> r.db == s)
  {
    if id in seen.bookings {
      assert BookingRowStep(seen.bookings[id], s.bookings[id]);
    }
  }

  /** The completion check writes exactly if it read a trip of the booking (one delivered in full, where that is
      wanted), read every trip of it as completed, cancelled or partly delivered, and read the booking as neither
      completed nor cancelled; whatever the booking is by then, open or closed, it becomes completed. */
  lemma CompletionCheckWritesIff(check: CompletionCheck, seen: Seen, s: Db, id: Id)
    ensures var r := CheckBookingCompletion(check, seen, s, id);
            && (r.outcome == Done
                <==> && (exists a | a in seen.assignments && seen.assignments[a].bookingId == id ::
                           check == AnyEnding || seen.assignments[a].status == Completed)
                     && (forall a | a in seen.assignments && seen.assignments[a].bookingId == id ::
                           seen.assignments[a].status in {Completed, Cancelled, PartialDelivery})
                     && id in seen.bookings && seen.bookings[id].status !in {BookingCompleted, BookingCancelled}
                     && id in s.bookings)
            && if r.outcome == Done then
                 r.db == s.(bookings := s.bookings[id := s.bookings[id].(status := BookingCompleted)])
               else r.db == s
  {
  }

  /** The timeout handler expires exactly a booking read in one of the four statuses before it is full, with a count
      below the trucks needed or of zero, and still found in one of the four. */
  lemma BookingTimeoutWritesIff(seen: Seen, s: Db, id: Id)
    ensures var r := HandleBookingTimeout(seen, s, id);
            && (r.outcome == Done
                <==> && id in seen.bookings
                     && seen.bookings[id].status in {Created, Broadcasting, Active, PartiallyFilled})
            && r.db == (if && id in seen.bookings && id in s.bookings
                           && seen.bookings[id].status in {Created, Broadcasting, Active, PartiallyFilled}
                           && s.bookings[id].status in {Created, Broadcasting, Active, PartiallyFilled}
                           && (0 < seen.bookings[id].trucksFilled < seen.bookings[id].trucksNeeded
                               || seen.bookings[id].trucksFilled == 0)
                        then s.(bookings := s.bookings[id := s.bookings[id].(status := Expired)]) else s)
  {
  }

  /** The status writes of the broadcast pipeline: from which status each changes the row, and to which. */
  lemma StatusWriteChangesIff(d: Decrement, seen: Seen, s: Db, write: StatusWrite, id: Id)
    requires id in s.bookings
    ensures var found := s.bookings[id].status;
            Exec(d, seen, s, OpStatusWrite(write, id)).db == s.(bookings := s.bookings[id := s.bookings[id].(status :=
              if write == StartBroadcast && found == Created then Broadcasting
              else if write == Activate && found == Broadcasting then Active
              else if write == ExpireUnnotified && found in {Created, Broadcasting} then Expired
              else if && write in {ExpireAfterBroadcastFailure, ExpireOnResume}
                      && found in {Created, Broadcasting, Active, PartiallyFilled, InProgress} then Expired
              else found)])
  {
  }

  /** A standalone fill counts one truck more exactly if it read the booking neither full nor fully_filled and still
      finds room; the status follows the count unless the booking is closed. */
  lemma IncrementCountsIff(seen: Seen, s: Db, id: Id)
    requires id in seen.bookings && id in s.bookings
    ensures var r, b := IncrementTrucksFilled(seen, s, id), s.bookings[id];
            && r.outcome == Done && r.db == s.(bookings := r.db.bookings)
            && id in r.db.bookings && r.db.bookings == s.bookings[id := r.db.bookings[id]]
            && if && seen.bookings[id].trucksFilled < seen.bookings[id].trucksNeeded
                  && seen.bookings[id].status != FullyFilled && b.trucksFilled < b.trucksNeeded
               then
                 r.db.bookings[id] == b.(
                   trucksFilled := b.trucksFilled + 1,
                   status := if b.status in {BookingCompleted, BookingCancelled, Expired} then b.status
                             else if b.trucksFilled + 1 == b.trucksNeeded then FullyFilled else PartiallyFilled)
               else r.db.bookings[id] == b
  {
  }

  // ==== refusals ====

  predicate UnderWay(a: Assignment) {
    a.status !in {Completed, PartialDelivery, DriverDeclined, Cancelled}
  }

  /** Whatever reason a create is refused with is true of the rows read and found. */
  lemma CreateRefusalIsTrue(seen: Seen, s: Db, req: CreateRequest, code: ErrorCode)
    requires CreateAssignment(seen, s, req).outcome == Failed(code)
    ensures code == BookingNotFound <==> req.bookingId !in seen.bookings
    ensures code != BookingNotFound ==>
              (code == BookingNotActive <==> seen.bookings[req.bookingId].status !in {Active, PartiallyFilled})
    ensures code == VehicleNotFound ==> req.vehicleId !in seen.vehicles
    ensures code in {VehicleBusy, VehicleMismatch, VehicleSubtypeMismatch} ==>
              req.vehicleId in seen.vehicles && req.bookingId in seen.bookings
              && var vehicle, booking := seen.vehicles[req.vehicleId], seen.bookings[req.bookingId];
                 && (code == VehicleBusy <==> vehicle.status != Available)
                 && (code == VehicleMismatch ==> vehicle.vehicleType != booking.vehicleType)
                 && (code == VehicleSubtypeMismatch ==> !Fits(vehicle, booking.(vehicleType := vehicle.vehicleType)))
    ensures code == Forbidden ==>
              (req.vehicleId in seen.vehicles && seen.vehicles[req.vehicleId].transporterId != req.transporterId)
              || (req.driverId in s.drivers && s.drivers[req.driverId] != req.transporterId)
    ensures code == DriverNotFound ==> req.driverId !in s.drivers
    ensures code == DriverBusy ==>
              exists id | id in s.assignments ::
                s.assignments[id].driverId == req.driverId && UnderWay(s.assignments[id])
    ensures code == DuplicateKey ==>
              req.newId in s.assignments || exists id | id in s.assignments :: s.assignments[id].tripId == req.tripId
  {
    if code == DriverBusy {
      var id :| id in s.assignments && s.assignments[id].driverId == req.driverId
                && !IsTerminal(s.assignments[id].status);
      assert UnderWay(s.assignments[id]);
    }
  }

  /** The five refusals of an accept: the three on the row read exactly when, the other two only when. */
  lemma AcceptRefusalIsTrue(seen: Seen, s: Db, id: Id, driverId: Id)
    ensures var r := AcceptAssignment(seen, s, id, driverId).outcome;
            && (r == Failed(AssignmentNotFound) <==> id !in seen.assignments)
            && (r == Failed(Forbidden) <==> id in seen.assignments && seen.assignments[id].driverId != driverId)
            && (r == Failed(InvalidStatus) <==>
                  && id in seen.assignments && seen.assignments[id].driverId == driverId
                  && seen.assignments[id].status != Pending)
            && (r == Failed(DriverBusy) ==>
                  exists other | other in seen.recheck && other != id :: seen.recheck[other].driverId == driverId
                    && seen.recheck[other].status in {Pending, DriverAccepted, EnRoutePickup, AtPickup, InTransit})
            && (r == Failed(AssignmentStateChanged) ==> id !in s.assignments || s.assignments[id].status != Pending)
            && (r == Done || r in {Failed(AssignmentNotFound), Failed(Forbidden), Failed(InvalidStatus),
                                   Failed(DriverBusy), Failed(AssignmentStateChanged)})
  {
  }

  /** Decline, timeout and cancel: a silent skip exactly if the row has moved on after the checks were passed, and each
      error for its own reason only. */
  lemma LeaveRefusedIff(d: Decrement, seen: Seen, s: Db, op: Op)
    requires LeavesTrip(op) && StaleView(seen.assignments, s.assignments)
    ensures var r := Exec(d, seen, s, op).outcome;
            if op.id !in seen.assignments then
              r == if op.OpTimeout? then Skipped else Failed(AssignmentNotFound)
            else
              var read, found := seen.assignments[op.id], s.assignments[op.id];
              && (r == Failed(Forbidden) <==> !MayCall(op, read))
              && (r == Failed(if op.OpCancel? then AssignmentAlreadyTerminal else InvalidStatus) <==>
                    MayCall(op, read) && !Asks(op, read))
              && (r == Skipped <==> Asks(op, read) && !Finds(op, found))
              && (r == Failed(BookingNotFound) <==>
                    Asks(op, read) && Finds(op, found) && found.bookingId !in s.bookings)
              && (r == Failed(DecrementFailed) <==>
                    && Asks(op, read) && Finds(op, found)
                    && found.bookingId in s.bookings && !CountsDown(d, s.bookings, found.bookingId))
  {
    if op.id in seen.assignments {
      assert RowStep(seen.assignments[op.id], s.assignments[op.id]);
    }
  }

  /** A status update is refused as a conflict exactly by the delivery without the orchestrator that finds another
      status than it read. */
  lemma UpdateStatusRefusedIff(
    seen: Seen, s: Db, id: Id, driverId: Id, target: AssignmentStatus, orchestrator: bool)
    requires StaleView(seen.assignments, s.assignments) && StaleView(seen.recheck, s.assignments)
    ensures var r := UpdateStatus(seen, s, id, driverId, target, orchestrator).outcome;
            && (r == Failed(Forbidden) <==> id in seen.assignments && seen.assignments[id].driverId != driverId)
            && (r == Failed(InvalidTransition) <==>
                  && id in seen.assignments && seen.assignments[id].driverId == driverId
                  && target !in AssignmentNext(seen.assignments[id].status))
            && (r == Failed(StatusConflict) <==>
                  && id in seen.assignments && seen.assignments[id].driverId == driverId
                  && target in AssignmentNext(seen.assignments[id].status)
                  && target in {Completed, PartialDelivery} && !orchestrator
                  && s.assignments[id].status != seen.assignments[id].status)
            && (id !in seen.assignments ==> r == Failed(AssignmentNotFound))
  {
    if id in seen.assignments {
      assert RowStep(seen.assignments[id], s.assignments[id]);
    }
  }
}
