/** Runs: any interleaving of service calls, each transaction atomic, each earlier read as stale as it likes. */
module Runs {
  import opened StateMachines
  import opened Rows
  import opened Dispatch

  /** For each table read before the transaction, the index of the state it was read from. */
  datatype ReadAt = ReadAt(assignments: nat, recheck: nat, vehicles: nat, bookings: nat)

  datatype Event = Event(op: Op, at: ReadAt)

  predicate ReadsFrom(at: ReadAt, i: nat) {
    at.assignments <= i && at.recheck <= i && at.vehicles <= i && at.bookings <= i
  }

  ghost function SeenAt(states: seq<Db>, at: ReadAt): Seen
    requires |states| > 0 && ReadsFrom(at, |states| - 1)
  {
    Seen(states[at.assignments].assignments, states[at.recheck].assignments,
         states[at.vehicles].vehicles, states[at.bookings].bookings)
  }

  /** The one read that is not stale: updateStatus writes trip progress over whatever it finds, so that write is taken
      together with the read of its row. */
  predicate ReadsAtomically(seen: Seen, s: Db, op: Op) {
    op.OpUpdateStatus? && !IsDelivery(op.target) && op.id in s.assignments ==>
      op.id in seen.assignments && seen.assignments[op.id].status == s.assignments[op.id].status
  }

  ghost predicate StepAt(d: Decrement, states: seq<Db>, events: seq<Event>, i: nat)
    requires i < |events| && i + 1 < |states|
  {
    && ReadsFrom(events[i].at, i)
    && ReadsAtomically(SeenAt(states, events[i].at), states[i], events[i].op)
    && states[i + 1] == Exec(d, SeenAt(states, events[i].at), states[i], events[i].op).db
  }

  ghost predicate IsRun(d: Decrement, states: seq<Db>, events: seq<Event>) {
    && |states| == |events| + 1
    && forall i :: 0 <= i < |events| ==> StepAt(d, states, events, i)
  }

  // ==== what one step may do to the assignment table ====

  predicate SameTrip(a: Assignment, b: Assignment) {
    a.(status := b.status) == b
  }

  predicate RowStep(a: Assignment, b: Assignment) {
    && SameTrip(a, b)
    && (IsTerminal(a.status) ==> b == a)
    && (a.status != Pending ==> b.status != Pending)
  }

  predicate TripStep(a: map<Id, Assignment>, b: map<Id, Assignment>) {
    && (forall id | id in a :: id in b && RowStep(a[id], b[id]))
    && (forall id | id in b && id !in a ::
          b[id].status == Pending && DriverIdle(a, b[id].driverId) && TripUnused(a, b[id].tripId))
    && (forall i, j | i in b && j in b && i !in a && j !in a :: i == j)
  }

  // ==== what one step may do to the booking table ====

  predicate WithinCapacity(b: Booking) {
    0 <= b.trucksFilled <= b.trucksNeeded
  }

  predicate BookingRowStep(a: Booking, b: Booking) {
    && a.customerId == b.customerId && a.trucksNeeded == b.trucksNeeded
    && a.vehicleType == b.vehicleType && a.vehicleSubtype == b.vehicleSubtype
    && (IsClosed(a.status) ==> b.status == a.status || b.status == BookingCompleted)
    && (WithinCapacity(a) ==> WithinCapacity(b))
  }

  predicate BookingStep(a: map<Id, Booking>, b: map<Id, Booking>) {
    && (forall id | id in a :: id in b && BookingRowStep(a[id], b[id]))
    && (forall id | id in b && id !in a ::
          b[id].status == Created && WithinCapacity(b[id]) && NoOpenBooking(a, b[id].customerId))
    && (forall i, j | i in b && j in b && i !in a && j !in a :: i == j)
  }

  lemma MoveIsTripStep(s: Db, id: Id, to: AssignmentStatus)
    requires id in s.assignments && !IsTerminal(s.assignments[id].status)
    requires s.assignments[id].status == Pending || to != Pending
    ensures TripStep(s.assignments, WithStatus(s, id, to).assignments)
  {
  }

  /** Either the table is untouched or one active row moves on. */
  predicate MovesAtMost(s: Db, after: Db, id: Id) {
    after.assignments == s.assignments
    || (&& id in s.assignments && id in after.assignments && !IsTerminal(s.assignments[id].status)
        && (s.assignments[id].status == Pending || after.assignments[id].status != Pending)
        && after.assignments == WithStatus(s, id, after.assignments[id].status).assignments)
  }

  /** What the shared exit transaction does, table by table. */
  lemma ExitTxTables(
    d: Decrement, s: Db, id: Id, from: set<AssignmentStatus>, to: AssignmentStatus, vehicleId: Id, bookingId: Id)
    ensures var r := ExitTx(d, s, id, from, to, vehicleId, bookingId);
            if r.outcome == Done then
              && id in s.assignments && s.assignments[id].status in from && bookingId in s.bookings
              && (IsClosed(s.bookings[bookingId].status) ==> d == SkipsClosed)
              && r.db.assignments == WithStatus(s, id, to).assignments
              && r.db.vehicles == ReleaseVehicle(s, vehicleId).vehicles
              && r.db.bookings == s.bookings[bookingId := Decremented(s.bookings[bookingId])]
            else r.db == s
  {
  }

  /** Decline, timeout and cancel of an assignment. */
  predicate LeavesTrip(op: Op) {
    op.OpDecline? || op.OpTimeout? || op.OpCancel?
  }

  function LeaveFrom(op: Op): set<AssignmentStatus> {
    if op.OpCancel? then ACTIVE_ASSIGNMENT else {Pending}
  }

  function LeaveTo(op: Op): AssignmentStatus {
    if op.OpCancel? then Cancelled else DriverDeclined
  }

  /** Each of the three either stops at its checks or is the shared transaction, on the vehicle and booking of the row
      it read. */
  predicate IsLeave(d: Decrement, seen: Seen, s: Db, op: Op, r: Result)
    requires LeavesTrip(op)
  {
    || (r.db == s && r.outcome != Done)
    || (&& op.id in seen.assignments
        && r == ExitTx(d, s, op.id, LeaveFrom(op), LeaveTo(op), seen.assignments[op.id].vehicleId,
                       seen.assignments[op.id].bookingId))
  }

  lemma LeaveIsExitTx(d: Decrement, seen: Seen, s: Db, op: Op)
    requires LeavesTrip(op)
    ensures IsLeave(d, seen, s, op, Exec(d, seen, s, op))
  {
  }

  lemma AcceptMoves(seen: Seen, s: Db, id: Id, driverId: Id)
    ensures MovesAtMost(s, AcceptAssignment(seen, s, id, driverId).db, id)
  {
  }

  lemma ScheduleFailureMoves(seen: Seen, s: Db, id: Id)
    ensures MovesAtMost(s, ScheduleFailure(seen, s, id).db, id)
  {
  }

  lemma LeavesMove(d: Decrement, seen: Seen, s: Db, op: Op)
    requires LeavesTrip(op)
    ensures MovesAtMost(s, Exec(d, seen, s, op).db, op.id)
  {
  }

  lemma ExitsMove(d: Decrement, seen: Seen, s: Db, op: Op)
    requires op.OpAccept? || LeavesTrip(op) || op.OpScheduleFailure?
    ensures MovesAtMost(s, Exec(d, seen, s, op).db, op.id)
  {
    if op.OpAccept? {
      AcceptMoves(seen, s, op.id, op.driverId);
    } else if op.OpScheduleFailure? {
      ScheduleFailureMoves(seen, s, op.id);
    } else {
      LeavesMove(d, seen, s, op);
    }
  }

  lemma CompleteTripMoves(read: map<Id, Assignment>, s: Db, id: Id, target: AssignmentStatus)
    requires target != Pending
    ensures MovesAtMost(s, CompleteTrip(read, s, id, target).db, id)
  {
  }

  lemma NextIsNeverPending(status: AssignmentStatus)
    ensures Pending !in AssignmentNext(status)
    ensures AssignmentNext(status) != {} ==> !IsTerminal(status)
  {
  }

  /** The booking table after the parent write of a trip that starts moving. */
  function ParentStarted(s: Db, bookingId: Id, target: AssignmentStatus): map<Id, Booking> {
    if target == InTransit then CasBooking(s, bookingId, {FullyFilled, PartiallyFilled}, InProgress).bookings
    else s.bookings
  }

  /** updateStatus touches no trip and no vehicle, or writes the target: a delivery over a row that has not ended and
      together with its vehicle, anything else unguarded and without it. */
  predicate UpdatesStatus(
    seen: Seen, s: Db, id: Id, target: AssignmentStatus, orchestrator: bool, after: Db)
  {
    || (&& after.assignments == s.assignments && after.vehicles == s.vehicles
        && (after.bookings != s.bookings ==>
              && id in seen.assignments && target == InTransit
              && after.bookings == ParentStarted(s, seen.assignments[id].bookingId, target)))
    || (&& id in seen.assignments && id in s.assignments && target in AssignmentNext(seen.assignments[id].status)
        && after.assignments == WithStatus(s, id, target).assignments
        && if IsDelivery(target) then
             && !IsTerminal(s.assignments[id].status) && after.bookings == s.bookings
             && (orchestrator ==> id in seen.recheck)
             && var row := if orchestrator then seen.recheck[id] else seen.assignments[id];
                after.vehicles == ReleaseVehicle(s, row.vehicleId).vehicles
           else
             && after.vehicles == s.vehicles
             && after.bookings == ParentStarted(s, seen.assignments[id].bookingId, target))
  }

  lemma DeliveryShape(seen: Seen, s: Db, id: Id, driverId: Id, target: AssignmentStatus, orchestrator: bool)
    requires IsDelivery(target)
    ensures UpdatesStatus(seen, s, id, target, orchestrator,
                          UpdateStatus(seen, s, id, driverId, target, orchestrator).db)
  {
  }

  lemma UpdateStatusShape(
    seen: Seen, s: Db, id: Id, driverId: Id, target: AssignmentStatus, orchestrator: bool)
    ensures UpdatesStatus(seen, s, id, target, orchestrator,
                          UpdateStatus(seen, s, id, driverId, target, orchestrator).db)
  {
    if IsDelivery(target) {
      DeliveryShape(seen, s, id, driverId, target, orchestrator);
    }
  }

  lemma UpdateStatusMoves(
    seen: Seen, s: Db, id: Id, driverId: Id, target: AssignmentStatus, orchestrator: bool)
    requires ReadsAtomically(seen, s, OpUpdateStatus(id, driverId, target, orchestrator))
    ensures MovesAtMost(s, UpdateStatus(seen, s, id, driverId, target, orchestrator).db, id)
  {
    UpdateStatusShape(seen, s, id, driverId, target, orchestrator);
    if id in seen.assignments {
      NextIsNeverPending(seen.assignments[id].status);
    }
  }

  lemma ProgressMoves(d: Decrement, seen: Seen, s: Db, op: Op)
    requires op.OpComplete? || op.OpSingleWriter? || op.OpUpdateStatus?
    requires ReadsAtomically(seen, s, op)
    ensures MovesAtMost(s, Exec(d, seen, s, op).db, op.id)
  {
    match op
    case OpComplete(id, target) =>
      if IsDelivery(target) {
        CompleteTripMoves(seen.assignments, s, id, target);
      }
    case OpSingleWriter(id, target) =>
      if id in seen.assignments {
        NextIsNeverPending(seen.assignments[id].status);
      }
    case OpUpdateStatus(id, driverId, target, orchestrator) =>
      UpdateStatusMoves(seen, s, id, driverId, target, orchestrator);
  }

  lemma CommitTables(s: Db, req: CreateRequest)
    ensures CreateCommit(s, req).assignments == s.assignments[req.newId := NewAssignment(req)]
    ensures CreateCommit(s, req).vehicles == HoldVehicle(s, req.vehicleId, req.tripId, req.driverId).vehicles
    ensures CreateCommit(s, req).bookings == FillOne(s, req.bookingId).bookings
  {
  }

  lemma CreateIsTripStep(seen: Seen, s: Db, req: CreateRequest)
    ensures TripStep(s.assignments, CreateAssignment(seen, s, req).db.assignments)
  {
  }

  lemma CancelBookingIsTripStep(seen: Seen, s: Db, id: Id, customerId: Id)
    ensures TripStep(s.assignments, CancelBooking(seen, s, id, customerId).db.assignments)
  {
  }

  /** What every operation does to the assignment table, stale reads or not: ended rows stay as they are, nothing
      returns to pending, and a row is added only for an idle driver under an unused trip id. */
  lemma TripStepOf(d: Decrement, seen: Seen, s: Db, op: Op)
    requires ReadsAtomically(seen, s, op)
    ensures TripStep(s.assignments, Exec(d, seen, s, op).db.assignments)
  {
    if op.OpCreate? {
      CreateIsTripStep(seen, s, op.req);
    } else if op.OpCancelBooking? {
      CancelBookingIsTripStep(seen, s, op.bookingId, op.customerId);
    } else {
      OtherOpsAreTripSteps(d, seen, s, op);
    }
  }

  lemma OtherOpsAreTripSteps(d: Decrement, seen: Seen, s: Db, op: Op)
    requires ReadsAtomically(seen, s, op) && !op.OpCreate? && !op.OpCancelBooking?
    ensures TripStep(s.assignments, Exec(d, seen, s, op).db.assignments)
  {
    var after := Exec(d, seen, s, op).db;
    if op.OpComplete? || op.OpSingleWriter? || op.OpUpdateStatus? {
      ProgressMoves(d, seen, s, op);
    } else if op.OpAccept? || LeavesTrip(op) || op.OpScheduleFailure? {
      ExitsMove(d, seen, s, op);
    } else {
      assert after.assignments == s.assignments;
    }
    if after.assignments != s.assignments {
      MoveIsTripStep(s, op.id, after.assignments[op.id].status);
    }
  }

  /** Either the table is untouched or one row is rewritten within the rules. */
  predicate RewritesAtMost(s: Db, after: Db, id: Id) {
    after.bookings == s.bookings
    || (&& id in s.bookings && id in after.bookings && BookingRowStep(s.bookings[id], after.bookings[id])
        && after.bookings == s.bookings[id := after.bookings[id]])
  }

  lemma RewriteIsBookingStep(s: Db, after: Db, id: Id)
    requires RewritesAtMost(s, after, id)
    ensures BookingStep(s.bookings, after.bookings)
  {
  }

  /** The booking a service method on an assignment writes to. */
  function BookingOf(seen: Seen, op: Op): Id {
    match op
    case OpCreate(req) => req.bookingId
    case OpStatusWrite(_, id) => id
    case OpBookingTimeout(id) => id
    case OpCancelBooking(id, _) => id
    case OpIncrement(id) => id
    case OpDecrement(id) => id
    case OpCheckCompletion(id, _) => id
    case OpCreateBooking(_, _) => 0
    case OpExpireStale(_) => 0
    case _ => if op.id in seen.assignments then seen.assignments[op.id].bookingId else 0
  }

  lemma LeavesRewrite(d: Decrement, seen: Seen, s: Db, op: Op)
    requires LeavesTrip(op)
    ensures RewritesAtMost(s, Exec(d, seen, s, op).db, BookingOf(seen, op))
  {
    LeaveIsExitTx(d, seen, s, op);
    if op.id in seen.assignments {
      var a := seen.assignments[op.id];
      ExitTxTables(d, s, op.id, LeaveFrom(op), LeaveTo(op), a.vehicleId, a.bookingId);
    }
  }

  lemma CreateRewrites(seen: Seen, s: Db, req: CreateRequest)
    ensures RewritesAtMost(s, CreateAssignment(seen, s, req).db, req.bookingId)
  {
  }

  lemma UpdateStatusRewrites(
    seen: Seen, s: Db, id: Id, driverId: Id, target: AssignmentStatus, orchestrator: bool)
    requires id in seen.assignments
    ensures RewritesAtMost(s, UpdateStatus(seen, s, id, driverId, target, orchestrator).db,
                           seen.assignments[id].bookingId)
  {
    UpdateStatusShape(seen, s, id, driverId, target, orchestrator);
  }

  lemma TripOpsRewrite(d: Decrement, seen: Seen, s: Db, op: Op)
    requires op.OpCreate? || LeavesTrip(op) || op.OpUpdateStatus?
    ensures RewritesAtMost(s, Exec(d, seen, s, op).db, BookingOf(seen, op))
  {
    if op.OpCreate? {
      CreateRewrites(seen, s, op.req);
    } else if op.OpUpdateStatus? {
      if op.id in seen.assignments {
        UpdateStatusRewrites(seen, s, op.id, op.driverId, op.target, op.orchestrator);
      }
    } else {
      LeavesRewrite(d, seen, s, op);
    }
  }

  lemma BookingOpsRewrite(d: Decrement, seen: Seen, s: Db, op: Op)
    requires op.OpStatusWrite? || op.OpBookingTimeout? || op.OpCancelBooking? || op.OpIncrement? || op.OpDecrement?
             || op.OpCheckCompletion?
    ensures RewritesAtMost(s, Exec(d, seen, s, op).db, BookingOf(seen, op))
  {
  }

  /** What every operation does to the booking table: customers and capacities are fixed, the count stays within
      capacity, closed bookings stay closed, and a row is added only for a customer without an open one. */
  lemma BookingStepOf(d: Decrement, seen: Seen, s: Db, op: Op)
    ensures BookingStep(s.bookings, Exec(d, seen, s, op).db.bookings)
  {
    var after := Exec(d, seen, s, op).db;
    if op.OpCreate? || LeavesTrip(op) || op.OpUpdateStatus? {
      TripOpsRewrite(d, seen, s, op);
      RewriteIsBookingStep(s, after, BookingOf(seen, op));
    } else if op.OpCreateBooking? || op.OpExpireStale? {
    } else if op.OpAccept? || op.OpComplete? || op.OpSingleWriter? || op.OpScheduleFailure? {
      assert after.bookings == s.bookings;
    } else {
      BookingOpsRewrite(d, seen, s, op);
      RewriteIsBookingStep(s, after, BookingOf(seen, op));
    }
  }

  ghost function OutcomeAt(d: Decrement, states: seq<Db>, events: seq<Event>, i: nat): Outcome
    requires IsRun(d, states, events) && i < |events|
  {
    assert StepAt(d, states, events, i);
    Exec(d, SeenAt(states, events[i].at), states[i], events[i].op).outcome
  }

  /** Between two states of a run, rows are never deleted, never change trip, and stop changing once they ended. */
  lemma {:induction false} TripsPersist(d: Decrement, states: seq<Db>, events: seq<Event>, i: nat, j: nat)
    requires IsRun(d, states, events) && i <= j < |states|
    ensures forall id | id in states[i].assignments ::
              id in states[j].assignments && RowStep(states[i].assignments[id], states[j].assignments[id])
    decreases j
  {
    if i < j {
      TripsPersist(d, states, events, i, j - 1);
      assert StepAt(d, states, events, j - 1);
      TripStepOf(d, SeenAt(states, events[j - 1].at), states[j - 1], events[j - 1].op);
    }
  }

  lemma {:induction false} BookingsPersist(d: Decrement, states: seq<Db>, events: seq<Event>, i: nat, j: nat)
    requires IsRun(d, states, events) && i <= j < |states|
    ensures forall id | id in states[i].bookings ::
              id in states[j].bookings && BookingRowStep(states[i].bookings[id], states[j].bookings[id])
    decreases j
  {
    if i < j {
      BookingsPersist(d, states, events, i, j - 1);
      assert StepAt(d, states, events, j - 1);
      BookingStepOf(d, SeenAt(states, events[j - 1].at), states[j - 1], events[j - 1].op);
    }
  }

  predicate SameVehicle(a: Vehicle, b: Vehicle) {
    && a.transporterId == b.transporterId
    && a.vehicleType == b.vehicleType && a.vehicleSubtype == b.vehicleSubtype
  }

  predicate VehicleStep(a: map<Id, Vehicle>, b: map<Id, Vehicle>) {
    && a.Keys == b.Keys
    && (forall v | v in a && v in b :: SameVehicle(a[v], b[v]))
  }

  lemma OneRowStep(a: map<Id, Vehicle>, b: map<Id, Vehicle>, v: Id)
    requires v in a && v in b && SameVehicle(a[v], b[v]) && b == a[v := b[v]]
    ensures VehicleStep(a, b)
  {
  }

  lemma ReleaseIsStep(s: Db, v: Id)
    ensures VehicleStep(s.vehicles, ReleaseVehicle(s, v).vehicles)
  {
    if v in s.vehicles {
      OneRowStep(s.vehicles, ReleaseVehicle(s, v).vehicles, v);
    }
  }

  lemma HoldIsStep(s: Db, v: Id, tripId: Id, driverId: Id)
    ensures VehicleStep(s.vehicles, HoldVehicle(s, v, tripId, driverId).vehicles)
  {
    if v in s.vehicles {
      var after := HoldVehicle(s, v, tripId, driverId);
      assert after.vehicles == s.vehicles[v := after.vehicles[v]];
      OneRowStep(s.vehicles, after.vehicles, v);
    }
  }

  lemma BoardIsStep(s: Db, v: Id, tripId: Id, driverId: Id)
    ensures VehicleStep(s.vehicles, BoardVehicle(s, v, tripId, driverId).vehicles)
  {
    if v in s.vehicles {
      var after := BoardVehicle(s, v, tripId, driverId);
      assert after.vehicles == s.vehicles[v := after.vehicles[v]];
      OneRowStep(s.vehicles, after.vehicles, v);
    }
  }

  predicate KeepsFleet(s: Db, after: Db) {
    VehicleStep(s.vehicles, after.vehicles) && after.drivers == s.drivers
  }

  lemma CreateKeepsFleet(seen: Seen, s: Db, req: CreateRequest)
    ensures KeepsFleet(s, CreateAssignment(seen, s, req).db)
  {
    var r := CreateAssignment(seen, s, req);
    if r.outcome == Done {
      CommitTables(s, req);
      HoldIsStep(s, req.vehicleId, req.tripId, req.driverId);
      assert r.db.drivers == s.drivers;
    }
  }

  lemma AcceptKeepsFleet(seen: Seen, s: Db, id: Id, driverId: Id)
    ensures KeepsFleet(s, AcceptAssignment(seen, s, id, driverId).db)
  {
    var r := AcceptAssignment(seen, s, id, driverId);
    if r.outcome == Done {
      var a := seen.assignments[id];
      BoardIsStep(s, a.vehicleId, a.tripId, driverId);
      assert r.db.vehicles == BoardVehicle(s, a.vehicleId, a.tripId, driverId).vehicles;
    }
  }

  lemma LeaveKeepsFleet(d: Decrement, seen: Seen, s: Db, op: Op)
    requires LeavesTrip(op)
    ensures KeepsFleet(s, Exec(d, seen, s, op).db)
  {
    LeaveIsExitTx(d, seen, s, op);
    if op.id in seen.assignments {
      var a := seen.assignments[op.id];
      ExitTxTables(d, s, op.id, LeaveFrom(op), LeaveTo(op), a.vehicleId, a.bookingId);
      ReleaseIsStep(s, a.vehicleId);
    }
  }

  lemma CompleteKeepsFleet(read: map<Id, Assignment>, s: Db, id: Id, target: AssignmentStatus)
    ensures KeepsFleet(s, CompleteTrip(read, s, id, target).db)
  {
    var r := CompleteTrip(read, s, id, target);
    if r.outcome == Done {
      ReleaseIsStep(s, read[id].vehicleId);
      assert r.db.vehicles == ReleaseVehicle(s, read[id].vehicleId).vehicles;
    }
  }

  lemma ScheduleFailureKeepsFleet(seen: Seen, s: Db, id: Id)
    ensures KeepsFleet(s, ScheduleFailure(seen, s, id).db)
  {
    var after := ScheduleFailure(seen, s, id).db;
    if id in seen.assignments {
      ReleaseIsStep(s, seen.assignments[id].vehicleId);
      assert after.vehicles == ReleaseVehicle(s, seen.assignments[id].vehicleId).vehicles;
    }
  }

  lemma UpdateStatusKeepsFleet(
    seen: Seen, s: Db, id: Id, driverId: Id, target: AssignmentStatus, orchestrator: bool)
    ensures KeepsFleet(s, UpdateStatus(seen, s, id, driverId, target, orchestrator).db)
  {
    var after := UpdateStatus(seen, s, id, driverId, target, orchestrator).db;
    UpdateStatusShape(seen, s, id, driverId, target, orchestrator);
    CompleteKeepsFleet(seen.recheck, s, id, target);
    if id in seen.assignments {
      ReleaseIsStep(s, seen.assignments[id].vehicleId);
    }
    assert after.drivers == s.drivers;
  }

  /** No operation adds, deletes or re-registers a vehicle, or moves a driver. */
  lemma FleetStepOf(d: Decrement, seen: Seen, s: Db, op: Op)
    ensures KeepsFleet(s, Exec(d, seen, s, op).db)
  {
    if op.OpCreate? {
      CreateKeepsFleet(seen, s, op.req);
    } else if op.OpAccept? {
      AcceptKeepsFleet(seen, s, op.id, op.driverId);
    } else if LeavesTrip(op) {
      LeaveKeepsFleet(d, seen, s, op);
    } else if op.OpUpdateStatus? {
      UpdateStatusKeepsFleet(seen, s, op.id, op.driverId, op.target, op.orchestrator);
    } else if op.OpComplete? {
      CompleteKeepsFleet(seen.assignments, s, op.id, op.target);
    } else if op.OpScheduleFailure? {
      ScheduleFailureKeepsFleet(seen, s, op.id);
    }
  }

  lemma {:induction false} FleetPersists(d: Decrement, states: seq<Db>, events: seq<Event>, i: nat, j: nat)
    requires IsRun(d, states, events) && i <= j < |states|
    ensures KeepsFleet(states[i], states[j])
    decreases j
  {
    if i < j {
      FleetPersists(d, states, events, i, j - 1);
      assert StepAt(d, states, events, j - 1);
      FleetStepOf(d, SeenAt(states, events[j - 1].at), states[j - 1], events[j - 1].op);
    }
  }

  /** A read of earlier rows: they all still exist, as the same trips, vehicles and bookings. */
  predicate StaleView(seen: map<Id, Assignment>, now: map<Id, Assignment>) {
    forall id | id in seen :: id in now && RowStep(seen[id], now[id])
  }

  predicate IsStale(seen: Seen, s: Db) {
    && StaleView(seen.assignments, s.assignments) && StaleView(seen.recheck, s.assignments)
    && (forall v | v in seen.vehicles :: v in s.vehicles && SameVehicle(seen.vehicles[v], s.vehicles[v]))
    && (forall b | b in seen.bookings :: b in s.bookings && BookingRowStep(seen.bookings[b], s.bookings[b]))
  }

  lemma SeenIsStale(d: Decrement, states: seq<Db>, events: seq<Event>, i: nat)
    requires IsRun(d, states, events) && i < |events|
    ensures ReadsFrom(events[i].at, i) && IsStale(SeenAt(states, events[i].at), states[i])
  {
    assert StepAt(d, states, events, i);
    var at := events[i].at;
    TripsPersist(d, states, events, at.assignments, i);
    TripsPersist(d, states, events, at.recheck, i);
    FleetPersists(d, states, events, at.vehicles, i);
    BookingsPersist(d, states, events, at.bookings, i);
  }

  /** A row that was not there before is the one a winning create asked for. */
  lemma OnlyCreateInserts(d: Decrement, seen: Seen, s: Db, op: Op, id: Id)
    requires ReadsAtomically(seen, s, op)
    requires id in Exec(d, seen, s, op).db.assignments && id !in s.assignments
    ensures op.OpCreate? && CreateAssignment(seen, s, op.req).outcome == Done
    ensures Exec(d, seen, s, op).db.assignments[id] == NewAssignment(op.req)
  {
    if op.OpCreate? {
      CommitTables(s, op.req);
    } else if op.OpComplete? || op.OpSingleWriter? || op.OpUpdateStatus? {
      ProgressMoves(d, seen, s, op);
    } else if op.OpAccept? || LeavesTrip(op) || op.OpScheduleFailure? {
      ExitsMove(d, seen, s, op);
    }
  }

  // ==== what ending a trip does, told from the tables alone ====

  /** A decline, timeout or cancel that wins, seen from the tables: the row's own vehicle and its own booking. */
  predicate LeaveOutcome(d: Decrement, s: Db, op: Op, r: Result)
    requires LeavesTrip(op)
  {
    if r.outcome == Done then
      && op.id in s.assignments && s.assignments[op.id].status in LeaveFrom(op)
      && LeaveWrites(d, s, op, s.assignments[op.id].vehicleId, s.assignments[op.id].bookingId, r.db)
    else r.db == s
  }

  predicate LeaveWrites(d: Decrement, s: Db, op: Op, vehicleId: Id, bookingId: Id, after: Db)
    requires LeavesTrip(op) && op.id in s.assignments
  {
    && bookingId in s.bookings && (IsClosed(s.bookings[bookingId].status) ==> d == SkipsClosed)
    && after.assignments == WithStatus(s, op.id, LeaveTo(op)).assignments
    && after.vehicles == ReleaseVehicle(s, vehicleId).vehicles
    && after.bookings == s.bookings[bookingId := Decremented(s.bookings[bookingId])]
  }

  lemma LeaveTables(d: Decrement, seen: Seen, s: Db, op: Op)
    requires LeavesTrip(op) && StaleView(seen.assignments, s.assignments)
    ensures LeaveOutcome(d, s, op, Exec(d, seen, s, op))
  {
    LeaveIsExitTx(d, seen, s, op);
    if op.id in seen.assignments {
      var a := seen.assignments[op.id];
      ExitTxTables(d, s, op.id, LeaveFrom(op), LeaveTo(op), a.vehicleId, a.bookingId);
      assert RowStep(a, s.assignments[op.id]);
    }
  }

  /** A completion that wins, seen from the tables. */
  predicate CompleteOutcome(s: Db, id: Id, target: AssignmentStatus, r: Result) {
    if r.outcome == Done then
      && id in s.assignments && !IsTerminal(s.assignments[id].status)
      && r.db.assignments == WithStatus(s, id, target).assignments
      && r.db.vehicles == ReleaseVehicle(s, s.assignments[id].vehicleId).vehicles
      && r.db.bookings == s.bookings
    else r.db == s
  }

  lemma CompleteTables(read: map<Id, Assignment>, s: Db, id: Id, target: AssignmentStatus)
    requires StaleView(read, s.assignments)
    ensures CompleteOutcome(s, id, target, CompleteTrip(read, s, id, target))
  {
  }

  /** An accept that wins, seen from the tables. */
  predicate AcceptOutcome(s: Db, id: Id, r: Result) {
    if r.outcome == Done then
      && id in s.assignments && s.assignments[id].status == Pending
      && r.db.assignments == WithStatus(s, id, DriverAccepted).assignments
      && BoardsFor(s, s.assignments[id], r.db)
    else r.db == s
  }

  predicate BoardsFor(s: Db, a: Assignment, after: Db) {
    after.vehicles == BoardVehicle(s, a.vehicleId, a.tripId, a.driverId).vehicles
  }

  lemma AcceptTables(seen: Seen, s: Db, id: Id, driverId: Id)
    requires StaleView(seen.assignments, s.assignments)
    ensures AcceptOutcome(s, id, AcceptAssignment(seen, s, id, driverId))
  {
    if id in seen.assignments {
      assert RowStep(seen.assignments[id], s.assignments[id]);
    }
  }
}
