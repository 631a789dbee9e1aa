/** The fill count of an open booking equals the number of its trips that were neither declined nor cancelled: which
    steps keep it so, exactly. */
module FillConservation {
  import opened StateMachines
  import opened Rows
  import opened Dispatch
  import opened Runs
  import opened Safety
  import opened VehicleCoupling

  predicate IsLost(status: AssignmentStatus) {
    status == DriverDeclined || status == Cancelled
  }

  /** The trips that still fill a truck of booking `b`. */
  function Live(assignments: map<Id, Assignment>, b: Id): set<Id> {
    set id | id in assignments && assignments[id].bookingId == b && !IsLost(assignments[id].status)
  }

  predicate Linked(s: Db) {
    forall id | id in s.assignments :: s.assignments[id].bookingId in s.bookings
  }

  predicate ConservedAt(s: Db, b: Id) {
    b in s.bookings && !IsClosed(s.bookings[b].status) ==>
      s.bookings[b].trucksFilled == |Live(s.assignments, b)|
  }

  predicate IsOpen(s: Db, b: Id) {
    b in s.bookings && !IsClosed(s.bookings[b].status)
  }

  // ==== how the live set changes ====

  lemma LiveAfterMove(s: Db, id: Id, to: AssignmentStatus, b: Id)
    requires id in s.assignments && !IsLost(s.assignments[id].status)
    ensures Live(WithStatus(s, id, to).assignments, b) ==
              if s.assignments[id].bookingId == b && IsLost(to) then Live(s.assignments, b) - {id}
              else Live(s.assignments, b)
    ensures s.assignments[id].bookingId == b ==> id in Live(s.assignments, b) && |Live(s.assignments, b)| >= 1
    ensures s.assignments[id].bookingId == b && IsLost(to) ==>
              |Live(WithStatus(s, id, to).assignments, b)| == |Live(s.assignments, b)| - 1
  {
  }

  lemma LiveAfterInsert(s: Db, id: Id, a: Assignment, b: Id)
    requires id !in s.assignments && a.status == Pending
    ensures |Live(s.assignments[id := a], b)| == |Live(s.assignments, b)| + if a.bookingId == b then 1 else 0
  {
    var live := Live(s.assignments, b);
    var after := Live(s.assignments[id := a], b);
    assert forall other :: other in after <==> other in live || (other == id && a.bookingId == b);
    assert id !in live;
    if a.bookingId == b {
      assert after == live + {id};
    } else {
      assert after == live;
    }
  }

  lemma LiveAfterSweep(s: Db, id: Id, b: Id)
    requires b != id
    ensures Live(CancelPending(s.assignments, id), b) == Live(s.assignments, b)
  {
  }

  // ==== every step ====

  /** What a caller has to know at commit time about booking `b`. */
  predicate KeepsCount(seen: Seen, s: Db, op: Op, b: Id) {
    IsOpen(s, b) ==>
      match op
      case OpCreate(req) =>
        req.bookingId == b && CreateAssignment(seen, s, req).outcome == Done ==>
          s.bookings[b].trucksFilled < s.bookings[b].trucksNeeded
      case OpScheduleFailure(id) =>
        id in seen.assignments && id in s.assignments && s.assignments[id].bookingId == b ==>
          s.assignments[id].status != Pending
      case OpIncrement(id) =>
        id == b && b in seen.bookings ==>
          || s.bookings[b].trucksFilled >= s.bookings[b].trucksNeeded
          || seen.bookings[b].trucksFilled >= seen.bookings[b].trucksNeeded || seen.bookings[b].status == FullyFilled
      case OpDecrement(id) =>
        id == b ==> s.bookings[b].trucksFilled <= 0
      case _ =>
        WritesStatusOnly(seen, s, op) && s.assignments[op.id].bookingId == b ==> !IsLost(op.target)
  }

  lemma CreateKeepsCountIff(seen: Seen, s: Db, req: CreateRequest, b: Id)
    requires ConservedAt(s, b) && Linked(s) && IsStale(seen, s)
    ensures ConservedAt(CreateAssignment(seen, s, req).db, b) <==> KeepsCount(seen, s, OpCreate(req), b)
  {
    var r := CreateAssignment(seen, s, req);
    if r.outcome == Done {
      CommitTables(s, req);
      LiveAfterInsert(s, req.newId, NewAssignment(req), b);
      assert req.bookingId in s.bookings;
    }
  }

  lemma LeaveKeepsCount(d: Decrement, s: Db, op: Op, r: Result, b: Id)
    requires ConservedAt(s, b) && LeavesTrip(op) && LeaveOutcome(d, s, op, r)
    ensures ConservedAt(r.db, b)
  {
    if r.outcome == Done {
      LiveAfterMove(s, op.id, LeaveTo(op), b);
    }
  }

  lemma CompleteKeepsCount(s: Db, id: Id, target: AssignmentStatus, r: Result, b: Id)
    requires ConservedAt(s, b) && IsDelivery(target) && CompleteOutcome(s, id, target, r)
    ensures ConservedAt(r.db, b)
  {
    if r.outcome == Done {
      LiveAfterMove(s, id, target, b);
    }
  }

  lemma EndingsKeepCount(d: Decrement, seen: Seen, s: Db, op: Op, b: Id)
    requires ConservedAt(s, b) && IsStale(seen, s) && (LeavesTrip(op) || op.OpComplete?)
    ensures ConservedAt(Exec(d, seen, s, op).db, b)
  {
    var r := Exec(d, seen, s, op);
    if LeavesTrip(op) {
      LeaveTables(d, seen, s, op);
      LeaveKeepsCount(d, s, op, r, b);
    } else if IsDelivery(op.target) {
      CompleteTables(seen.assignments, s, op.id, op.target);
      CompleteKeepsCount(s, op.id, op.target, r, b);
    }
  }

  lemma StatusOpKeepsCountIff(d: Decrement, seen: Seen, s: Db, op: Op, b: Id)
    requires ConservedAt(s, b) && Linked(s) && IsStale(seen, s) && ReadsAtomically(seen, s, op)
    requires op.OpSingleWriter? || op.OpUpdateStatus?
    requires forall id | id in s.assignments :: s.assignments[id].vehicleId in s.vehicles
    ensures ConservedAt(Exec(d, seen, s, op).db, b) <==> KeepsCount(seen, s, op, b)
  {
    var after := Exec(d, seen, s, op).db;
    if op.OpSingleWriter? {
      SingleWriterTables(d, seen, s, op);
    } else {
      UpdateStatusTables(d, seen, s, op);
    }
    StatusOpBooking(d, seen, s, op, b);
    if after.assignments != s.assignments || WritesStatusOnly(seen, s, op) {
      LiveAfterMove(s, op.id, op.target, b);
    }
  }

  lemma StatusOpBooking(d: Decrement, seen: Seen, s: Db, op: Op, b: Id)
    requires op.OpSingleWriter? || op.OpUpdateStatus?
    ensures var after := Exec(d, seen, s, op).db;
            && after.bookings.Keys == s.bookings.Keys
            && (b in s.bookings ==>
                  && after.bookings[b].trucksFilled == s.bookings[b].trucksFilled
                  && (IsClosed(after.bookings[b].status) <==> IsClosed(s.bookings[b].status)))
    ensures op.OpUpdateStatus? && IsDelivery(op.target) ==> !IsLost(op.target)
  {
  }

  lemma DeclineWithoutDecrement(s: Db, id: Id, after: Db, b: Id)
    requires ConservedAt(s, b) && id in s.assignments && s.assignments[id].status == Pending
    requires after.assignments == WithStatus(s, id, DriverDeclined).assignments && after.bookings == s.bookings
    ensures ConservedAt(after, b) <==> !(IsOpen(s, b) && s.assignments[id].bookingId == b)
  {
    LiveAfterMove(s, id, DriverDeclined, b);
  }

  lemma ScheduleFailureKeepsCountIff(seen: Seen, s: Db, id: Id, b: Id)
    requires ConservedAt(s, b) && IsStale(seen, s)
    ensures ConservedAt(ScheduleFailure(seen, s, id).db, b) <==> KeepsCount(seen, s, OpScheduleFailure(id), b)
  {
    if id in seen.assignments && id in s.assignments && s.assignments[id].status == Pending {
      DeclineWithoutDecrement(s, id, ScheduleFailure(seen, s, id).db, b);
    }
  }

  lemma CancelBookingKeepsCount(seen: Seen, s: Db, id: Id, customerId: Id, b: Id)
    requires ConservedAt(s, b) && Linked(s)
    ensures ConservedAt(CancelBooking(seen, s, id, customerId).db, b)
  {
    if CancelBooking(seen, s, id, customerId).outcome == Done && b != id {
      LiveAfterSweep(s, id, b);
    }
  }

  lemma AcceptKeepsCount(seen: Seen, s: Db, id: Id, driverId: Id, b: Id)
    requires ConservedAt(s, b) && Linked(s)
    ensures ConservedAt(AcceptAssignment(seen, s, id, driverId).db, b)
  {
    AcceptWinsFromPending(seen, s, id, driverId);
    var r := AcceptAssignment(seen, s, id, driverId);
    if r.outcome == Done {
      LiveAfterMove(s, id, DriverAccepted, b);
      assert r.db.assignments == WithStatus(s, id, DriverAccepted).assignments;
      assert r.db.bookings == s.bookings;
    }
  }

  lemma CounterOpKeepsCountIff(d: Decrement, seen: Seen, s: Db, op: Op, b: Id)
    requires ConservedAt(s, b) && (op.OpIncrement? || op.OpDecrement?)
    ensures ConservedAt(Exec(d, seen, s, op).db, b) <==> KeepsCount(seen, s, op, b)
  {
  }

  lemma BookingOpKeepsCount(d: Decrement, seen: Seen, s: Db, op: Op, b: Id)
    requires ConservedAt(s, b) && Linked(s)
    requires op.OpCreateBooking? || op.OpStatusWrite? || op.OpBookingTimeout? || op.OpExpireStale?
             || op.OpCheckCompletion?
    ensures ConservedAt(Exec(d, seen, s, op).db, b)
  {
  }

  /** For every step of the engine and every booking: the count still equals the live trips after it if and only if the
      condition above holds before it. */
  lemma StepKeepsCountIff(d: Decrement, seen: Seen, s: Db, op: Op, b: Id)
    requires ConservedAt(s, b) && Linked(s) && IsStale(seen, s) && ReadsAtomically(seen, s, op)
    requires forall id | id in s.assignments :: s.assignments[id].vehicleId in s.vehicles
    ensures ConservedAt(Exec(d, seen, s, op).db, b) <==> KeepsCount(seen, s, op, b)
  {
    if op.OpCreate? {
      CreateKeepsCountIff(seen, s, op.req, b);
    } else if op.OpAccept? {
      AcceptKeepsCount(seen, s, op.id, op.driverId, b);
    } else if op.OpScheduleFailure? {
      ScheduleFailureKeepsCountIff(seen, s, op.id, b);
    } else if op.OpCancelBooking? {
      CancelBookingKeepsCount(seen, s, op.bookingId, op.customerId, b);
    } else if op.OpSingleWriter? || op.OpUpdateStatus? {
      StatusOpKeepsCountIff(d, seen, s, op, b);
    } else if LeavesTrip(op) || op.OpComplete? {
      EndingsKeepCount(d, seen, s, op, b);
    } else if op.OpIncrement? || op.OpDecrement? {
      CounterOpKeepsCountIff(d, seen, s, op, b);
    } else {
      BookingOpKeepsCount(d, seen, s, op, b);
    }
  }

  /** A create that commits on a full booking hands out more trucks than were asked for. */
  lemma CreateOnFullOverfills(seen: Seen, s: Db, req: CreateRequest)
    requires CreateAssignment(seen, s, req).outcome == Done && IsOpen(s, req.bookingId)
    requires ConservedAt(s, req.bookingId)
    requires s.bookings[req.bookingId].trucksFilled == s.bookings[req.bookingId].trucksNeeded
    ensures |Live(CreateAssignment(seen, s, req).db.assignments, req.bookingId)|
            == s.bookings[req.bookingId].trucksNeeded + 1
  {
    CommitTables(s, req);
    LiveAfterInsert(s, req.newId, NewAssignment(req), req.bookingId);
  }

  // ==== every run ====

  predicate References(s: Db) {
    && Linked(s)
    && forall id | id in s.assignments :: s.assignments[id].vehicleId in s.vehicles
  }

  lemma StepKeepsReferences(d: Decrement, seen: Seen, s: Db, op: Op)
    requires References(s) && IsStale(seen, s) && ReadsAtomically(seen, s, op)
    ensures References(Exec(d, seen, s, op).db)
  {
    var after := Exec(d, seen, s, op).db;
    TripStepOf(d, seen, s, op);
    BookingStepOf(d, seen, s, op);
    FleetStepOf(d, seen, s, op);
    forall id | id in after.assignments
      ensures after.assignments[id].bookingId in after.bookings && after.assignments[id].vehicleId in after.vehicles
    {
      if id in s.assignments {
        assert RowStep(s.assignments[id], after.assignments[id]);
      } else {
        OnlyCreateInserts(d, seen, s, op, id);
      }
    }
  }

  lemma CountStep(d: Decrement, seen: Seen, s: Db, op: Op, after: Db, b: Id)
    requires References(s) && ConservedAt(s, b) && IsStale(seen, s) && ReadsAtomically(seen, s, op)
    requires after == Exec(d, seen, s, op).db && KeepsCount(seen, s, op, b)
    ensures References(after) && ConservedAt(after, b)
  {
    StepKeepsCountIff(d, seen, s, op, b);
    StepKeepsReferences(d, seen, s, op);
  }

  /** The condition holds at step `i` of the run. */
  ghost predicate CountGuard(d: Decrement, states: seq<Db>, events: seq<Event>, i: nat, b: Id)
    requires i < |events| && i + 1 < |states|
  {
    StepAt(d, states, events, i) && KeepsCount(SeenAt(states, events[i].at), states[i], events[i].op, b)
  }

  lemma CountStepAt(d: Decrement, states: seq<Db>, events: seq<Event>, i: nat, b: Id)
    requires IsRun(d, states, events) && i < |events| && CountGuard(d, states, events, i, b)
    requires References(states[i]) && ConservedAt(states[i], b)
    ensures References(states[i + 1]) && ConservedAt(states[i + 1], b)
  {
    SeenIsStale(d, states, events, i);
    CountStep(d, SeenAt(states, events[i].at), states[i], events[i].op, states[i + 1], b);
  }

  /** In every run whose steps respect the condition for booking `b`, its count equals its live trips in every state in
      which it is open. */
  lemma {:induction false} CountInRuns(d: Decrement, states: seq<Db>, events: seq<Event>, k: nat, b: Id)
    requires IsRun(d, states, events) && References(states[0]) && ConservedAt(states[0], b) && k < |states|
    requires forall i :: 0 <= i < k ==> CountGuard(d, states, events, i, b)
    ensures References(states[k]) && ConservedAt(states[k], b)
  {
    if k > 0 {
      CountInRuns(d, states, events, k - 1, b);
      CountStepAt(d, states, events, k - 1, b);
    }
  }

  /** Before any booking and any trip, with every vehicle unheld, all invariants hold. */
  lemma EmptyTablesSatisfyEverything(s: Db, b: Id)
    requires s.assignments == map[] && s.bookings == map[]
    requires forall v | v in s.vehicles :: Unheld(s.vehicles[v])
    ensures Safe(s) && Coupled(s) && References(s) && ConservedAt(s, b)
  {
  }
}
