/** Safety of every run: one active trip per driver, one open booking per customer, counts within capacity, and at most
    one winner among the calls that race to end a trip. */
module Safety {
  import opened StateMachines
  import opened Rows
  import opened Dispatch
  import opened Runs

  // ==== invariants of every reachable state ====

  predicate OneActiveTripPerDriver(assignments: map<Id, Assignment>) {
    forall i, j | i in assignments && j in assignments ::
      (&& assignments[i].driverId == assignments[j].driverId
       && !IsTerminal(assignments[i].status) && !IsTerminal(assignments[j].status)) ==> i == j
  }

  predicate TripIdsDistinct(assignments: map<Id, Assignment>) {
    forall i, j | i in assignments && j in assignments ::
      assignments[i].tripId == assignments[j].tripId ==> i == j
  }

  predicate OneOpenBookingPerCustomer(bookings: map<Id, Booking>) {
    forall i, j | i in bookings && j in bookings ::
      (&& bookings[i].customerId == bookings[j].customerId
       && !IsClosed(bookings[i].status) && !IsClosed(bookings[j].status)) ==> i == j
  }

  predicate CountsWithinCapacity(bookings: map<Id, Booking>) {
    forall id | id in bookings :: WithinCapacity(bookings[id])
  }

  predicate Safe(s: Db) {
    && OneActiveTripPerDriver(s.assignments) && TripIdsDistinct(s.assignments)
    && OneOpenBookingPerCustomer(s.bookings) && CountsWithinCapacity(s.bookings)
  }

  lemma TripStepKeepsDriversSingle(a: map<Id, Assignment>, b: map<Id, Assignment>)
    requires TripStep(a, b) && OneActiveTripPerDriver(a) && TripIdsDistinct(a)
    ensures OneActiveTripPerDriver(b) && TripIdsDistinct(b)
  {
  }

  lemma BookingStepKeepsCustomersSingle(a: map<Id, Booking>, b: map<Id, Booking>)
    requires BookingStep(a, b) && OneOpenBookingPerCustomer(a) && CountsWithinCapacity(a)
    ensures OneOpenBookingPerCustomer(b) && CountsWithinCapacity(b)
  {
  }

  /** In every state of every run each driver has at most one trip that has not ended, each customer at most one booking
      that is not closed, and every count lies between zero and the trucks needed. */
  lemma {:induction false} EveryRunIsSafe(d: Decrement, states: seq<Db>, events: seq<Event>, k: nat)
    requires IsRun(d, states, events) && Safe(states[0]) && k < |states|
    ensures Safe(states[k])
  {
    if k > 0 {
      EveryRunIsSafe(d, states, events, k - 1);
      assert StepAt(d, states, events, k - 1);
      var seen := SeenAt(states, events[k - 1].at);
      TripStepOf(d, seen, states[k - 1], events[k - 1].op);
      BookingStepOf(d, seen, states[k - 1], events[k - 1].op);
      TripStepKeepsDriversSingle(states[k - 1].assignments, states[k].assignments);
      BookingStepKeepsCustomersSingle(states[k - 1].bookings, states[k].bookings);
    }
  }

  /** Closed is for ever; which closed status it is changes only to completed. */
  lemma ClosedBookingsStayClosed(d: Decrement, states: seq<Db>, events: seq<Event>, i: nat, j: nat, id: Id)
    requires IsRun(d, states, events) && i <= j < |states|
    requires id in states[i].bookings && IsClosed(states[i].bookings[id].status)
    ensures id in states[j].bookings && IsClosed(states[j].bookings[id].status)
    ensures states[j].bookings[id].status != states[i].bookings[id].status ==>
              states[j].bookings[id].status == BookingCompleted
  {
    BookingsPersist(d, states, events, i, j);
  }

  predicate SameStatus(a: map<Id, Booking>, b: map<Id, Booking>, id: Id) {
    id in a && id in b && b[id].status == a[id].status
  }

  lemma TripOpsKeepClosed(d: Decrement, seen: Seen, s: Db, op: Op, id: Id)
    requires id in s.bookings && IsClosed(s.bookings[id].status)
    requires LeavesTrip(op) || op.OpUpdateStatus?
    ensures SameStatus(s.bookings, Exec(d, seen, s, op).db.bookings, id)
  {
  }

  lemma BookingOpsKeepClosed(d: Decrement, seen: Seen, s: Db, op: Op, id: Id)
    requires id in s.bookings && IsClosed(s.bookings[id].status)
    requires op.OpCreateBooking? || op.OpStatusWrite? || op.OpBookingTimeout? || op.OpCancelBooking? || op.OpIncrement?
             || op.OpDecrement? || op.OpExpireStale?
    ensures SameStatus(s.bookings, Exec(d, seen, s, op).db.bookings, id)
  {
  }

  /** The completion check is the one step that rewrites a closed status: exactly when the trips it read were done and
      the booking it read was neither completed nor cancelled, whatever it is now. */
  lemma ClosedStatusRewrittenIff(d: Decrement, seen: Seen, s: Db, op: Op, id: Id)
    requires id in s.bookings && IsClosed(s.bookings[id].status)
    ensures !SameStatus(s.bookings, Exec(d, seen, s, op).db.bookings, id)
            <==> && op.OpCheckCompletion? && op.bookingId == id && s.bookings[id].status != BookingCompleted
                 && TripsDone(op.check, seen.assignments, id)
                 && id in seen.bookings && seen.bookings[id].status !in {BookingCompleted, BookingCancelled}
  {
    if LeavesTrip(op) || op.OpUpdateStatus? {
      TripOpsKeepClosed(d, seen, s, op, id);
    } else if op.OpCreate? {
      CommitTables(s, op.req);
    } else if op.OpAccept? || op.OpComplete? || op.OpSingleWriter? || op.OpScheduleFailure? {
      assert Exec(d, seen, s, op).db.bookings == s.bookings;
    } else if !op.OpCheckCompletion? {
      BookingOpsKeepClosed(d, seen, s, op, id);
    }
  }

  /** From where the status write of `op` is an edge of the booking table. Fills and unfills write by the new count
      alone, the parent write accepts a partial fill, and the expiring writes do not exclude trips under way. */
  predicate WritesAlongTable(op: Op, b: Booking) {
    match op
    case OpIncrement(_) => b.status in {Active, PartiallyFilled}
    case OpStatusWrite(_, _) => b.status != InProgress
    case OpExpireStale(_) => b.status !in {FullyFilled, InProgress}
    case OpCheckCompletion(_, _) => b.status == InProgress
    case OpUpdateStatus(_, _, _, _) => b.status == FullyFilled
    case OpBookingTimeout(_) => true
    case OpCancelBooking(_, _) => true
    case _ => b.status in {Active, PartiallyFilled} || (b.status == Broadcasting && b.trucksFilled <= 1)
  }

  lemma UnfillFollowsBookingTableIff(d: Decrement, seen: Seen, s: Db, op: Op, id: Id)
    requires LeavesTrip(op) && id in s.bookings && !IsClosed(s.bookings[id].status)
    requires var after := Exec(d, seen, s, op).db.bookings;
             id in after && after[id].status != s.bookings[id].status
    ensures Exec(d, seen, s, op).db.bookings[id].status in BookingNext(s.bookings[id].status)
            <==> WritesAlongTable(op, s.bookings[id])
  {
    LeaveIsExitTx(d, seen, s, op);
    var a := seen.assignments[op.id];
    ExitTxTables(d, s, op.id, LeaveFrom(op), LeaveTo(op), a.vehicleId, a.bookingId);
  }

  lemma ParentStartFollowsBookingTableIff(d: Decrement, seen: Seen, s: Db, op: Op, id: Id)
    requires op.OpUpdateStatus? && id in s.bookings
    requires var after := Exec(d, seen, s, op).db.bookings;
             id in after && after[id].status != s.bookings[id].status
    ensures Exec(d, seen, s, op).db.bookings[id].status in BookingNext(s.bookings[id].status)
            <==> WritesAlongTable(op, s.bookings[id])
  {
    UpdateStatusShape(seen, s, op.id, op.driverId, op.target, op.orchestrator);
  }

  /** Every change of an open booking's status, by any method and with any stale reads, is an edge of the booking table
      if and only if the status it found is one of those above: unfilling a full booking is not. */
  lemma BookingChangeFollowsTableIff(d: Decrement, seen: Seen, s: Db, op: Op, id: Id)
    requires id in s.bookings && !IsClosed(s.bookings[id].status)
    requires var after := Exec(d, seen, s, op).db.bookings;
             id in after && after[id].status != s.bookings[id].status
    ensures Exec(d, seen, s, op).db.bookings[id].status in BookingNext(s.bookings[id].status)
            <==> WritesAlongTable(op, s.bookings[id])
  {
    if LeavesTrip(op) {
      UnfillFollowsBookingTableIff(d, seen, s, op, id);
    } else if op.OpUpdateStatus? {
      ParentStartFollowsBookingTableIff(d, seen, s, op, id);
    } else if op.OpCreate? {
      CommitTables(s, op.req);
    }
  }

  // ==== the unguarded write of updateStatus ====

  /** Without its read in the same step the write is legal exactly when the row it overwrites has not ended (or already
      holds the target). */
  lemma UnguardedWriteLegalIff(seen: Seen, s: Db, id: Id, driverId: Id, target: AssignmentStatus)
    requires !IsDelivery(target) && id in s.assignments && id in seen.assignments
    requires seen.assignments[id].driverId == driverId && target in AssignmentNext(seen.assignments[id].status)
    ensures TripStep(s.assignments, UpdateStatus(seen, s, id, driverId, target, true).db.assignments)
            <==> !IsTerminal(s.assignments[id].status) || s.assignments[id].status == target
  {
  }

  predicate AloneForDriver(assignments: map<Id, Assignment>, id: Id)
    requires id in assignments
  {
    forall other | other in assignments && other != id ::
      assignments[other].driverId == assignments[id].driverId ==> IsTerminal(assignments[other].status)
  }

  /** Such a write leaves each driver with at most one active trip exactly when it ends the trip or the driver has no
      other active one by now. */
  lemma UnguardedWriteKeepsSingleIff(seen: Seen, s: Db, id: Id, driverId: Id, target: AssignmentStatus)
    requires OneActiveTripPerDriver(s.assignments)
    requires !IsDelivery(target) && id in s.assignments && id in seen.assignments
    requires seen.assignments[id].driverId == driverId && target in AssignmentNext(seen.assignments[id].status)
    ensures OneActiveTripPerDriver(UpdateStatus(seen, s, id, driverId, target, true).db.assignments)
            <==> IsTerminal(target) || AloneForDriver(s.assignments, id)
  {
    var after := UpdateStatus(seen, s, id, driverId, target, true).db.assignments;
    assert after == WithStatus(s, id, target).assignments;
    if !IsTerminal(target) && !AloneForDriver(s.assignments, id) {
      var other :| other in s.assignments && other != id && s.assignments[other].driverId == s.assignments[id].driverId
                   && !IsTerminal(s.assignments[other].status);
      assert after[other] == s.assignments[other] && after[id].status == target;
    }
  }

  lemma ReplacedTrip(a: map<Id, Assignment>, id: Id, ended: Assignment, newId: Id, next: Assignment)
    requires OneActiveTripPerDriver(a) && id in a && newId !in a && SameTrip(a[id], ended) && IsTerminal(ended.status)
    requires next.driverId == ended.driverId && !IsTerminal(next.status) && DriverIdle(a[id := ended], next.driverId)
    ensures var b := a[id := ended][newId := next];
            OneActiveTripPerDriver(b) && id in b && !AloneForDriver(b, id)
  {
    var b := a[id := ended][newId := next];
    assert b[newId] == next && newId != id;
  }

  lemma CancelEndsRow(d: Decrement, s: Db, id: Id, userId: Id)
    requires CancelAssignment(d, Fresh(s), s, id, userId).outcome == Done
    ensures CancelAssignment(d, Fresh(s), s, id, userId).db.assignments
            == s.assignments[id := s.assignments[id].(status := Cancelled)]
  {
    var op := OpCancel(id, userId);
    LeaveIsExitTx(d, Fresh(s), s, op);
    var a := s.assignments[id];
    ExitTxTables(d, s, id, LeaveFrom(op), LeaveTo(op), a.vehicleId, a.bookingId);
  }

  /** A driver with two active trips, by three calls: the trip is cancelled, a new one is created for the driver, and
      then a status update that had read the first trip before the cancel writes it back to life. */
  lemma StaleWriteGivesDriverTwoTrips(
    d: Decrement, s: Db, id: Id, driverId: Id, req: CreateRequest, target: AssignmentStatus)
    requires OneActiveTripPerDriver(s.assignments)
    requires id in s.assignments && s.assignments[id].driverId == driverId == req.driverId
    requires target in AssignmentNext(s.assignments[id].status) && !IsTerminal(target)
    requires CancelAssignment(d, Fresh(s), s, id, driverId).outcome == Done
    requires var s1 := CancelAssignment(d, Fresh(s), s, id, driverId).db;
             CreateAssignment(Fresh(s1), s1, req).outcome == Done
    ensures var s1 := CancelAssignment(d, Fresh(s), s, id, driverId).db;
            var s2 := CreateAssignment(Fresh(s1), s1, req).db;
            && OneActiveTripPerDriver(s2.assignments)
            && !OneActiveTripPerDriver(UpdateStatus(Fresh(s), s2, id, driverId, target, true).db.assignments)
  {
    var s1 := CancelAssignment(d, Fresh(s), s, id, driverId).db;
    CancelEndsRow(d, s, id, driverId);
    var s2 := CreateAssignment(Fresh(s1), s1, req).db;
    assert s2.assignments == s1.assignments[req.newId := NewAssignment(req)] by {
      CommitTables(s1, req);
    }
    ReplacedTrip(s.assignments, id, s.assignments[id].(status := Cancelled), req.newId, NewAssignment(req));
    UnguardedWriteKeepsSingleIff(Fresh(s), s2, id, driverId, target);
  }

  /** completeTrip, called directly or by the status update. */
  predicate IsCompletion(op: Op) {
    op.OpComplete? || (op.OpUpdateStatus? && IsDelivery(op.target) && op.orchestrator)
  }

  predicate IsTripOp(op: Op) {
    op.OpAccept? || LeavesTrip(op) || op.OpScheduleFailure? || op.OpComplete?
    || op.OpSingleWriter? || op.OpUpdateStatus?
  }

  lemma OnlyTripOpsMoveRows(d: Decrement, seen: Seen, s: Db, op: Op, id: Id)
    requires ReadsAtomically(seen, s, op) && !op.OpCancelBooking? && id in s.assignments
    requires Exec(d, seen, s, op).db.assignments != s.assignments
    ensures id in Exec(d, seen, s, op).db.assignments
    ensures Exec(d, seen, s, op).db.assignments[id] != s.assignments[id] ==>
              !op.OpCreate? && IsTripOp(op) && op.id == id && !IsTerminal(s.assignments[id].status)
  {
    if op.OpComplete? || op.OpSingleWriter? || op.OpUpdateStatus? {
      ProgressMoves(d, seen, s, op);
    } else if op.OpAccept? || LeavesTrip(op) || op.OpScheduleFailure? {
      ExitsMove(d, seen, s, op);
    } else if op.OpCreate? {
      CreateIsTripStep(seen, s, op.req);
    }
  }

  predicate FollowsTable(a: Assignment, b: Assignment) {
    b.status in AssignmentNext(a.status)
  }

  lemma StatusOpFollowsTableIff(d: Decrement, seen: Seen, s: Db, op: Op)
    requires ReadsAtomically(seen, s, op) && (op.OpSingleWriter? || op.OpUpdateStatus? || op.OpComplete?)
    requires op.id in s.assignments && !IsTerminal(s.assignments[op.id].status)
    requires Exec(d, seen, s, op).db.assignments != s.assignments
    ensures var after := Exec(d, seen, s, op).db.assignments;
            op.id in after &&
            (FollowsTable(s.assignments[op.id], after[op.id])
             <==> if op.OpSingleWriter? then op.target in AssignmentNext(s.assignments[op.id].status)
                  else IsCompletion(op) ==> s.assignments[op.id].status == ArrivedAtDrop)
  {
  }

  lemma OtherOpsFollowTable(d: Decrement, seen: Seen, s: Db, op: Op)
    requires LeavesTrip(op) || op.OpAccept? || op.OpScheduleFailure?
    requires op.id in s.assignments && Exec(d, seen, s, op).db.assignments != s.assignments
    ensures op.id in Exec(d, seen, s, op).db.assignments
    ensures FollowsTable(s.assignments[op.id], Exec(d, seen, s, op).db.assignments[op.id])
  {
  }

  /** A status change follows the transition table unless it completes a trip that has not arrived, or is a
      single-writer write whose target is legal only for the status it read: those two, and exactly those, leave the
      table. */
  lemma StatusChangeFollowsTableIff(d: Decrement, seen: Seen, s: Db, op: Op, id: Id)
    requires ReadsAtomically(seen, s, op) && id in s.assignments
    requires var after := Exec(d, seen, s, op).db.assignments;
             id in after && after[id].status != s.assignments[id].status
    ensures FollowsTable(s.assignments[id], Exec(d, seen, s, op).db.assignments[id])
            <==> && (IsCompletion(op) ==> s.assignments[id].status == ArrivedAtDrop)
                 && (op.OpSingleWriter? ==> op.target in AssignmentNext(s.assignments[id].status))
  {
    if op.OpCancelBooking? {
      assert PendingOf(s.assignments, op.bookingId, id);
    } else {
      OnlyTripOpsMoveRows(d, seen, s, op, id);
      if op.OpSingleWriter? || op.OpUpdateStatus? || op.OpComplete? {
        StatusOpFollowsTableIff(d, seen, s, op);
      } else {
        OtherOpsFollowTable(d, seen, s, op);
      }
    }
  }

  // ==== racing to end a trip ====

  predicate IsExit(op: Op) {
    LeavesTrip(op) || ((op.OpComplete? || op.OpUpdateStatus?) && IsDelivery(op.target))
  }

  /** A call wins exactly when it takes the row from an active status to an ended one; a loser leaves every table
      as it was. */
  lemma ExitWinsOrChangesNothing(d: Decrement, seen: Seen, s: Db, op: Op)
    requires IsExit(op)
    ensures var r := Exec(d, seen, s, op);
            if r.outcome == Done then
              && op.id in s.assignments && !IsTerminal(s.assignments[op.id].status)
              && op.id in r.db.assignments && IsTerminal(r.db.assignments[op.id].status)
            else r.db == s
  {
    if LeavesTrip(op) {
      LeaveIsExitTx(d, seen, s, op);
      if op.id in seen.assignments {
        var a := seen.assignments[op.id];
        ExitTxTables(d, s, op.id, LeaveFrom(op), LeaveTo(op), a.vehicleId, a.bookingId);
      }
    }
  }

  /** What a winning decline, timeout or cancel does, once: the row ends, its own vehicle is free, its own booking
      counts one truck less, and no other row of any table changes. */
  lemma ExitWinEffects(d: Decrement, seen: Seen, s: Db, op: Op)
    requires LeavesTrip(op)
    requires Exec(d, seen, s, op).outcome == Done
    requires SameTrip(seen.assignments[op.id], s.assignments[op.id])
    requires s.assignments[op.id].vehicleId in s.vehicles
    ensures var after := Exec(d, seen, s, op).db;
            var v := s.assignments[op.id].vehicleId;
            var b := s.assignments[op.id].bookingId;
            && after.assignments == s.assignments[op.id := s.assignments[op.id].(
                 status := if op.OpCancel? then Cancelled else DriverDeclined)]
            && after.vehicles.Keys == s.vehicles.Keys && after.vehicles[v].status == Available
            && (s.vehicles[v].status != Available ==>
                  after.vehicles[v].currentTripId == None && after.vehicles[v].assignedDriverId == None)
            && (forall w | w in s.vehicles && w != v :: after.vehicles[w] == s.vehicles[w])
            && b in s.bookings && after.bookings.Keys == s.bookings.Keys
            && (!IsClosed(s.bookings[b].status) && s.bookings[b].trucksFilled > 0 ==>
                  after.bookings[b].trucksFilled == s.bookings[b].trucksFilled - 1)
            && (IsClosed(s.bookings[b].status) ==> d == SkipsClosed && after.bookings[b] == s.bookings[b])
            && (forall c | c in s.bookings && c != b :: after.bookings[c] == s.bookings[c])
  {
    LeaveIsExitTx(d, seen, s, op);
    var a := seen.assignments[op.id];
    ExitTxTables(d, s, op.id, LeaveFrom(op), LeaveTo(op), a.vehicleId, a.bookingId);
  }

  /** Whatever the interleaving and however stale their reads, at most one of the calls that try to end a trip wins,
      and the row never changes again after it. */
  lemma AtMostOneExitWins(d: Decrement, states: seq<Db>, events: seq<Event>, i: nat, j: nat)
    requires IsRun(d, states, events) && i < j < |events|
    requires IsExit(events[i].op) && IsExit(events[j].op) && events[i].op.id == events[j].op.id
    requires OutcomeAt(d, states, events, i) == Done
    ensures OutcomeAt(d, states, events, j) != Done
    ensures states[j + 1] == states[j]
    ensures var id := events[i].op.id;
            id in states[i + 1].assignments && id in states[j].assignments
            && states[j].assignments[id] == states[i + 1].assignments[id]
  {
    assert StepAt(d, states, events, i) && StepAt(d, states, events, j);
    ExitWinsOrChangesNothing(d, SeenAt(states, events[i].at), states[i], events[i].op);
    ExitWinsOrChangesNothing(d, SeenAt(states, events[j].at), states[j], events[j].op);
    TripsPersist(d, states, events, i + 1, j);
  }

  // ==== cancelling a booking against accepting a trip ====

  /** A winning cancelBooking leaves nothing of the booking pending, cancels exactly what was pending, frees those
      vehicles, and touches no other trip. */
  lemma CancelBookingSweepsPending(seen: Seen, s: Db, id: Id, customerId: Id)
    requires CancelBooking(seen, s, id, customerId).outcome == Done
    ensures var after := CancelBooking(seen, s, id, customerId).db;
            && after.bookings == s.bookings[id := s.bookings[id].(status := BookingCancelled)]
            && after.assignments.Keys == s.assignments.Keys
            && (forall a | a in s.assignments ::
                  after.assignments[a] ==
                    if PendingOf(s.assignments, id, a) then s.assignments[a].(status := Cancelled)
                    else s.assignments[a])
            && (forall a :: !PendingOf(after.assignments, id, a))
            && (forall a | PendingOf(s.assignments, id, a) && s.assignments[a].vehicleId in s.vehicles ::
                  s.assignments[a].vehicleId in after.vehicles
                  && after.vehicles[s.assignments[a].vehicleId].status == Available)
  {
  }

  lemma AcceptWinsFromPending(seen: Seen, s: Db, id: Id, driverId: Id)
    ensures var r := AcceptAssignment(seen, s, id, driverId);
            if r.outcome == Done then
              && id in s.assignments && s.assignments[id].status == Pending
              && r.db.assignments == s.assignments[id := s.assignments[id].(status := DriverAccepted)]
            else r.db == s
  {
  }

  lemma CancelBookingEnds(d: Decrement, states: seq<Db>, events: seq<Event>, i: nat, id: Id)
    requires IsRun(d, states, events) && i < |events|
    requires events[i].op.OpCancelBooking? && OutcomeAt(d, states, events, i) == Done
    requires PendingOf(states[i].assignments, events[i].op.bookingId, id)
    ensures id in states[i + 1].assignments && states[i + 1].assignments[id].status == Cancelled
  {
    assert StepAt(d, states, events, i);
    CancelBookingSweepsPending(SeenAt(states, events[i].at), states[i], events[i].op.bookingId,
                               events[i].op.customerId);
  }

  lemma AcceptNeedsPending(d: Decrement, states: seq<Db>, events: seq<Event>, k: nat)
    requires IsRun(d, states, events) && k < |events|
    requires events[k].op.OpAccept? && OutcomeAt(d, states, events, k) == Done
    ensures var id := events[k].op.id;
            id in states[k].assignments && states[k].assignments[id].status == Pending
            && id in states[k + 1].assignments && states[k + 1].assignments[id].status == DriverAccepted
  {
    assert StepAt(d, states, events, k);
    AcceptWinsFromPending(SeenAt(states, events[k].at), states[k], events[k].op.id, events[k].op.driverId);
  }

  /** Each trip pending when the cancel won is cancelled for good, and no accept of it wins at any point of the run:
      never both. */
  lemma CancelledNeverAccepted(d: Decrement, states: seq<Db>, events: seq<Event>, i: nat, k: nat, id: Id)
    requires IsRun(d, states, events) && i < |events| && k < |events|
    requires events[i].op.OpCancelBooking? && OutcomeAt(d, states, events, i) == Done
    requires PendingOf(states[i].assignments, events[i].op.bookingId, id)
    ensures k > i ==> id in states[k].assignments && states[k].assignments[id].status == Cancelled
    ensures events[k].op.OpAccept? && events[k].op.id == id ==> OutcomeAt(d, states, events, k) != Done
  {
    CancelBookingEnds(d, states, events, i, id);
    if k > i {
      TripsPersist(d, states, events, i + 1, k);
    } else if k < i {
      TripsPersist(d, states, events, k + 1, i);
    }
    if events[k].op.OpAccept? && events[k].op.id == id && OutcomeAt(d, states, events, k) == Done {
      AcceptNeedsPending(d, states, events, k);
    }
  }

  /** A single writer that read at_pickup and finds the trip waiting at the drop sends it back to in_transit. */
  lemma SingleWriterCanGoBack()
    ensures exists s: Db, seen: Seen, id: Id ::
              && IsStale(seen, s) && id in s.assignments && s.assignments[id].status == ArrivedAtDrop
              && UpdateAssignmentStatus(seen, s, id, InTransit).db == WithStatus(s, id, InTransit)
  {
    var early := Assignment(1, 5, 3, 4, 11, AtPickup);
    var s := Db(map[], map[], map[], map[]).(assignments := map[10 := early.(status := ArrivedAtDrop)]);
    var seen := Seen(map[10 := early], map[], map[], map[]);
    assert RowStep(seen.assignments[10], s.assignments[10]);
    assert IsStale(seen, s);
    assert UpdateAssignmentStatus(seen, s, 10, InTransit).db == WithStatus(s, 10, InTransit);
  }
}
