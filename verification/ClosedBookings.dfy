/** What can still happen to a booking, and to its trips, once it is closed. */
module ClosedBookings {
  import opened StateMachines
  import opened Rows
  import opened Dispatch
  import opened Runs
  import opened Safety

  ghost predicate ClosedAt(states: seq<Db>, i: nat, b: Id)
    requires i < |states|
  {
    b in states[i].bookings && IsClosed(states[i].bookings[b].status)
  }

  lemma StaysClosed(d: Decrement, states: seq<Db>, events: seq<Event>, i: nat, j: nat, b: Id)
    requires IsRun(d, states, events) && i <= j < |states| && ClosedAt(states, i, b)
    ensures ClosedAt(states, j, b)
  {
    ClosedBookingsStayClosed(d, states, events, i, j, b);
  }

  ghost predicate CancelWon(d: Decrement, states: seq<Db>, events: seq<Event>, i: nat, b: Id)
    requires IsRun(d, states, events) && i < |events|
  {
    events[i].op.OpCancelBooking? && events[i].op.bookingId == b && OutcomeAt(d, states, events, i) == Done
  }

  ghost predicate NothingPending(assignments: map<Id, Assignment>, b: Id) {
    forall id :: !PendingOf(assignments, b, id)
  }

  lemma CancelCloses(d: Decrement, states: seq<Db>, events: seq<Event>, i: nat, b: Id)
    requires IsRun(d, states, events) && i < |events| && CancelWon(d, states, events, i, b)
    ensures ClosedAt(states, i + 1, b)
    ensures NothingPending(states[i + 1].assignments, b)
  {
    assert StepAt(d, states, events, i);
    CancelBookingSweepsPending(SeenAt(states, events[i].at), states[i], b, events[i].op.customerId);
  }

  /** Any later cancel of that booking, by whomever and with whatever reads, changes nothing at any point of the run. */
  lemma LaterCancelsChangeNothing(d: Decrement, states: seq<Db>, events: seq<Event>, i: nat, j: nat, b: Id)
    requires IsRun(d, states, events) && i < j < |events| && CancelWon(d, states, events, i, b)
    requires events[j].op.OpCancelBooking? && events[j].op.bookingId == b
    ensures states[j + 1] == states[j] && OutcomeAt(d, states, events, j) != Done
  {
    CancelCloses(d, states, events, i, b);
    StaysClosed(d, states, events, i + 1, j, b);
    assert StepAt(d, states, events, j);
  }

  // ==== trips created on it ====

  ghost predicate CreatesOn(events: seq<Event>, k: nat, b: Id)
    requires k < |events|
  {
    events[k].op.OpCreate? && events[k].op.req.bookingId == b
  }

  /** Every check of a create except the one on the booking's status. */
  predicate OtherChecksPass(seen: Seen, s: Db, req: CreateRequest) {
    req.bookingId in seen.bookings
    && var asIfOpen := seen.bookings[req.bookingId].(status := Active);
       CreateAssignment(seen.(bookings := seen.bookings[req.bookingId := asIfOpen]), s, req).outcome == Done
  }

  /** A create on a closed booking wins exactly when it read the booking at a moment before it was closed, and open for
      assignment then; nothing else of the booking is looked at. */
  lemma CreateOnClosedWinsIff(d: Decrement, states: seq<Db>, events: seq<Event>, i: nat, k: nat, b: Id)
    requires IsRun(d, states, events) && i <= k < |events| && ClosedAt(states, i, b) && CreatesOn(events, k, b)
    ensures ReadsFrom(events[k].at, k)
    ensures OutcomeAt(d, states, events, k) == Done
            <==> && events[k].at.bookings < i
                 && b in states[events[k].at.bookings].bookings
                 && states[events[k].at.bookings].bookings[b].status in {Active, PartiallyFilled}
                 && OtherChecksPass(SeenAt(states, events[k].at), states[k], events[k].op.req)
  {
    assert StepAt(d, states, events, k);
    if events[k].at.bookings >= i {
      StaysClosed(d, states, events, i, events[k].at.bookings, b);
    }
  }

  /** A create on `b` that wins after the cancel at `i`, on a booking read from before it. */
  ghost predicate WinsOnStaleRead(d: Decrement, states: seq<Db>, events: seq<Event>, i: nat, k: nat, b: Id)
    requires IsRun(d, states, events) && k < |events|
  {
    CreatesOn(events, k, b) && OutcomeAt(d, states, events, k) == Done && events[k].at.bookings <= i
  }

  lemma PendingStep(d: Decrement, states: seq<Db>, events: seq<Event>, i: nat, k: nat, b: Id, id: Id)
    requires IsRun(d, states, events) && i < k < |events| && ClosedAt(states, i + 1, b)
    requires PendingOf(states[k + 1].assignments, b, id)
    ensures PendingOf(states[k].assignments, b, id) || WinsOnStaleRead(d, states, events, i, k, b)
  {
    assert StepAt(d, states, events, k);
    var seen := SeenAt(states, events[k].at);
    if id in states[k].assignments {
      TripStepOf(d, seen, states[k], events[k].op);
      assert RowStep(states[k].assignments[id], states[k + 1].assignments[id]);
    } else {
      OnlyCreateInserts(d, seen, states[k], events[k].op, id);
      CreateOnClosedWinsIff(d, states, events, i + 1, k, b);
    }
  }

  lemma {:induction false} PendingWasCreated(
    d: Decrement, states: seq<Db>, events: seq<Event>, i: nat, j: nat, b: Id, id: Id) returns (k: nat)
    requires IsRun(d, states, events) && i < j < |states| && CancelWon(d, states, events, i, b)
    requires PendingOf(states[j].assignments, b, id)
    ensures i < k < j && WinsOnStaleRead(d, states, events, i, k, b)
    decreases j
  {
    CancelCloses(d, states, events, i, b);
    k := j - 1;
    if k > i {
      PendingStep(d, states, events, i, k, b, id);
      if PendingOf(states[k].assignments, b, id) {
        k := PendingWasCreated(d, states, events, i, k, b, id);
      }
    }
  }

  lemma WinningCreateIsPending(d: Decrement, states: seq<Db>, events: seq<Event>, k: nat, b: Id)
    requires IsRun(d, states, events) && k < |events|
    requires CreatesOn(events, k, b) && OutcomeAt(d, states, events, k) == Done
    ensures PendingOf(states[k + 1].assignments, b, events[k].op.req.newId)
  {
    assert StepAt(d, states, events, k);
    CommitTables(states[k], events[k].op.req);
  }

  /** After a won cancel some trip of the booking is pending at some moment if and only if some create won on a booking
      read from before the cancel. */
  lemma PendingAfterCancelIff(d: Decrement, states: seq<Db>, events: seq<Event>, i: nat, n: nat, b: Id)
    requires IsRun(d, states, events) && i < n < |states| && CancelWon(d, states, events, i, b)
    ensures (exists j, id :: i < j <= n && PendingOf(states[j].assignments, b, id))
            <==> (exists k :: i < k < n && WinsOnStaleRead(d, states, events, i, k, b))
  {
    if j, id :| i < j <= n && PendingOf(states[j].assignments, b, id) {
      var k := PendingWasCreated(d, states, events, i, j, b, id);
    }
    if k :| i < k < n && WinsOnStaleRead(d, states, events, i, k, b) {
      WinningCreateIsPending(d, states, events, k, b);
      assert PendingOf(states[k + 1].assignments, b, events[k].op.req.newId);
    }
  }

  /** So if every later create of the booking reads it after the cancel, nothing of it is pending for the rest of the
      run. */
  lemma FreshReadsLeaveNothingPending(d: Decrement, states: seq<Db>, events: seq<Event>, i: nat, j: nat, b: Id, id: Id)
    requires IsRun(d, states, events) && i < j < |states| && CancelWon(d, states, events, i, b)
    requires forall k | i < k < |events| && CreatesOn(events, k, b) :: events[k].at.bookings > i
    ensures !PendingOf(states[j].assignments, b, id)
  {
    if PendingOf(states[j].assignments, b, id) {
      var _ := PendingWasCreated(d, states, events, i, j, b, id);
    }
  }

  // ==== trips left on it ====

  /** With the decrement that throws on a closed booking, no decline, timeout or cancel of its trips ever wins again. */
  lemma LeavesLoseOnceClosed(states: seq<Db>, events: seq<Event>, i: nat, j: nat, b: Id)
    requires IsRun(ThrowsOnClosed, states, events) && i <= j < |events| && ClosedAt(states, i, b)
    requires LeavesTrip(events[j].op) && events[j].op.id in states[j].assignments
    requires states[j].assignments[events[j].op.id].bookingId == b
    ensures states[j + 1] == states[j] && OutcomeAt(ThrowsOnClosed, states, events, j) != Done
  {
    StaysClosed(ThrowsOnClosed, states, events, i, j, b);
    SeenIsStale(ThrowsOnClosed, states, events, j);
    assert StepAt(ThrowsOnClosed, states, events, j);
    LeaveTables(ThrowsOnClosed, SeenAt(states, events[j].at), states[j], events[j].op);
  }

  /** A completion, a status update, the single writer, or the schedule compensation, on this trip. */
  predicate Progresses(op: Op, id: Id) {
    (op.OpComplete? || op.OpUpdateStatus? || op.OpSingleWriter? || op.OpScheduleFailure?) && op.id == id
  }

  lemma OtherStepsKeepActive(states: seq<Db>, events: seq<Event>, i: nat, j: nat, b: Id, id: Id)
    requires IsRun(ThrowsOnClosed, states, events) && i <= j < |events| && ClosedAt(states, i, b)
    requires id in states[j].assignments && states[j].assignments[id].bookingId == b
    requires !IsTerminal(states[j].assignments[id].status) && !Progresses(events[j].op, id)
    ensures id in states[j + 1].assignments && !IsTerminal(states[j + 1].assignments[id].status)
    ensures SameTrip(states[j].assignments[id], states[j + 1].assignments[id])
  {
    var d, op := ThrowsOnClosed, events[j].op;
    assert StepAt(d, states, events, j);
    var seen := SeenAt(states, events[j].at);
    TripStepOf(d, seen, states[j], op);
    assert RowStep(states[j].assignments[id], states[j + 1].assignments[id]);
    if op.OpCancelBooking? {
      StaysClosed(d, states, events, i, j, b);
    } else if states[j + 1].assignments != states[j].assignments {
      OnlyTripOpsMoveRows(d, seen, states[j], op, id);
      if LeavesTrip(op) && op.id == id {
        LeavesLoseOnceClosed(states, events, i, j, b);
      } else if op.OpAccept? {
        AcceptWinsFromPending(seen, states[j], op.id, op.driverId);
      }
    }
  }

  /** So the trip stays active, and its driver busy for every create, until one of those four moves it. */
  lemma {:induction false} TrappedUntilProgress(
    states: seq<Db>, events: seq<Event>, i: nat, j: nat, b: Id, id: Id)
    requires IsRun(ThrowsOnClosed, states, events) && i <= j < |states| && ClosedAt(states, i, b)
    requires id in states[i].assignments && states[i].assignments[id].bookingId == b
    requires !IsTerminal(states[i].assignments[id].status)
    requires forall k | i <= k < j :: !Progresses(events[k].op, id)
    ensures id in states[j].assignments && SameTrip(states[i].assignments[id], states[j].assignments[id])
    ensures !IsTerminal(states[j].assignments[id].status)
    ensures !DriverIdle(states[j].assignments, states[i].assignments[id].driverId)
    decreases j
  {
    if i < j {
      TrappedUntilProgress(states, events, i, j - 1, b, id);
      OtherStepsKeepActive(states, events, i, j - 1, b, id);
    }
  }

  // ==== runs in which it happens ====

  /** Two calls that both read the tables before either commits. */
  ghost function TwoCalls(d: Decrement, s: Db, first: Op, second: Op): seq<Db> {
    var after := Exec(d, Fresh(s), s, first).db;
    [s, after, Exec(d, Fresh(s), after, second).db]
  }

  function BothEarly(first: Op, second: Op): seq<Event> {
    [Event(first, ReadAt(0, 0, 0, 0)), Event(second, ReadAt(0, 0, 0, 0))]
  }

  lemma TwoCallsRun(d: Decrement, s: Db, first: Op, second: Op)
    requires !first.OpUpdateStatus? && !second.OpUpdateStatus?
    ensures var states, events := TwoCalls(d, s, first, second), BothEarly(first, second);
            && IsRun(d, states, events)
            && OutcomeAt(d, states, events, 0) == Exec(d, Fresh(s), s, first).outcome
            && OutcomeAt(d, states, events, 1) == Exec(d, Fresh(s), states[1], second).outcome
  {
    var states, events := TwoCalls(d, s, first, second), BothEarly(first, second);
    assert SeenAt(states, ReadAt(0, 0, 0, 0)) == Fresh(s);
    assert StepAt(d, states, events, 0) && StepAt(d, states, events, 1);
  }

  /** Every create that would win now also wins when a cancel of its booking commits first: the cancelled booking gets
      a pending trip. */
  lemma StaleCreateRevivesCancelledBooking(d: Decrement, s: Db, req: CreateRequest, customerId: Id)
    requires CreateAssignment(Fresh(s), s, req).outcome == Done
    requires s.bookings[req.bookingId].customerId == customerId
    ensures var cancel, create := OpCancelBooking(req.bookingId, customerId), OpCreate(req);
            var states, events := TwoCalls(d, s, cancel, create), BothEarly(cancel, create);
            && IsRun(d, states, events) && CancelWon(d, states, events, 0, req.bookingId)
            && WinsOnStaleRead(d, states, events, 0, 1, req.bookingId)
            && PendingOf(states[2].assignments, req.bookingId, req.newId)
  {
    var cancel, create := OpCancelBooking(req.bookingId, customerId), OpCreate(req);
    TwoCallsRun(d, s, cancel, create);
    CancelBookingSweepsPending(Fresh(s), s, req.bookingId, customerId);
    CancelLeavesCreatePossible(s, req, customerId);
    WinningCreateIsPending(d, TwoCalls(d, s, cancel, create), BothEarly(cancel, create), 1, req.bookingId);
  }

  lemma CancelLeavesCreatePossible(s: Db, req: CreateRequest, customerId: Id)
    requires CreateAssignment(Fresh(s), s, req).outcome == Done
    requires CancelBooking(Fresh(s), s, req.bookingId, customerId).outcome == Done
    ensures var after := CancelBooking(Fresh(s), s, req.bookingId, customerId).db;
            CreateAssignment(Fresh(s), after, req).outcome == Done
  {
  }

  /** Every completion check that would write now also writes when a cancel commits first: the cancelled booking becomes
      completed. */
  lemma CancelledBecomesCompleted(d: Decrement, s: Db, b: Id, check: CompletionCheck)
    requires b in s.bookings && s.bookings[b].status in CANCELLABLE && TripsDone(check, s.assignments, b)
    ensures var cancel, complete := OpCancelBooking(b, s.bookings[b].customerId), OpCheckCompletion(b, check);
            var states, events := TwoCalls(d, s, cancel, complete), BothEarly(cancel, complete);
            && IsRun(d, states, events) && CancelWon(d, states, events, 0, b)
            && b in states[1].bookings && states[1].bookings[b].status == BookingCancelled
            && b in states[2].bookings && states[2].bookings[b].status == BookingCompleted
  {
    TwoCallsRun(d, s, OpCancelBooking(b, s.bookings[b].customerId), OpCheckCompletion(b, check));
  }

  /** A booking of one truck, filled by a create, is in that position as soon as its trip is delivered: nothing has
      written its status since it was active. */
  lemma FilledByCreateIsCancellable(seen: Seen, s: Db, req: CreateRequest, a: Assignment)
    requires CreateAssignment(seen, s, req).outcome == Done
    requires req.bookingId in s.bookings && s.bookings[req.bookingId].status == Active
    requires a == NewAssignment(req).(status := Completed)
    requires forall id | id in s.assignments :: s.assignments[id].bookingId != req.bookingId
    ensures var after := CreateAssignment(seen, s, req).db;
            && req.bookingId in after.bookings && after.bookings[req.bookingId].status in CANCELLABLE
            && TripsDone(WantsDelivery, after.assignments[req.newId := a], req.bookingId)
  {
    CommitTables(s, req);
    var delivered := CreateAssignment(seen, s, req).db.assignments[req.newId := a];
    assert delivered[req.newId] == a;
  }
}
