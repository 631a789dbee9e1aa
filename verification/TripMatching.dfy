/** Who drives what for whom, and who may act on it: every trip joins a driver and a vehicle of its own transporter with
    a booking the vehicle fits, and only its owners move it, although all of this is checked on rows read before the
    transaction. */
module TripMatching {
  import opened StateMachines
  import opened Rows
  import opened Dispatch
  import opened Runs

  /** The type matches, and the subtype too where both sides name one. */
  predicate Fits(v: Vehicle, b: Booking) {
    && v.vehicleType == b.vehicleType
    && (v.vehicleSubtype.Some? && b.vehicleSubtype.Some? ==> v.vehicleSubtype == b.vehicleSubtype)
  }

  predicate Matches(s: Db, a: Assignment) {
    && a.vehicleId in s.vehicles && a.bookingId in s.bookings && a.driverId in s.drivers
    && s.drivers[a.driverId] == a.transporterId
    && s.vehicles[a.vehicleId].transporterId == a.transporterId
    && Fits(s.vehicles[a.vehicleId], s.bookings[a.bookingId])
  }

  predicate Matched(s: Db) {
    forall id | id in s.assignments :: Matches(s, s.assignments[id])
  }

  /** The checks on the rows read earlier hold of the rows found now. */
  lemma NewTripMatches(seen: Seen, s: Db, req: CreateRequest)
    requires IsStale(seen, s) && CreateAssignment(seen, s, req).outcome == Done
    ensures Matches(s, NewAssignment(req))
  {
    assert SameVehicle(seen.vehicles[req.vehicleId], s.vehicles[req.vehicleId]);
    assert BookingRowStep(seen.bookings[req.bookingId], s.bookings[req.bookingId]);
  }

  lemma MatchSurvives(s: Db, after: Db, a: Assignment, b: Assignment)
    requires Matches(s, a) && SameTrip(a, b)
    requires BookingStep(s.bookings, after.bookings) && KeepsFleet(s, after)
    ensures Matches(after, b)
  {
    assert SameVehicle(s.vehicles[a.vehicleId], after.vehicles[a.vehicleId]);
    assert BookingRowStep(s.bookings[a.bookingId], after.bookings[a.bookingId]);
  }

  lemma StepKeepsMatched(d: Decrement, seen: Seen, s: Db, op: Op)
    requires Matched(s) && IsStale(seen, s) && ReadsAtomically(seen, s, op)
    ensures Matched(Exec(d, seen, s, op).db)
  {
    var after := Exec(d, seen, s, op).db;
    TripStepOf(d, seen, s, op);
    BookingStepOf(d, seen, s, op);
    FleetStepOf(d, seen, s, op);
    forall id | id in after.assignments
      ensures Matches(after, after.assignments[id])
    {
      if id in s.assignments {
        assert RowStep(s.assignments[id], after.assignments[id]);
        MatchSurvives(s, after, s.assignments[id], after.assignments[id]);
      } else {
        OnlyCreateInserts(d, seen, s, op, id);
        NewTripMatches(seen, s, op.req);
        MatchSurvives(s, after, NewAssignment(op.req), after.assignments[id]);
      }
    }
  }

  /** In every state of every run each trip is driven for its transporter by one of its drivers in one of its vehicles,
      and the vehicle is of the kind the booking asked for. */
  lemma {:induction false} TripsMatchInRuns(d: Decrement, states: seq<Db>, events: seq<Event>, k: nat)
    requires IsRun(d, states, events) && Matched(states[0]) && k < |states|
    ensures Matched(states[k])
  {
    if k > 0 {
      TripsMatchInRuns(d, states, events, k - 1);
      SeenIsStale(d, states, events, k - 1);
      assert StepAt(d, states, events, k - 1);
      StepKeepsMatched(d, SeenAt(states, events[k - 1].at), states[k - 1], events[k - 1].op);
    }
  }

  // ==== who may act on it ====

  /** The caller a service method accepts, judged by the row its transaction finds. */
  predicate IsAuthorised(s: Db, op: Op) {
    match op
    case OpAccept(id, driverId) => id in s.assignments && s.assignments[id].driverId == driverId
    case OpDecline(id, driverId) => id in s.assignments && s.assignments[id].driverId == driverId
    case OpUpdateStatus(id, driverId, _, _) => id in s.assignments && s.assignments[id].driverId == driverId
    case OpCancel(id, userId) =>
      id in s.assignments && userId in {s.assignments[id].transporterId, s.assignments[id].driverId}
    case OpCancelBooking(id, customerId) => id in s.bookings && s.bookings[id].customerId == customerId
    case _ => true
  }

  /** Ownership is checked on a row read earlier, and never changes: a stranger's call fails and changes nothing. */
  lemma StrangersChangeNothing(d: Decrement, seen: Seen, s: Db, op: Op)
    requires IsStale(seen, s) && !IsAuthorised(s, op)
    ensures Exec(d, seen, s, op).db == s && Exec(d, seen, s, op).outcome.Failed?
  {
    if op.OpCancelBooking? {
      if op.bookingId in seen.bookings {
        assert BookingRowStep(seen.bookings[op.bookingId], s.bookings[op.bookingId]);
      }
    } else if op.id in seen.assignments {
      assert RowStep(seen.assignments[op.id], s.assignments[op.id]);
    }
  }
}
