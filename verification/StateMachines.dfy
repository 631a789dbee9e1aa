/** Status enumerations, transition tables and terminal sets of trips, vehicles and bookings. */
module StateMachines {

  datatype AssignmentStatus =
    | Pending
    | DriverAccepted
    | EnRoutePickup
    | AtPickup
    | InTransit
    | ArrivedAtDrop
    | Completed
    | PartialDelivery
    | DriverDeclined
    | Cancelled

  /** `OnTrip` is the vehicle status the tables call in_transit. */
  datatype VehicleStatus = Available | OnHold | OnTrip | Maintenance | Inactive

  datatype BookingStatus =
    | Created
    | Broadcasting
    | Active
    | PartiallyFilled
    | FullyFilled
    | InProgress
    | BookingCompleted
    | BookingCancelled
    | Expired

  const TERMINAL_ASSIGNMENT: set<AssignmentStatus> := {Completed, Cancelled, DriverDeclined, PartialDelivery}
  const TERMINAL_BOOKING: set<BookingStatus> := {BookingCompleted, BookingCancelled, Expired}

  /** The list that the driver check of createAssignment spells out. */
  const ACTIVE_ASSIGNMENT: set<AssignmentStatus> :=
    {Pending, DriverAccepted, EnRoutePickup, AtPickup, InTransit, ArrivedAtDrop}

  /** ASSIGNMENT_VALID_TRANSITIONS. */
  function AssignmentNext(status: AssignmentStatus): set<AssignmentStatus> {
    match status
    case Pending => {DriverAccepted, DriverDeclined, Cancelled}
    case DriverAccepted => {EnRoutePickup, Cancelled}
    case EnRoutePickup => {AtPickup, Cancelled}
    case AtPickup => {InTransit, Cancelled}
    case InTransit => {ArrivedAtDrop, Cancelled}
    case ArrivedAtDrop => {Completed, PartialDelivery, Cancelled}
    case _ => {}
  }

  /** BOOKING_VALID_TRANSITIONS. */
  function BookingNext(status: BookingStatus): set<BookingStatus> {
    match status
    case Created => {Broadcasting, BookingCancelled, Expired}
    case Broadcasting => {Active, BookingCancelled, Expired}
    case Active => {PartiallyFilled, FullyFilled, BookingCancelled, Expired}
    case PartiallyFilled => {Active, FullyFilled, BookingCancelled, Expired}
    case FullyFilled => {InProgress, BookingCancelled}
    case InProgress => {BookingCompleted, BookingCancelled}
    case _ => {}
  }

  predicate IsTerminal(status: AssignmentStatus) {
    status in TERMINAL_ASSIGNMENT
  }

  predicate IsClosed(status: BookingStatus) {
    status in TERMINAL_BOOKING
  }

  /** The active list and the terminal list split the enumeration. */
  lemma ActiveIsNotTerminal(status: AssignmentStatus)
    ensures status in ACTIVE_ASSIGNMENT <==> !IsTerminal(status)
  {
  }

  /** Every consecutive pair of `path` is an edge of the assignment table. */
  predicate IsTripPath(path: seq<AssignmentStatus>) {
    forall k :: 0 <= k < |path| - 1 ==> path[k + 1] in AssignmentNext(path[k])
  }

  /** The six stages a delivery has to pass, in order. */
  const DELIVERY_ROUTE: seq<AssignmentStatus> :=
    [Pending, DriverAccepted, EnRoutePickup, AtPickup, InTransit, ArrivedAtDrop]

  lemma {:induction false} PathPrefixOnRoute(path: seq<AssignmentStatus>, k: nat)
    requires |path| > 0 && path[0] == Pending && IsTripPath(path)
    requires k < |path| && !IsTerminal(path[k])
    ensures k < 6 && path[k] == DELIVERY_ROUTE[k]
  {
    if k > 0 {
      assert path[k - 1 + 1] in AssignmentNext(path[k - 1]);
      PathPrefixOnRoute(path, k - 1);
    }
  }

  /** The edges of the assignment table: from each stage of the route to the next, from the last to either delivery,
      from pending to a decline, and from every stage to a cancel. */
  lemma TripEdges(a: AssignmentStatus, b: AssignmentStatus)
    ensures b in AssignmentNext(a)
            <==> || (exists k: nat | k < 5 :: a == DELIVERY_ROUTE[k] && b == DELIVERY_ROUTE[k + 1])
                 || (a == ArrivedAtDrop && b in {Completed, PartialDelivery})
                 || (a == Pending && b == DriverDeclined)
                 || (a in DELIVERY_ROUTE && b == Cancelled)
  {
    assert a in DELIVERY_ROUTE <==> !IsTerminal(a) by {
      assert DELIVERY_ROUTE[0] == Pending && DELIVERY_ROUTE[1] == DriverAccepted && DELIVERY_ROUTE[2] == EnRoutePickup;
      assert DELIVERY_ROUTE[3] == AtPickup && DELIVERY_ROUTE[4] == InTransit && DELIVERY_ROUTE[5] == ArrivedAtDrop;
    }
    if k: nat :| k < 5 && a == DELIVERY_ROUTE[k] {
      assert b == DELIVERY_ROUTE[k + 1] ==> b in AssignmentNext(a);
    }
  }

  const BOOKING_ROUTE: seq<BookingStatus> :=
    [Created, Broadcasting, Active, PartiallyFilled, FullyFilled, InProgress, BookingCompleted]

  /** The edges of the booking table: from each stage of a booking to the next, active to full at once, a partial fill
      back to active, every open booking to cancelled, and to expired as long as it is not full. */
  lemma BookingEdges(a: BookingStatus, b: BookingStatus)
    ensures b in BookingNext(a)
            <==> || (exists k: nat | k < 6 :: a == BOOKING_ROUTE[k] && b == BOOKING_ROUTE[k + 1])
                 || (a == Active && b == FullyFilled) || (a == PartiallyFilled && b == Active)
                 || (!IsClosed(a) && b == BookingCancelled)
                 || (a in {Created, Broadcasting, Active, PartiallyFilled} && b == Expired)
  {
    assert BOOKING_ROUTE[0] == Created && BOOKING_ROUTE[1] == Broadcasting && BOOKING_ROUTE[2] == Active;
    assert BOOKING_ROUTE[3] == PartiallyFilled && BOOKING_ROUTE[4] == FullyFilled && BOOKING_ROUTE[5] == InProgress;
    if k: nat :| k < 6 && a == BOOKING_ROUTE[k] {
      assert b == BOOKING_ROUTE[k + 1] ==> b in BookingNext(a);
    }
  }

  /** A legal path from pending to a delivery visits all six stages, once each and in order: no shortcut from
      in_transit to completed. */
  lemma DeliveryVisitsEveryStage(path: seq<AssignmentStatus>)
    requires |path| > 0 && path[0] == Pending && IsTripPath(path)
    requires path[|path| - 1] in {Completed, PartialDelivery}
    ensures |path| == 7 && path[..6] == DELIVERY_ROUTE
  {
    var n := |path| - 1;
    assert path[n - 1 + 1] in AssignmentNext(path[n - 1]);
    forall k | 0 <= k < n
      ensures k < 6 && path[k] == DELIVERY_ROUTE[k]
    {
      assert path[k + 1] in AssignmentNext(path[k]);
      PathPrefixOnRoute(path, k);
    }
  }

  /** No legal path of any kind is longer than seven statuses, and it ends for good exactly at a terminal one. */
  lemma TripPathsAreShort(path: seq<AssignmentStatus>)
    requires |path| > 0 && path[0] == Pending && IsTripPath(path)
    ensures |path| <= 7
    ensures IsTerminal(path[|path| - 1]) <==> AssignmentNext(path[|path| - 1]) == {}
  {
    if |path| > 1 {
      var n := |path| - 2;
      assert path[n + 1] in AssignmentNext(path[n]);
      PathPrefixOnRoute(path, n);
    }
    var last := path[|path| - 1];
    if !IsTerminal(last) {
      assert Cancelled in AssignmentNext(last);
    }
  }
}
