/** The vehicle table mirrors the active trips: which steps keep it so, exactly. */
module VehicleCoupling {
  import opened StateMachines
  import opened Rows
  import opened Dispatch
  import opened Runs
  import opened Safety

  /** Trip `id` is active and names vehicle `v`. */
  predicate Holds(s: Db, id: Id, v: Id) {
    id in s.assignments && s.assignments[id].vehicleId == v && !IsTerminal(s.assignments[id].status)
  }

  /** The vehicle row an active trip asks for. */
  predicate Mirrors(v: Vehicle, a: Assignment) {
    && v.status == (if a.status == Pending then OnHold else OnTrip)
    && v.currentTripId == Some(a.tripId)
    && v.assignedDriverId == Some(a.driverId)
  }

  predicate Unheld(v: Vehicle) {
    v.status !in {OnHold, OnTrip} && v.currentTripId == None && v.assignedDriverId == None
  }

  ghost predicate CoupledAt(s: Db, v: Id)
    requires v in s.vehicles
  {
    if exists id :: Holds(s, id, v) then
      forall id :: Holds(s, id, v) ==> Mirrors(s.vehicles[v], s.assignments[id])
    else Unheld(s.vehicles[v])
  }

  ghost predicate Coupled(s: Db) {
    && (forall id | id in s.assignments :: s.assignments[id].vehicleId in s.vehicles)
    && (forall i, j, v :: Holds(s, i, v) && Holds(s, j, v) ==> i == j)
    && (forall v | v in s.vehicles :: CoupledAt(s, v))
  }

  // ==== the claim in terms of counts ====

  function Holders(s: Db, v: Id, phase: set<AssignmentStatus>): set<Id> {
    set id | id in s.assignments && s.assignments[id].vehicleId == v && s.assignments[id].status in phase
  }

  const COMMITTED: set<AssignmentStatus> := ACTIVE_ASSIGNMENT - {Pending}

  lemma HoldersHold(s: Db, v: Id, id: Id)
    ensures id in Holders(s, v, {Pending}) <==> Holds(s, id, v) && s.assignments[id].status == Pending
    ensures id in Holders(s, v, COMMITTED) <==> Holds(s, id, v) && s.assignments[id].status != Pending
  {
  }

  lemma NoHolder(s: Db, v: Id)
    requires forall id :: !Holds(s, id, v)
    ensures Holders(s, v, {Pending}) == {} && Holders(s, v, COMMITTED) == {}
  {
    forall id
      ensures id !in Holders(s, v, {Pending}) && id !in Holders(s, v, COMMITTED)
    {
      HoldersHold(s, v, id);
    }
  }

  lemma SoleHolder(s: Db, v: Id, id: Id)
    requires Coupled(s) && Holds(s, id, v)
    ensures Holders(s, v, {Pending}) == if s.assignments[id].status == Pending then {id} else {}
    ensures Holders(s, v, COMMITTED) == if s.assignments[id].status == Pending then {} else {id}
  {
    forall other
      ensures other in Holders(s, v, {Pending}) <==> other == id && s.assignments[id].status == Pending
      ensures other in Holders(s, v, COMMITTED) <==> other == id && s.assignments[id].status != Pending
    {
      HoldersHold(s, v, other);
    }
  }

  /** on_hold iff exactly one pending trip names the vehicle, in_transit iff exactly one accepted-to-arrived trip does;
      otherwise it names no trip and no driver. */
  lemma CoupledMeans(s: Db, v: Id)
    requires Coupled(s) && v in s.vehicles
    ensures s.vehicles[v].status == OnHold <==> |Holders(s, v, {Pending})| == 1
    ensures s.vehicles[v].status == OnTrip <==> |Holders(s, v, COMMITTED)| == 1
    ensures s.vehicles[v].status !in {OnHold, OnTrip} ==>
              s.vehicles[v].currentTripId == None && s.vehicles[v].assignedDriverId == None
    ensures forall id | Holds(s, id, v) ::
              s.vehicles[v].currentTripId == Some(s.assignments[id].tripId)
              && s.vehicles[v].assignedDriverId == Some(s.assignments[id].driverId)
  {
    assert CoupledAt(s, v);
    if exists id :: Holds(s, id, v) {
      var id :| Holds(s, id, v);
      SoleHolder(s, v, id);
    } else {
      NoHolder(s, v);
    }
  }

  // ==== the writes, one at a time ====

  /** Ending a trip and releasing its vehicle in the same step. */
  lemma EndKeepsCoupling(s: Db, id: Id, to: AssignmentStatus, after: Db)
    requires Coupled(s) && id in s.assignments && !IsTerminal(s.assignments[id].status) && IsTerminal(to)
    requires after.assignments == WithStatus(s, id, to).assignments
    requires after.vehicles == ReleaseVehicle(s, s.assignments[id].vehicleId).vehicles
    ensures Coupled(after)
  {
    var v := s.assignments[id].vehicleId;
    assert Holds(s, id, v) && CoupledAt(s, v);
    forall w, other | Holds(after, other, w)
      ensures Holds(s, other, w) && other != id && w != v
    {
      assert Holds(s, other, w);
    }
    forall w | w in after.vehicles
      ensures CoupledAt(after, w)
    {
      assert CoupledAt(s, w);
      if w != v {
        forall other | Holds(s, other, w)
          ensures Holds(after, other, w)
        {
        }
      }
    }
  }

  /** A trip moved within the committed phase keeps its vehicle row. */
  lemma PhaseKeepsCoupling(s: Db, id: Id, to: AssignmentStatus, after: Db)
    requires Coupled(s) && id in s.assignments && !IsTerminal(s.assignments[id].status) && !IsTerminal(to)
    requires to == Pending <==> s.assignments[id].status == Pending
    requires after.assignments == WithStatus(s, id, to).assignments && after.vehicles == s.vehicles
    ensures Coupled(after)
  {
    assert forall other, w :: Holds(after, other, w) <==> Holds(s, other, w);
    forall w | w in after.vehicles
      ensures CoupledAt(after, w)
    {
      assert CoupledAt(s, w);
    }
  }

  /** A trip that ends while its vehicle stays taken. */
  lemma EndAloneBreaksCoupling(s: Db, id: Id, to: AssignmentStatus, after: Db)
    requires Coupled(s) && id in s.assignments && !IsTerminal(s.assignments[id].status) && IsTerminal(to)
    requires after.assignments == WithStatus(s, id, to).assignments && after.vehicles == s.vehicles
    ensures !Coupled(after)
  {
    var v := s.assignments[id].vehicleId;
    assert Holds(s, id, v) && CoupledAt(s, v);
    forall other
      ensures !Holds(after, other, v)
    {
      if Holds(after, other, v) {
        assert Holds(s, other, v);
      }
    }
    assert !CoupledAt(after, v);
  }

  /** Moving one active row without touching its vehicle. */
  lemma MoveKeepsCouplingIff(s: Db, id: Id, to: AssignmentStatus, after: Db)
    requires Coupled(s) && id in s.assignments && !IsTerminal(s.assignments[id].status)
    requires after.assignments == WithStatus(s, id, to).assignments && after.vehicles == s.vehicles
    ensures Coupled(after) <==> !IsTerminal(to) && (to == Pending <==> s.assignments[id].status == Pending)
  {
    var v := s.assignments[id].vehicleId;
    if IsTerminal(to) {
      EndAloneBreaksCoupling(s, id, to, after);
    } else if (to == Pending) == (s.assignments[id].status == Pending) {
      PhaseKeepsCoupling(s, id, to, after);
    } else {
      assert Holds(s, id, v) && CoupledAt(s, v);
      assert Holds(after, id, v) && !Mirrors(after.vehicles[v], after.assignments[id]);
      assert !CoupledAt(after, v);
    }
  }

  /** The same row, held by the same trips in the same phase, is mirrored as before. */
  lemma UntouchedVehicle(s: Db, after: Db, w: Id)
    requires w in s.vehicles && w in after.vehicles && after.vehicles[w] == s.vehicles[w] && CoupledAt(s, w)
    requires forall id :: Holds(after, id, w) <==> Holds(s, id, w)
    requires forall id | Holds(s, id, w) && Holds(after, id, w) :: after.assignments[id] == s.assignments[id]
    ensures CoupledAt(after, w)
  {
  }

  /** The tables after an accept of the pending trip `id`. */
  predicate IsBoarded(s: Db, id: Id, after: Db) {
    && id in s.assignments && s.assignments[id].status == Pending
    && after.assignments == WithStatus(s, id, DriverAccepted).assignments
    && BoardsFor(s, s.assignments[id], after)
  }

  lemma BoardedVehicle(s: Db, id: Id, after: Db)
    requires Coupled(s) && IsBoarded(s, id, after)
    ensures s.assignments[id].vehicleId in after.vehicles && CoupledAt(after, s.assignments[id].vehicleId)
  {
    var v := s.assignments[id].vehicleId;
    assert Holds(s, id, v) && CoupledAt(s, v);
    assert Holds(after, id, v) && Mirrors(after.vehicles[v], after.assignments[id]);
    forall other | Holds(after, other, v)
      ensures other == id
    {
      assert Holds(s, other, v);
    }
  }

  lemma BoardKeepsCoupling(s: Db, id: Id, after: Db)
    requires Coupled(s) && IsBoarded(s, id, after)
    ensures Coupled(after)
  {
    BoardedVehicle(s, id, after);
    assert forall other, w :: Holds(after, other, w) <==> Holds(s, other, w);
    forall w | w in after.vehicles && w != s.assignments[id].vehicleId
      ensures CoupledAt(after, w)
    {
      assert CoupledAt(s, w);
      UntouchedVehicle(s, after, w);
    }
  }

  lemma AcceptKeepsCoupling(s: Db, id: Id, r: Result)
    requires Coupled(s) && AcceptOutcome(s, id, r)
    ensures Coupled(r.db)
  {
    if r.outcome == Done {
      BoardKeepsCoupling(s, id, r.db);
    }
  }

  lemma InsertOnFreeVehicle(s: Db, id: Id, a: Assignment, after: Db)
    requires Coupled(s) && id !in s.assignments && a.status == Pending
    requires a.vehicleId in s.vehicles && s.vehicles[a.vehicleId].status == Available
    requires after.assignments == s.assignments[id := a]
    requires after.vehicles == HoldVehicle(s, a.vehicleId, a.tripId, a.driverId).vehicles
    ensures Coupled(after)
  {
    var v := a.vehicleId;
    assert CoupledAt(s, v);
    forall other, w
      ensures Holds(after, other, w) <==> Holds(s, other, w) || (other == id && w == v)
    {
    }
    assert Holds(after, id, v) && Mirrors(after.vehicles[v], after.assignments[id]);
    assert CoupledAt(after, v);
    forall w | w in after.vehicles && w != v
      ensures CoupledAt(after, w)
    {
      assert CoupledAt(s, w);
      UntouchedVehicle(s, after, w);
    }
  }

  lemma InsertOnTakenVehicle(s: Db, id: Id, a: Assignment, after: Db)
    requires Coupled(s) && id !in s.assignments && a.status == Pending
    requires a.vehicleId in s.vehicles && s.vehicles[a.vehicleId].status != Available
    requires after.assignments == s.assignments[id := a] && after.vehicles == s.vehicles
    ensures !Coupled(after)
  {
    var v := a.vehicleId;
    assert CoupledAt(s, v);
    assert Holds(after, id, v);
    if Coupled(after) {
      assert CoupledAt(after, v);
      var other :| Holds(s, other, v);
      assert Holds(after, other, v);
      assert false;
    }
  }

  /** A create that commits keeps the coupling exactly when its vehicle is still available at that moment. */
  lemma CreateKeepsCouplingIff(seen: Seen, s: Db, req: CreateRequest)
    requires Coupled(s) && IsStale(seen, s) && CreateAssignment(seen, s, req).outcome == Done
    ensures req.vehicleId in s.vehicles
    ensures Coupled(CreateAssignment(seen, s, req).db) <==> s.vehicles[req.vehicleId].status == Available
  {
    CommitTables(s, req);
    var after := CreateCommit(s, req);
    assert CreateAssignment(seen, s, req).db == after;
    assert req.vehicleId in seen.vehicles;
    if s.vehicles[req.vehicleId].status == Available {
      InsertOnFreeVehicle(s, req.newId, NewAssignment(req), after);
    } else {
      InsertOnTakenVehicle(s, req.newId, NewAssignment(req), after);
    }
  }

  lemma SweepKeepsCoupling(s: Db, id: Id, freed: set<Id>, after: Db)
    requires Coupled(s)
    requires forall w :: w in freed <==> exists a :: PendingOf(s.assignments, id, a) && s.assignments[a].vehicleId == w
    requires after.assignments == CancelPending(s.assignments, id) && after.vehicles == ReleaseAll(s.vehicles, freed)
    ensures Coupled(after)
  {
    forall other, w
      ensures Holds(after, other, w) <==> Holds(s, other, w) && w !in freed
    {
      if Holds(s, other, w) && w in freed {
        var a :| PendingOf(s.assignments, id, a) && s.assignments[a].vehicleId == w;
        assert Holds(s, a, w);
      }
    }
    forall w | w in after.vehicles
      ensures CoupledAt(after, w)
    {
      assert CoupledAt(s, w);
    }
  }

  lemma CancelBookingKeepsCoupling(seen: Seen, s: Db, id: Id, customerId: Id)
    requires Coupled(s)
    ensures Coupled(CancelBooking(seen, s, id, customerId).db)
  {
    var r := CancelBooking(seen, s, id, customerId);
    if r.outcome == Done {
      var freed := set a | a in s.assignments && PendingOf(s.assignments, id, a) :: s.assignments[a].vehicleId;
      SweepKeepsCoupling(s, id, freed, r.db);
    }
  }

  // ==== cancelBooking cut at its find, its update and its release ====

  function FoundVehicles(found: map<Id, Assignment>, id: Id): set<Id> {
    set a | a in found && PendingOf(found, id, a) :: found[a].vehicleId
  }

  /** The transaction cancels the trips pending when its update runs; the release afterwards goes by those `found`
      pending before. */
  function CutCancel(found: map<Id, Assignment>, s: Db, id: Id): Db
    requires id in s.bookings
  {
    s.(bookings := s.bookings[id := s.bookings[id].(status := BookingCancelled)],
       assignments := CancelPending(s.assignments, id),
       vehicles := ReleaseAll(s.vehicles, FoundVehicles(found, id)))
  }

  /** No trip became pending between find and update, and no vehicle found is held by a trip the update passes over. */
  predicate NothingSlippedIn(found: map<Id, Assignment>, s: Db, id: Id) {
    && (forall a | a in s.assignments && PendingOf(s.assignments, id, a) ::
          s.assignments[a].vehicleId in FoundVehicles(found, id))
    && (forall a | a in s.assignments && !IsTerminal(s.assignments[a].status) ::
          s.assignments[a].vehicleId in FoundVehicles(found, id) ==> PendingOf(s.assignments, id, a))
  }

  lemma CutCancelHolds(found: map<Id, Assignment>, s: Db, id: Id, a: Id, v: Id)
    requires id in s.bookings
    ensures Holds(CutCancel(found, s, id), a, v) <==> Holds(s, a, v) && !PendingOf(s.assignments, id, a)
  {
  }

  lemma CutCancelKeeps(found: map<Id, Assignment>, s: Db, id: Id)
    requires Coupled(s) && id in s.bookings && NothingSlippedIn(found, s, id)
    ensures Coupled(CutCancel(found, s, id))
  {
    var after, freed := CutCancel(found, s, id), FoundVehicles(found, id);
    forall a, w
      ensures Holds(after, a, w) <==> Holds(s, a, w) && w !in freed
    {
      CutCancelHolds(found, s, id, a, w);
    }
    forall w | w in after.vehicles
      ensures CoupledAt(after, w)
    {
      assert CoupledAt(s, w);
      if w !in freed {
        UntouchedVehicle(s, after, w);
      }
    }
  }

  lemma CutCancelBreaks(found: map<Id, Assignment>, s: Db, id: Id)
    requires Coupled(s) && id in s.bookings && !NothingSlippedIn(found, s, id)
    ensures !Coupled(CutCancel(found, s, id))
  {
    var after, freed := CutCancel(found, s, id), FoundVehicles(found, id);
    var a :| a in s.assignments && !IsTerminal(s.assignments[a].status)
             && (PendingOf(s.assignments, id, a) <==> s.assignments[a].vehicleId !in freed);
    var v := s.assignments[a].vehicleId;
    assert Holds(s, a, v) && CoupledAt(s, v);
    CutCancelHolds(found, s, id, a, v);
    if PendingOf(s.assignments, id, a) {
      forall b
        ensures !Holds(after, b, v)
      {
        CutCancelHolds(found, s, id, b, v);
      }
    }
    assert !CoupledAt(after, v);
  }

  /** The cut cancel keeps the vehicle table in step exactly when nothing slipped in. */
  lemma CutCancelKeepsCouplingIff(found: map<Id, Assignment>, s: Db, id: Id)
    requires Coupled(s) && id in s.bookings
    ensures Coupled(CutCancel(found, s, id)) <==> NothingSlippedIn(found, s, id)
  {
    if NothingSlippedIn(found, s, id) {
      CutCancelKeeps(found, s, id);
    } else {
      CutCancelBreaks(found, s, id);
    }
  }

  /** A trip accepted between find and update keeps its driver on the way and loses its vehicle. */
  lemma AcceptedInBetweenLosesVehicle(found: map<Id, Assignment>, s: Db, id: Id, a: Id)
    requires Coupled(s) && id in s.bookings && StaleView(found, s.assignments)
    requires PendingOf(found, id, a) && s.assignments[a].status == DriverAccepted
    ensures var after := CutCancel(found, s, id);
            && after.assignments[a] == s.assignments[a]
            && after.vehicles[s.assignments[a].vehicleId].status == Available && !Coupled(after)
  {
    assert RowStep(found[a], s.assignments[a]);
    assert found[a].vehicleId in FoundVehicles(found, id);
    CutCancelKeepsCouplingIff(found, s, id);
  }

  /** With nothing in between, the cut cancel is the cancel of the engine. */
  lemma UncutCancel(seen: Seen, s: Db, id: Id, customerId: Id)
    requires CancelBooking(seen, s, id, customerId).outcome == Done
    ensures CutCancel(s.assignments, s, id) == CancelBooking(seen, s, id, customerId).db
  {
  }

  /** The compensation releases the vehicle whether or not its decline matched a row. */
  lemma ScheduleFailureKeepsCouplingIff(seen: Seen, s: Db, id: Id)
    requires Coupled(s) && IsStale(seen, s) && id in seen.assignments
    ensures Coupled(ScheduleFailure(seen, s, id).db)
            <==> s.assignments[id].status == Pending
                 || s.vehicles[s.assignments[id].vehicleId].status !in {OnHold, OnTrip}
  {
    var after := ScheduleFailure(seen, s, id).db;
    var v := s.assignments[id].vehicleId;
    assert RowStep(seen.assignments[id], s.assignments[id]);
    assert CoupledAt(s, v);
    if s.assignments[id].status == Pending {
      EndKeepsCoupling(s, id, DriverDeclined, after);
    } else {
      assert after.assignments == s.assignments;
      assert forall other, w :: Holds(after, other, w) <==> Holds(s, other, w);
      if s.vehicles[v].status in {OnHold, OnTrip} {
        var other :| Holds(s, other, v);
        assert Holds(after, other, v);
        assert !CoupledAt(after, v);
      } else {
        forall w | w in after.vehicles
          ensures CoupledAt(after, w)
        {
          assert CoupledAt(s, w);
        }
      }
    }
  }

  // ==== every step ====

  /** `op` is about to write its target status, legal by the row it read, without looking after the vehicle. */
  predicate WritesStatusOnly(seen: Seen, s: Db, op: Op) {
    && (op.OpSingleWriter? || (op.OpUpdateStatus? && !IsDelivery(op.target)))
    && op.id in seen.assignments && op.target in AssignmentNext(seen.assignments[op.id].status)
    && (op.OpUpdateStatus? ==> seen.assignments[op.id].driverId == op.driverId)
    && op.id in s.assignments && !IsTerminal(s.assignments[op.id].status)
  }

  /** What a caller has to know at commit time. */
  predicate KeepsVehicles(seen: Seen, s: Db, op: Op) {
    match op
    case OpCreate(req) =>
      CreateAssignment(seen, s, req).outcome == Done && req.vehicleId in s.vehicles ==>
        s.vehicles[req.vehicleId].status == Available
    case OpScheduleFailure(id) =>
      id in seen.assignments && id in s.assignments && s.assignments[id].vehicleId in s.vehicles ==>
        s.assignments[id].status == Pending || s.vehicles[s.assignments[id].vehicleId].status !in {OnHold, OnTrip}
    case _ =>
      WritesStatusOnly(seen, s, op) ==>
        !IsTerminal(op.target) && (op.target == DriverAccepted ==> s.assignments[op.id].status != Pending)
  }

  /** A status op either moves one active row and no vehicle, or ends it together with its vehicle, or does nothing. */
  predicate StatusOpTables(seen: Seen, s: Db, op: Op, after: Db)
    requires op.OpSingleWriter? || op.OpUpdateStatus?
  {
    if WritesStatusOnly(seen, s, op) then
      && after.assignments == WithStatus(s, op.id, op.target).assignments && after.vehicles == s.vehicles
    else
      || (after.assignments == s.assignments && after.vehicles == s.vehicles)
      || (&& op.id in s.assignments && !IsTerminal(s.assignments[op.id].status) && IsTerminal(op.target)
          && s.assignments[op.id].vehicleId in s.vehicles
          && after.assignments == WithStatus(s, op.id, op.target).assignments
          && after.vehicles == ReleaseVehicle(s, s.assignments[op.id].vehicleId).vehicles)
  }

  lemma SingleWriterTables(d: Decrement, seen: Seen, s: Db, op: Op)
    requires IsStale(seen, s) && op.OpSingleWriter?
    ensures StatusOpTables(seen, s, op, Exec(d, seen, s, op).db)
  {
  }

  lemma ProgressTables(seen: Seen, s: Db, op: Op)
    requires ReadsAtomically(seen, s, op) && op.OpUpdateStatus? && !IsDelivery(op.target)
    ensures StatusOpTables(seen, s, op, UpdateStatus(seen, s, op.id, op.driverId, op.target, op.orchestrator).db)
  {
  }

  lemma UpdateStatusTables(d: Decrement, seen: Seen, s: Db, op: Op)
    requires IsStale(seen, s) && ReadsAtomically(seen, s, op) && op.OpUpdateStatus?
    requires forall id | id in s.assignments :: s.assignments[id].vehicleId in s.vehicles
    ensures StatusOpTables(seen, s, op, Exec(d, seen, s, op).db)
  {
    if IsDelivery(op.target) {
      if op.id in seen.assignments {
        assert RowStep(seen.assignments[op.id], s.assignments[op.id]);
      }
      if op.id in seen.recheck {
        assert RowStep(seen.recheck[op.id], s.assignments[op.id]);
      }
      UpdateStatusShape(seen, s, op.id, op.driverId, op.target, op.orchestrator);
    } else {
      ProgressTables(seen, s, op);
    }
  }

  lemma StatusWriteKeepsCouplingIff(d: Decrement, seen: Seen, s: Db, op: Op)
    requires Coupled(s) && IsStale(seen, s) && ReadsAtomically(seen, s, op)
    requires op.OpSingleWriter? || op.OpUpdateStatus?
    ensures Coupled(Exec(d, seen, s, op).db) <==> KeepsVehicles(seen, s, op)
  {
    var after := Exec(d, seen, s, op).db;
    if op.OpSingleWriter? {
      SingleWriterTables(d, seen, s, op);
    } else {
      UpdateStatusTables(d, seen, s, op);
    }
    if WritesStatusOnly(seen, s, op) {
      MoveKeepsCouplingIff(s, op.id, op.target, after);
      StatusWriteStays(seen, s, op.id, op.target);
    } else if after.assignments == s.assignments && after.vehicles == s.vehicles {
      SameTablesKeepCoupling(s, after);
    } else {
      EndKeepsCoupling(s, op.id, op.target, after);
    }
  }

  /** A target legal for the status read says which side of the accept the row found now is on. */
  lemma StatusWriteStays(seen: Seen, s: Db, id: Id, target: AssignmentStatus)
    requires IsStale(seen, s) && id in seen.assignments && target in AssignmentNext(seen.assignments[id].status)
    ensures target != Pending
    ensures !IsTerminal(target) && target != DriverAccepted ==> s.assignments[id].status != Pending
  {
  }

  lemma SameTablesKeepCoupling(s: Db, after: Db)
    requires Coupled(s) && after.assignments == s.assignments && after.vehicles == s.vehicles
    ensures Coupled(after)
  {
    assert forall other, w :: Holds(after, other, w) <==> Holds(s, other, w);
    forall w | w in after.vehicles
      ensures CoupledAt(after, w)
    {
      assert CoupledAt(s, w);
    }
  }

  lemma LeaveKeepsCoupling(d: Decrement, s: Db, op: Op, r: Result)
    requires Coupled(s) && LeavesTrip(op) && LeaveOutcome(d, s, op, r)
    ensures Coupled(r.db)
  {
    if r.outcome == Done {
      EndKeepsCoupling(s, op.id, LeaveTo(op), r.db);
    }
  }

  lemma CompleteKeepsCoupling(s: Db, id: Id, target: AssignmentStatus, r: Result)
    requires Coupled(s) && IsDelivery(target) && CompleteOutcome(s, id, target, r)
    ensures Coupled(r.db)
  {
    if r.outcome == Done {
      EndKeepsCoupling(s, id, target, r.db);
    }
  }

  lemma EndingsKeepCoupling(d: Decrement, seen: Seen, s: Db, op: Op)
    requires Coupled(s) && IsStale(seen, s) && (LeavesTrip(op) || op.OpComplete?)
    ensures Coupled(Exec(d, seen, s, op).db)
  {
    var r := Exec(d, seen, s, op);
    if LeavesTrip(op) {
      LeaveTables(d, seen, s, op);
      LeaveKeepsCoupling(d, s, op, r);
    } else if IsDelivery(op.target) {
      CompleteTables(seen.assignments, s, op.id, op.target);
      CompleteKeepsCoupling(s, op.id, op.target, r);
    }
  }

  lemma BookingOpsLeaveTables(d: Decrement, seen: Seen, s: Db, op: Op)
    requires !IsTripOp(op) && !op.OpCreate? && !op.OpCancelBooking?
    ensures var after := Exec(d, seen, s, op).db;
            after.assignments == s.assignments && after.vehicles == s.vehicles
  {
  }

  /** For every step of the engine, with reads as stale as they like: the vehicle table still mirrors the trips after it
      if and only if the condition above holds before it. */
  lemma StepKeepsCouplingIff(d: Decrement, seen: Seen, s: Db, op: Op)
    requires Coupled(s) && IsStale(seen, s) && ReadsAtomically(seen, s, op)
    ensures Coupled(Exec(d, seen, s, op).db) <==> KeepsVehicles(seen, s, op)
  {
    if op.OpCreate? {
      if CreateAssignment(seen, s, op.req).outcome == Done {
        CreateKeepsCouplingIff(seen, s, op.req);
      }
    } else if op.OpAccept? {
      AcceptTables(seen, s, op.id, op.driverId);
      AcceptKeepsCoupling(s, op.id, Exec(d, seen, s, op));
    } else if op.OpScheduleFailure? {
      if op.id in seen.assignments {
        ScheduleFailureKeepsCouplingIff(seen, s, op.id);
      }
    } else if op.OpCancelBooking? {
      CancelBookingKeepsCoupling(seen, s, op.bookingId, op.customerId);
    } else if op.OpSingleWriter? || op.OpUpdateStatus? {
      StatusWriteKeepsCouplingIff(d, seen, s, op);
    } else if LeavesTrip(op) || op.OpComplete? {
      EndingsKeepCoupling(d, seen, s, op);
    } else {
      BookingOpsLeaveTables(d, seen, s, op);
      SameTablesKeepCoupling(s, Exec(d, seen, s, op).db);
    }
  }

  // ==== every run ====

  /** The condition holds at step `i` of the run. */
  ghost predicate VehicleGuard(d: Decrement, states: seq<Db>, events: seq<Event>, i: nat)
    requires i < |events| && i + 1 < |states|
  {
    StepAt(d, states, events, i) && KeepsVehicles(SeenAt(states, events[i].at), states[i], events[i].op)
  }

  lemma CouplingStepAt(d: Decrement, states: seq<Db>, events: seq<Event>, i: nat)
    requires IsRun(d, states, events) && i < |events| && VehicleGuard(d, states, events, i) && Coupled(states[i])
    ensures Coupled(states[i + 1])
  {
    SeenIsStale(d, states, events, i);
    StepKeepsCouplingIff(d, SeenAt(states, events[i].at), states[i], events[i].op);
  }

  /** In every run whose steps respect the condition the vehicle table mirrors the trips in every state. */
  lemma {:induction false} CouplingInRuns(d: Decrement, states: seq<Db>, events: seq<Event>, k: nat)
    requires IsRun(d, states, events) && Coupled(states[0]) && k < |states|
    requires forall i :: 0 <= i < k ==> VehicleGuard(d, states, events, i)
    ensures Coupled(states[k])
  {
    if k > 0 {
      CouplingInRuns(d, states, events, k - 1);
      CouplingStepAt(d, states, events, k - 1);
    }
  }

  /** A service method taken as one step, its reads made at commit time: trip progress only for the two status writers,
      and the schedule compensation only while its trip is pending. */
  predicate IsDisciplined(s: Db, op: Op) {
    match op
    case OpSingleWriter(_, target) => target in {EnRoutePickup, AtPickup, InTransit, ArrivedAtDrop}
    case OpUpdateStatus(_, _, target, _) =>
      target in {EnRoutePickup, AtPickup, InTransit, ArrivedAtDrop, Completed, PartialDelivery}
    case OpScheduleFailure(id) => id in s.assignments && s.assignments[id].status == Pending
    case _ => true
  }

  lemma FreshReadsKeepVehicles(s: Db, op: Op)
    requires IsDisciplined(s, op)
    ensures KeepsVehicles(Fresh(s), s, op)
    ensures IsStale(Fresh(s), s) && ReadsAtomically(Fresh(s), s, op)
  {
  }

  lemma OneStepMethodsKeepCoupling(d: Decrement, s: Db, op: Op)
    requires Coupled(s) && IsDisciplined(s, op)
    ensures Coupled(Exec(d, Fresh(s), s, op).db)
  {
    FreshReadsKeepVehicles(s, op);
    StepKeepsCouplingIff(d, Fresh(s), s, op);
  }
}
