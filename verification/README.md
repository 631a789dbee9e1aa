# Truck dispatch engine: a Dafny model

A logistics backend matches customers' bookings with trucks. Four tables carry the state: assignments (trips),
vehicles, bookings and drivers. Many server processes work on them at once, each service call reading rows first and
then running one transaction guarded by status preconditions. This project models those service methods and the small
state machines around them, and proves what holds in every interleaving.

Dafny verifies the project with `dafny verify dfyconfig.toml`.

## How it is modelled

* `StateMachines`, `Rows`: the statuses, transition tables, rows, and the guarded writes the services are made of.
* `Dispatch`: seventeen service methods, the operations of the model, each as a function from what it read earlier
  (`seen`) and the tables its transaction finds (`s`) to the new tables and an outcome. They are the methods of
  `assignment.service.ts`, the completion orchestrator, the booking create, broadcast and lifecycle services, and the two
  booking completion checks; other writers of the same tables are listed under "Left out". `Store.Database` holds the
  same methods as code over mutable tables, each proved equal to its function.
* `Runs`: a run is any sequence of calls; each transaction is atomic, and each table a method read beforehand may come
  from any earlier state of the run, a different one per table. That includes the booking completion check, which guards
  on its reads and then writes without a condition. The one read that is not stale is stated as a predicate
  (`ReadsAtomically`): the unguarded status write of `updateStatus` is taken together with the read of its row, and
  `UnguardedWriteKeepsSingleIff` says what happens otherwise.
* `Outcomes`: for each service method exactly when it succeeds, exactly which rows it then writes, and why it refuses
  otherwise, told from the rows read and found with every status spelled out, independently of the functions.
* `Safety`, `ClosedBookings`, `VehicleCoupling`, `FillConservation`, `TripMatching`: invariants of every run. Where the
  code does not keep a property on every step, the theorem gives the condition under which one step keeps it, as an
  if-and-only-if over every operation of the model, and then carries it through every run whose steps meet the condition.
* `BookingLife`: status against fill count, the timeout handler, the database sweep.
* `OtpChallenge`, `Radius`, `NotifiedList`, `Completion`, `Redispatch`, `Backpressure`, `RestartLimiter`: one component
  each, as imperative classes tied to step functions, with theorems over all sequences of steps. `Completion` and
  `Redispatch` run on the same tables as the engine, among its calls.
* `RadiusTargets`: who is sent a booking, and in which order, told from positions in the lists of the matcher and the
  database.
* `RadiusRaces`: the firings of module `Radius` cut at their awaits, so that several servers interleave. A firing that
  nothing interrupts is proved equal to the atomic one. `RadiusCounts` counts steps and fallbacks over those
  interleavings.

## What the proofs found

Each of these is a lemma of the project, not an opinion.

* `createAssignment` raises the fill count with a raw UPDATE and writes no status. A booking filled this way keeps an
  open status with a full count; the timeout handler falls through both its branches for it, so no timeout closes it,
  and the database sweep can come to a standstill exactly when such bookings make up a whole batch
  (`DirectlyFilledNeverTimesOut`, `StuckStays`, `FullBookingsStarveSweepIff`).
* The create transaction looks at neither the booking status nor the fill result nor the vehicle result again. A stale
  create can attach a pending trip to a cancelled booking, break the vehicle coupling, or overfill a booking
  (`PendingAfterCancelIff`, `StaleCreateRevivesCancelledBooking`, `CreateKeepsCouplingIff`, `CreateOnFullOverfills`).
* Two versions of `decrementTrucksFilled` exist. The one that `assignment.service.ts` loads throws on a closed booking,
  which rolls decline, timeout and cancel back: from the moment a booking is closed none of them ever wins on its trips,
  and the drivers stay busy (`LeavesLoseOnceClosed`, `TrappedUntilProgress`). The version in
  `booking-lifecycle.service.ts` skips instead. Both are modelled.
* `incrementOtpAttempts` allows attempts up to and including the maximum, although the verify path's own fallback wants
  something remaining. The two verification paths differ exactly on the wrong guess that spends the last attempt
  (`PathsAgreeIff`); which guess is let in never depends on it (`SameGuessesSucceed`). Writes of the attempt counters to
  the other store are best effort: each call that loses one is worth one more guess and one more success
  (`ChallengeIsBounded`), and for every number of them that bound is reached (`LostWritesAreSpent`, `LostDeletionsAreSpent`).
* `completeTrip` runs its side effects even when its compare-and-set lost, and its lock is re-entrant under a holder id
  made of process id and millisecond. The effects run at most once if and only if holder ids are distinct
  (`EffectsOnceIffHoldersDistinct`), and they run for a lost transaction if and only if another service ended the trip
  between the call's read and its transaction (`EffectsOfLostTransactionIff`, `EffectsRunAfterLostTransaction`).
* In every run the busy check of `acceptAssignment` decides nothing, since a driver never has two trips under way; and
  decline, timeout and cancel depend on the row found alone, whatever status they had read (`AcceptInRuns`,
  `LeaveInRuns`). Right after a create each of them takes it back exactly (`LeaveUndoesCreate`).
* Radius timers are polled by every server under one constant lock holder, and the answer of `cancelTimer` is ignored.
  Nobody is told twice in every interleaving if and only if firings claim their timer or never overlap, and nobody clears
  the keys under a firing; none of this holds of the code, and distinct lock holders would not help
  (`NobodyToldTwiceIff`, `SharedHolderTellsTwice`, `FallbackRunsTwice`, `ClearedSetForgets`). The fallback runs at most
  once if and only if firings claim or never overlap (`FallbackAtMostOnceIff`). Steps 1 to n - 1 and the fallback are
  carried out exactly once each if and only if firings never overlap (`StepsAtMostOnceIff`, `ExactlyOnceIff`); overlapping
  ones can also stall for good with a timer set that no poller will find (`LateDequeueStalls`, `StalledForever`).
* `cancelBooking` finds the pending trips, cancels those pending when its update runs, and releases the vehicles of those
  it found. A trip accepted in between keeps its driver and loses its vehicle (`CutCancelKeepsCouplingIff`,
  `AcceptedInBetweenLosesVehicle`).
* Each redispatch attempt that had read an older count can create one automatic trip too many, at every number of them
  (`CreationsPerLifetime`, `OlderCountsAreSpent`).
* The booking completion check forgets `expired` in its guard, guards on an earlier read, and writes without a condition:
  the one way a closed status is rewritten. A cancelled booking can become completed (`ClosedStatusRewrittenIff`,
  `CancelledBecomesCompleted`). The version that `completeTrip` calls does not even ask for a delivered trip.
* Booking status writes leave the documented transition table: an unfill of a full booking, a trip starting on a partial
  fill, and the expiry of a booking in progress (`BookingChangeFollowsTableIff` gives the exact list).
* The single writer validates against the status it read and then overwrites any non-terminal status: a trip can go
  backwards (`SingleWriterCanGoBack`). The schedule-failure compensation frees the vehicle even of an accepted trip
  (`ScheduleFailureKeepsCouplingIff`).
* The cluster restart limiter is stricter than the sliding window it stands for (`StricterThanSlidingWindow`).

## Model

| member | source | states |
|---|---|---|
| StateMachines.ActiveIsNotTerminal | src/modules/assignment/assignment.service.ts:241 | The list of active statuses spelled out in the driver check and the terminal list split the enumeration |
| StateMachines.DeliveryVisitsEveryStage | src/core/state-machines.ts:49-60 | A legal path from pending to a delivery passes all six stages once each, in order: no shortcut |
| StateMachines.TripPathsAreShort | src/core/state-machines.ts:49-60 | No legal path has more than seven statuses, and exactly the terminal statuses have no way out |
| StateMachines.TripEdges | src/core/state-machines.ts:49-60 | The edges of the assignment table are the stages in order, the two deliveries, the decline, and a cancel from every stage; no others |
| StateMachines.BookingEdges | src/core/state-machines.ts:9-19 | The edges of the booking table are the stages in order, two shortcuts between active and filled, a cancel while open and an expiry while not full; no others |
| Store.Database.CreateAssignment | src/modules/assignment/assignment.service.ts:157-287 | Checks on earlier reads, then one transaction: idle driver, new row, vehicle held, count raised; exactly when it wins and what it writes is `CreateWinsIff` and `CreateWrites` |
| Store.Database.AcceptAssignment | src/modules/assignment/assignment.service.ts:614-715 | Accept moves a row still pending and its vehicle in one transaction; exactly when and what is `AcceptWinsIff` and `AcceptWrites` |
| Store.Database.DeclineAssignment | src/modules/assignment/assignment.service.ts:1580-1668 | Decline by its driver: pending row ends, vehicle freed, booking counted down, or nothing; exactly when and what is `LeaveWinsIff` and `LeaveWrites` |
| Store.Database.HandleAssignmentTimeout | src/modules/assignment/assignment.service.ts:1791-1871 | The timeout of a pending trip, silent when the row has moved on |
| Store.Database.CancelAssignment | src/modules/assignment/assignment.service.ts:1422-1493 | Cancel by transporter or driver from any active status |
| Store.Database.ExitTx | src/modules/assignment/assignment.service.ts:1619-1665 | The transaction the three share, rolled back as a whole when the decrement throws |
| Store.Database.CompleteTrip | src/modules/assignment/completion-orchestrator.ts:97-159 | Read, terminal check and compare-and-set of a completion; the count is left alone |
| Store.Database.UpdateAssignmentStatus | src/modules/assignment/assignment.service.ts:947-1003 | The single writer: legal by the status read, written over any status that has not ended |
| Store.Database.UpdateStatus | src/modules/assignment/assignment.service.ts:1008-1366 | The status update of the driver: parent to in_progress, completion by either path, unguarded progress write |
| Store.Database.ScheduleFailure | src/modules/assignment/assignment.service.ts:339-361 | The compensation: decline if still pending, then free the vehicle in any case |
| Store.Database.CreateBooking | src/modules/booking/booking-create.service.ts:655-714 | A booking is added if the transaction sees no open one of its customer; exactly when, and field by field what, is `CreateBookingWinsIff` |
| Store.Database.HandleBookingTimeout | src/modules/booking/booking-lifecycle.service.ts:127-225 | Expire by compare-and-set in the two branches that write, by the row read first |
| Store.Database.CancelBooking | src/modules/booking/booking-lifecycle.service.ts:321-511 | Cancel from a cancellable status, sweep the pending trips, free their vehicles, idempotent on a cancelled one |
| Store.Database.ReleaseVehiclesOf | src/modules/booking/booking-lifecycle.service.ts:504-510 | The release loop frees exactly the vehicles of the trips it is given, in any order |
| Store.Database.IncrementTrucksFilled | src/modules/booking/booking-lifecycle.service.ts:589-640 | Count up below capacity and set the status by the new count, unless closed |
| Store.Database.CountDown | src/modules/booking/booking.service.ts:2329-2371 | Count down to no less than zero and set the status by the new count; skip or throw on a closed booking |
| Store.Database.ExpireStaleBookings | src/modules/booking/booking-lifecycle.service.ts:812-824 | The loop over the stale ids closes every booking among them, changes only those that were open, and only their status, to expired |
| Store.Database.CheckBookingCompletion | src/modules/tracking/tracking-fleet.service.ts:318-341 | Trips and guard are read before; the write to completed is unconditional; both versions of the trip test |
| Runs.TripStepOf | src/modules/assignment/assignment.service.ts:239-287 | Any operation of the model with any stale reads: ended trips stay as they are, nothing returns to pending, a trip is added only for an idle driver under a new trip id |
| Runs.BookingStepOf | src/modules/booking/booking-lifecycle.service.ts:607-635 | Any operation of the model: counts stay within capacity, closed bookings stay closed and their status changes only to completed, a booking is added only for a customer without an open one |
| Runs.TripsPersist | src/core/state-machines.ts:75-77 | Across any stretch of any run a trip row survives with its identity, and stops changing once it has ended |
| Runs.FleetStepOf | src/modules/assignment/assignment.service.ts:262-273 | No operation of the model adds, deletes or re-registers a vehicle or moves a driver to another transporter |
| Runs.SeenIsStale | src/modules/assignment/assignment.service.ts:161-211 | What a method read at any earlier moments still names existing rows of the same trips, vehicles and bookings |
| Runs.LeaveTables | src/modules/assignment/assignment.service.ts:1619-1665 | A winning decline, timeout or cancel acts on the row's own vehicle and booking however stale its read; a losing one changes nothing |
| Runs.CompleteTables | src/modules/assignment/completion-orchestrator.ts:129-159 | The same for a completion |
| Outcomes.CreateWinsIff | src/modules/assignment/assignment.service.ts:161-251 | A create wins if and only if the booking was read active or partially filled, the vehicle read available, the transporter's and of the type (and subtype, where both name one), the driver is the transporter's with every trip ended, and both ids are unused |
| Outcomes.CreateWrites | src/modules/assignment/assignment.service.ts:252-287 | A win adds that pending row, holds the vehicle if still available, counts one truck more if there is room without touching the status, and changes nothing else; any other outcome is an error and changes nothing |
| Outcomes.AcceptWinsIff | src/modules/assignment/assignment.service.ts:618-696 | An accept wins if and only if the row was read pending and the driver's own, no other trip of the driver was read in one of the five listed statuses, and the row is still pending |
| Outcomes.AcceptWrites | src/modules/assignment/assignment.service.ts:682-711 | A win writes that row and its own vehicle, the latter if held or available, and nothing else; any other outcome is an error and changes nothing |
| Outcomes.AcceptInRuns | src/modules/assignment/assignment.service.ts:658-668 | In every run the driver check decides nothing: an accept wins exactly if the caller's row is still pending |
| Outcomes.LeaveWinsIff | src/modules/assignment/assignment.service.ts:1580-1665 | Decline, timeout and cancel win, however stale their read, if and only if the row read lets this caller make this call, the row found is pending (for cancel: has not ended), and its booking exists and is not closed under the throwing decrement |
| Outcomes.LeaveWrites | src/modules/assignment/assignment.service.ts:1812-1871 | A win ends that row, frees its own vehicle and takes one truck off its own booking, status by the new count, unless that is closed; nothing else changes, and without a win nothing at all |
| Outcomes.LeaveInRuns | src/modules/assignment/assignment.service.ts:1451-1493 | In every run the status read and the booking lookup decide nothing: the caller, the status found and the throwing decrement alone do |
| Outcomes.LeaveUndoesCreate | src/modules/assignment/assignment.service.ts:1619-1665 | Right after a create each of the three wins and restores vehicles and count; what remains is the ended row, and the booking status that belongs to the count |
| Outcomes.CompleteWinsIff | src/modules/assignment/completion-orchestrator.ts:97-146 | A completion wins if and only if the row was read and is found in a status that has not ended |
| Outcomes.CompleteWrites | src/modules/assignment/completion-orchestrator.ts:129-159 | A win writes the trip and frees its own vehicle, the count left alone; otherwise nothing changes |
| Outcomes.SingleWriterWinsIff | src/modules/assignment/assignment.service.ts:947-1003 | The single writer wins if and only if the target is legal for, and other than, the status read and the row found has not ended; it writes that status alone |
| Outcomes.UpdateStatusWinsIff | src/modules/assignment/assignment.service.ts:1008-1366 | The condition of each path of the status update: delivery through the orchestrator, delivery without it (status found equals status read), and progress (whatever is found) |
| Outcomes.UpdateStatusWrites | src/modules/assignment/assignment.service.ts:1008-1366 | A win writes the row; a delivery frees its own vehicle, a trip that sets off takes its booking to in_progress from partially or fully filled; nothing else changes |
| Outcomes.ScheduleFailureWrites | src/modules/assignment/assignment.service.ts:339-361 | The compensation declines the trip exactly if still pending and frees its vehicle in any case |
| Outcomes.CreateRefusalIsTrue | src/modules/assignment/assignment.service.ts:161-251 | Every reason a create is refused with is true of the rows read and found |
| Outcomes.AcceptRefusalIsTrue | src/modules/assignment/assignment.service.ts:618-694 | An accept has five refusals, each for its own reason only |
| Outcomes.LeaveRefusedIff | src/modules/assignment/assignment.service.ts:1422-1462 | Decline, timeout and cancel: silent exactly when the row has moved on after the checks passed, and each error exactly for its own reason |
| Outcomes.UpdateStatusRefusedIff | src/modules/assignment/assignment.service.ts:1008-1366 | Forbidden, invalid transition and conflict of a status update, each exactly when |
| Outcomes.CreateBookingWinsIff | src/modules/booking/booking-create.service.ts:661-714 | A booking is created if and only if no booking of the customer is outside completed, cancelled and expired, no order is open and the id is unused; the row added is the request's field by field, with count 0 and status created, and otherwise nothing changes |
| Outcomes.CancelBookingWinsIff | src/modules/booking/booking-lifecycle.service.ts:326-372 | A cancel wins if and only if the booking was read as the caller's and not cancelled and is found created, broadcasting, active, partially or fully filled; on a cancelled one it is silent, and without a win nothing changes |
| Outcomes.CompletionCheckWritesIff | src/modules/tracking/tracking-fleet.service.ts:318-341 | The completion check writes completed, on an open or closed booking, if and only if it read a trip (delivered, where wanted), every trip as completed, cancelled or partly delivered, and the booking as neither completed nor cancelled |
| Outcomes.BookingTimeoutWritesIff | src/modules/booking/booking-lifecycle.service.ts:135-225 | The timeout handler expires exactly a booking read and found in one of its four statuses and read with a count of zero or below the trucks needed |
| Outcomes.StatusWriteChangesIff | src/modules/booking/booking-create.service.ts:766-780 | Each conditional status write of the broadcast pipeline changes the row from exactly its listed statuses |
| Outcomes.IncrementCountsIff | src/modules/booking/booking-lifecycle.service.ts:589-640 | A standalone fill counts exactly if it read the booking neither full nor fully_filled and finds room; status by the new count unless closed |
| Safety.EveryRunIsSafe | src/modules/assignment/assignment.service.ts:239-251 | In every state of every run: one active trip per driver, distinct trip ids, one open booking per customer, counts between zero and the trucks needed |
| Safety.ClosedBookingsStayClosed | src/modules/booking/booking-lifecycle.service.ts:629-635 | No booking ever leaves completed, cancelled and expired in any run; which of them it is changes only to completed |
| Safety.ClosedStatusRewrittenIff | src/modules/tracking/tracking-fleet.service.ts:336-341 | A step rewrites a closed status if and only if it is a completion check that read its trips as done and the booking as neither completed nor cancelled, on a booking now closed and not completed |
| Safety.BookingChangeFollowsTableIff | src/core/state-machines.ts:9-19 | A status change of an open booking by any method is an edge of the booking table if and only if the method finds it in one of the statuses listed for it; unfilling a full booking is never one |
| Safety.UnguardedWriteLegalIff | src/modules/assignment/assignment.service.ts:1362-1365 | Without its read in the same step, the unguarded write keeps the trip rules exactly when the row it overwrites has not ended or already has the target |
| Safety.UnguardedWriteKeepsSingleIff | src/modules/assignment/assignment.service.ts:1362-1365 | Such a write leaves every driver with at most one active trip if and only if it ends the trip or the driver has no other active one by now |
| Safety.StaleWriteGivesDriverTwoTrips | src/modules/assignment/assignment.service.ts:1362-1365 | Cancel a trip, create another for its driver, then let a status update read before the cancel write: the driver has two active trips |
| Safety.StatusChangeFollowsTableIff | src/core/state-machines.ts:49-60 | A status change by any method is an edge of the table if and only if it is neither a completion before arrival nor a single-writer write that is legal only for the status read |
| Safety.SingleWriterCanGoBack | src/modules/assignment/assignment.service.ts:983-989 | A concrete stale single writer moves a trip from arrived_at_drop back to in_transit |
| Safety.ExitWinsOrChangesNothing | src/modules/assignment/assignment.service.ts:1451-1462 | Decline, timeout, cancel and completion: a win takes the row from active to ended, a loss leaves every table as it was |
| Safety.ExitWinEffects | src/modules/assignment/assignment.service.ts:1812-1871 | A win ends that row, frees that vehicle, counts that booking down by one, and changes no other row of any table |
| Safety.AtMostOneExitWins | src/modules/assignment/assignment.service.ts:1451-1493 | In any run, of all calls that try to end one trip at most one wins; the row never changes again and every later call changes nothing |
| Safety.CancelBookingSweepsPending | src/modules/booking/booking-lifecycle.service.ts:358-400 | A winning cancel leaves no trip of the booking pending, cancels exactly those that were, frees their vehicles and touches no other trip |
| Safety.CancelledNeverAccepted | src/modules/assignment/assignment.service.ts:682-696 | A trip pending when the cancel won is cancelled for the rest of the run, and no accept of it wins at any point of the run |
| ClosedBookings.LaterCancelsChangeNothing | src/modules/booking/booking-lifecycle.service.ts:332-336 | After a won cancel no other cancel of the booking, at any later point of the run and by whatever reads, wins or changes anything |
| ClosedBookings.CreateOnClosedWinsIff | src/modules/assignment/assignment.service.ts:162-169 | A create on a closed booking wins if and only if it read the booking before it was closed, found it active or partially filled, and passes its other checks |
| ClosedBookings.PendingAfterCancelIff | src/modules/booking/booking-lifecycle.service.ts:376-400 | After a won cancel some trip of the booking is pending at some point of the run if and only if some create won on a booking read from before the cancel |
| ClosedBookings.FreshReadsLeaveNothingPending | src/modules/booking/booking-lifecycle.service.ts:376-400 | If every later create reads the booking after the cancel, nothing of it is pending for the rest of the run |
| ClosedBookings.StaleCreateRevivesCancelledBooking | src/modules/assignment/assignment.service.ts:239-287 | From any tables, every create that would win also wins if a cancel of its booking commits first, and leaves a pending trip on it |
| ClosedBookings.CancelledBecomesCompleted | src/modules/tracking/tracking-fleet.service.ts:336-341 | From any tables, every completion check that would write also writes if a cancel commits first: cancelled becomes completed |
| ClosedBookings.FilledByCreateIsCancellable | src/modules/assignment/assignment.service.ts:278-286 | A one-truck booking filled by a create is in that position as soon as its trip is delivered |
| ClosedBookings.LeavesLoseOnceClosed | src/modules/booking/booking.service.ts:2353-2355 | With the throwing decrement, once a booking is closed no decline, timeout or cancel of its trips wins in the rest of the run |
| ClosedBookings.TrappedUntilProgress | src/modules/booking/booking.service.ts:2353-2355 | Such a trip stays active, and its driver busy, until a completion, a status write or the schedule compensation moves it |
| VehicleCoupling.CoupledMeans | src/modules/assignment/assignment.service.ts:262-273 | on_hold iff exactly one pending trip names the vehicle, in_transit iff exactly one accepted-to-arrived trip does, and trip id and driver id are that trip's |
| VehicleCoupling.CreateKeepsCouplingIff | src/modules/assignment/assignment.service.ts:262-273 | A committing create keeps the coupling if and only if the vehicle is still available at commit |
| VehicleCoupling.ScheduleFailureKeepsCouplingIff | src/modules/assignment/assignment.service.ts:345-361 | The compensation keeps it if and only if the trip is still pending or its vehicle holds no trip |
| VehicleCoupling.MoveKeepsCouplingIff | src/modules/assignment/assignment.service.ts:983-989 | A status write that leaves the vehicle alone keeps it if and only if it stays within the same phase |
| VehicleCoupling.EndKeepsCoupling | src/modules/assignment/assignment.service.ts:1464-1474 | Ending a trip together with its vehicle keeps the coupling |
| VehicleCoupling.CutCancelKeepsCouplingIff | src/modules/booking/booking-lifecycle.service.ts:383-400 | With find, update and release of a booking cancel apart, the coupling holds after them if and only if no trip became pending in between and no vehicle found is held by a trip the update passes over |
| VehicleCoupling.AcceptedInBetweenLosesVehicle | src/modules/booking/booking-lifecycle.service.ts:500-510 | A trip accepted between find and update stays accepted and its vehicle is made available |
| VehicleCoupling.UncutCancel | src/modules/booking/booking-lifecycle.service.ts:358-400 | With nothing in between the cut cancel is the one-step cancel of the model |
| VehicleCoupling.BoardKeepsCoupling | src/modules/assignment/assignment.service.ts:697-711 | Accepting a trip together with its vehicle keeps the coupling |
| VehicleCoupling.StepKeepsCouplingIff | src/modules/assignment/assignment.service.ts:1825-1835 | For every operation, any stale reads: coupled afterwards if and only if the commit-time condition held |
| VehicleCoupling.CouplingInRuns | src/modules/assignment/assignment.service.ts:1219-1229 | Every state of every run whose steps meet the condition is coupled |
| VehicleCoupling.OneStepMethodsKeepCoupling | src/modules/assignment/assignment.service.ts:1634-1644 | Each service method as one step, status updates limited to trip progress, keeps the coupling |
| FillConservation.StepKeepsCountIff | src/modules/assignment/assignment.service.ts:278-286 | For every operation and booking: the count equals the trips neither declined nor cancelled afterwards if and only if the commit-time condition held |
| FillConservation.CreateOnFullOverfills | src/modules/assignment/assignment.service.ts:278-286 | A create that commits on a full booking leaves one live trip more than trucks needed |
| FillConservation.CountInRuns | src/modules/booking/booking-lifecycle.service.ts:723-730 | The count equals the live trips in every state of every run whose steps meet the condition, while the booking is open |
| FillConservation.StepKeepsReferences | src/modules/assignment/assignment.service.ts:161-189 | Every trip keeps naming an existing booking and an existing vehicle |
| FillConservation.EmptyTablesSatisfyEverything | src/modules/assignment/assignment.service.ts:239-287 | The empty tables satisfy every invariant, so the run theorems apply from the start |
| TripMatching.NewTripMatches | src/modules/assignment/assignment.service.ts:162-211 | The checks of a create on earlier reads hold of the rows its transaction finds |
| TripMatching.TripsMatchInRuns | src/modules/assignment/assignment.service.ts:162-211 | In every state of every run each trip joins a driver and a vehicle of its own transporter, the vehicle being of the type and subtype the booking asked for |
| TripMatching.StrangersChangeNothing | src/modules/assignment/assignment.service.ts:624-626 | Accept, decline, status update, cancel and booking cancel by anyone but an owner fail and change nothing, however stale the ownership check |
| BookingLife.CallsKeepAgreement | src/modules/booking/booking-lifecycle.service.ts:607-635 | Any sequence of fills and unfills keeps the status saying exactly whether the count is zero, in between or full |
| BookingLife.FillAndUnfillAreInverse | src/modules/booking/booking-lifecycle.service.ts:708-750 | Fill then unfill, and unfill then fill, restore the row exactly away from the ends |
| BookingLife.DirectFillAgreesIff | src/modules/assignment/assignment.service.ts:278-286 | The raw increment of a create keeps status and count in agreement only strictly inside a partial fill |
| BookingLife.TimeoutExpiresIff | src/modules/booking/booking-lifecycle.service.ts:135-225 | However stale its read, the handler leaves a booking expired if and only if it was, or was read open and not full and is still found open; otherwise nothing changes |
| BookingLife.TimeoutAfterCallsExpires | src/modules/booking/booking-lifecycle.service.ts:135-225 | A timeout always expires an unfilled booking and one whose fill count went through fills and unfills only |
| BookingLife.DirectlyFilledNeverTimesOut | src/modules/booking/booking-lifecycle.service.ts:161-199 | A booking filled by its last create has an open status that the handler leaves as it is |
| BookingLife.SweepExpiredBookings | src/modules/booking/booking-timer.service.ts:119-151 | One sweep calls the handler on each booking of its batch and expires those that are not full |
| BookingLife.SweepsDrain | src/modules/booking/booking-timer.service.ts:119-151 | Without full bookings in it, a backlog of n shrinks by 50 a sweep and is empty after k sweeps iff n is at most 50 k |
| BookingLife.SweepsTouchOnlyBacklog | src/modules/booking/booking-timer.service.ts:127-146 | Sweeps change only bookings that were overdue, and only their status, to expired |
| BookingLife.SweepOfNothing | src/modules/booking/booking-timer.service.ts:136 | With no backlog a sweep changes nothing |
| BookingLife.StuckStays | src/modules/booking/booking-timer.service.ts:127-146 | Full bookings with an open status stay in the backlog through every sweep |
| BookingLife.FullBookingsStarveSweepIff | src/modules/booking/booking-timer.service.ts:127-134 | A batch that closes nothing is possible if and only if the full bookings in the backlog make up a whole batch |
| OtpChallenge.Service.VerifyWithRedisLock | src/modules/auth/otp-challenge.service.ts:198-258 | The Redis path: expiry, attempts as the larger of two counters, comparison, increment, deletion |
| OtpChallenge.Service.VerifyWithDbRowLock | src/modules/auth/otp-challenge.service.ts:260-342 | The row path, its outcome mirrored to Redis |
| OtpChallenge.Service.VerifyChallenge | src/modules/auth/otp-challenge.service.ts:157-196 | Path choice by the lock; refused while another verify holds it |
| OtpChallenge.RedisPathRefines | src/modules/auth/otp-challenge.service.ts:198-258 | From stores in step the Redis path answers like one counter, remaining attempts included, and leaves the stores in step |
| OtpChallenge.RowPathRefines | src/modules/auth/otp-challenge.service.ts:260-342 | The same for the row path |
| OtpChallenge.PathsAgreeIff | src/shared/services/redis.service.ts:2007-2031 | The two paths agree in answer and stores if and only if the call is not the wrong guess that spends the last attempt under the increment's own rule |
| OtpChallenge.RedisPathAnswers | src/modules/auth/otp-challenge.service.ts:198-258 | Every answer of the Redis path from any stores, exactly when: the record of Redis or else the row, both attempt counts, the increment or its fallback, and the remaining attempts reported |
| OtpChallenge.RowPathAnswers | src/modules/auth/otp-challenge.service.ts:260-342 | Every answer of the row path, exactly when, by the row alone |
| OtpChallenge.EitherStoreIsEnough | src/modules/auth/otp-challenge.service.ts:344-374 | A challenge held by only one store behaves like one counter on the Redis path |
| OtpChallenge.MixedPathsRefine | src/modules/auth/otp-challenge.service.ts:157-342 | Any mix of the two paths after a clean issue, with no write lost, answers like one counter |
| OtpChallenge.SameGuessesSucceed | src/shared/services/redis.service.ts:2026-2030 | The disagreement of the two rules never decides which guess is let in |
| OtpChallenge.WrongComparisonsBounded | src/modules/auth/otp-challenge.service.ts:206-242 | With k wrong guesses already counted wherever the challenge is stored, at most maxAttempts - k further wrong comparisons happen, plus one for each call that loses a write |
| OtpChallenge.ChallengeIsBounded | src/modules/auth/otp-challenge.service.ts:73-138 | One issued challenge over any leftover counter, any mix of paths, Redis lost or not: at most maxAttempts wrong comparisons and one success, plus one of each for every call that loses a write |
| OtpChallenge.LostWritesAreSpent | src/modules/auth/otp-challenge.service.ts:223-242 | The bound is reached for every maximum of at least one and every number n of lost writes: maxAttempts + n wrong comparisons |
| OtpChallenge.LostDeletionsAreSpent | src/modules/auth/otp-challenge.service.ts:140-149 | And for every n the right guess is let in n + 1 times when n deletions are lost |
| OtpChallenge.NothingComparedAtZero | src/modules/auth/otp-challenge.service.ts:216-219 | With a maximum of zero nothing is compared and nothing let in, whatever is lost |
| Radius.Expansion.Broadcast | src/modules/booking/booking-broadcast.service.ts:107-210 | The filtered, capped targets are sent in order up to the first failed status check at a multiple of the interval, and the notified set covers all matching transporters |
| Radius.Expansion.AdvanceRadiusStep | src/modules/booking/booking-radius.service.ts:141-388 | One uninterrupted firing: stop on a closed booking, fall back after the last step, else send to newcomers and schedule the next step; who is sent what is `StepSendsTo`, `FallbackSendsTo` and `OtherFiringsSendNothing` |
| Radius.Expansion.RadiusDbFallback | src/modules/booking/booking-radius.service.ts:394-412 | The fallback sends to the first hundred online ones, minus those notified, minus those too far |
| Radius.TargetsAreFew | src/modules/booking/booking-broadcast.service.ts:107-180 | The broadcast targets are distinct, within the cap, and pass every filter that answered |
| RadiusTargets.BroadcastSelects | src/modules/booking/booking-broadcast.service.ts:107-180 | The broadcast targets are exactly the positions before the cap that pass every filter which answered, in the order of the matcher |
| RadiusTargets.CheckIntervalIs | src/modules/booking/booking-broadcast.service.ts:192-196 | The interval is a third of the targets, between 5 and 50 |
| RadiusTargets.BroadcastStopsWithin | src/modules/booking/booking-broadcast.service.ts:197-216 | Of a booking closed from some position on, fewer than one interval of targets more are sent |
| RadiusTargets.StepSendsTo | src/modules/booking/booking-radius.service.ts:172-262 | A firing that goes on to a step sends to, and records, exactly the candidates that are online, in their order, and sets the next timer |
| RadiusTargets.FallbackSendsTo | src/modules/booking/booking-radius.service.ts:165-170 | The firing after the last step sends to exactly those among the first hundred online ones of the database list that were not notified and are not too far, in order, and clears the keys |
| RadiusTargets.OtherFiringsSendNothing | src/modules/booking/booking-radius.service.ts:156-163 | Every other firing sends nothing; on a closed booking it clears the keys |
| Radius.NobodyIsToldTwice | src/modules/booking/booking-radius.service.ts:175-262 | Across broadcast, every step and the fallback, one firing at a time, no transporter is sent the booking twice, and the set covers everyone sent so far until it is cleared |
| RadiusRaces.UninterruptedFiringIsAtomic | src/modules/booking/booking-timer.service.ts:158-183 | Fetch, lock, cancel, read, send, record, schedule and release without interruption do what the one-step firing does |
| RadiusRaces.NobodyToldTwiceIff | src/modules/booking/booking-timer.service.ts:158-183 | Nobody is told twice in every interleaving of firings if and only if a firing goes on only when its cancelTimer deleted something or firings never overlap, and no other service clears the keys under one |
| RadiusRaces.DisciplineSuffices | src/modules/booking/booking-radius.service.ts:175-262 | Under that discipline no interleaving of any length tells anyone twice |
| RadiusRaces.SharedHolderTellsTwice | src/modules/booking/booking-timer.service.ts:167 | From any state, two firings under one lock holder both read the set before either records, and all newcomers are told twice |
| RadiusRaces.FallbackRunsTwice | src/modules/booking/booking-radius.service.ts:165-170 | Whatever the holders, two servers that fetched the last timer run the fallback twice, the second time against an empty set |
| RadiusRaces.ClearedSetForgets | src/modules/booking/booking-lifecycle.service.ts:293-300 | Keys cleared between recording and scheduling: the next firing, though alone, works against an empty set |
| RadiusRaces.ShippedTellsSomebodyTwice | src/shared/services/redis.service.ts:2108-2147 | Fetching a timer and removing it being two commands, the code lies outside the discipline |
| RadiusCounts.FallbackAtMostOnceIff | src/modules/booking/booking-radius.service.ts:165-170 | The fallback runs at most once in every interleaving, keys cleared by others included, if and only if firings claim their timer or never overlap |
| RadiusCounts.StepsAtMostOnceIff | src/modules/booking/booking-timer.service.ts:158-183 | No step is carried out twice in every interleaving if and only if firings never overlap; claiming is not enough |
| RadiusCounts.ExactlyOnceIff | src/modules/booking/booking-radius.service.ts:319-388 | With the booking open, every interleaving that has come to an end has carried out steps 1 to n-1 in order and then one fallback, if and only if firings never overlap |
| RadiusCounts.ReachEnd | src/modules/booking/booking-radius.service.ts:319-388 | From every state in which a timer waits there is such an interleaving to the end |
| RadiusCounts.OverlapRepeatsStep | src/modules/booking/booking-timer.service.ts:172-174 | Under every protocol that lets firings overlap a second server claims the timer just set and repeats the old step |
| RadiusCounts.LateDequeueStalls | src/shared/services/redis.service.ts:2141-2146 | With different holders a late removal from the queue leaves a timer set that nobody polls, the booking open |
| RadiusCounts.StalledForever | src/shared/services/redis.service.ts:2108-2147 | From then on no step and no fallback is ever carried out |
| Radius.FiringUsesUpAStep | src/modules/booking/booking-radius.service.ts:141-170 | Every firing lowers the number of steps left, whatever it finds |
| Radius.ExpansionEndsOnBudget | src/modules/booking/booking-radius.service.ts:319-388 | One firing at a time, with n steps: n-1 expansions and one fallback, the fallback between the sum of all windows and that plus n poll delays |
| Radius.FallbackBeatsTimeout | src/modules/booking/booking.types.ts:48-57 | One firing at a time, a configuration that passes the startup check falls back before the timeout if the poll delays fit the remaining tenth |
| Radius.ShippedConfiguration | src/modules/order/progressive-radius-matcher.ts:70-77 | The shipped windows sum to 80 seconds and start up exactly with timeouts of at least 88889 milliseconds |
| NotifiedList.MergeNotified | src/modules/booking/booking-radius.service.ts:283-284 | First-occurrence deduplication and the cut at 200 |
| NotifiedList.MergeGrows | src/modules/booking/booking-radius.service.ts:515-517 | From a distinct list within the cap a merge keeps it as a prefix, stays distinct and capped, and omits something only at the cap |
| NotifiedList.RecordedStays | src/modules/booking/booking-rebroadcast.service.ts:230-236 | Over any sequence of merges and appends no recorded transporter is dropped or moved |
| NotifiedList.PrefixKeptIff | src/modules/booking/booking-radius.service.ts:515-517 | A merge keeps the list as a prefix if and only if the list is distinct and within the cap |
| Completion.Orchestrator.AcquireLock | src/shared/services/redis.service.ts:2375-2402 | The lock is granted when free or held under the same holder id |
| Completion.Orchestrator.CommitTransaction | src/modules/assignment/completion-orchestrator.ts:129-159 | The compare-and-set of one call on the engine's tables: the trip and its vehicle together, or nothing |
| Completion.EffectsAtMostOnce | src/modules/assignment/completion-orchestrator.ts:90-112 | In any interleaving with distinct holder ids and with any other services at most one call reaches the effects; the trip has then ended, and the way the call asked if its own transaction won |
| Completion.WinFreesVehicle | src/modules/assignment/completion-orchestrator.ts:148-158 | Right after a winning transaction the trip's own vehicle is available, and nothing else has changed; a losing one changes nothing |
| Completion.UninterruptedCall | src/modules/assignment/completion-orchestrator.ts:90-159 | A call on a free lock that nothing interrupts ends an open trip as asked, frees the vehicle, runs the effects once and gives the lock back; on any other trip it only gives the lock back |
| Completion.EngineStepsAreElsewhere | src/modules/assignment/assignment.service.ts:1451-1462 | Every operation of the model is among the steps the completion calls interleave with |
| Completion.EffectsOnceIffHoldersDistinct | src/modules/assignment/completion-orchestrator.ts:91-92 | The effects run at most once in every interleaving if and only if no two calls share a holder id |
| Completion.EffectsOfLostTransactionIff | src/modules/assignment/completion-orchestrator.ts:142-146 | With distinct holder ids the effects run for a lost transaction if and only if another service ended the trip between the call's read and its transaction |
| Completion.EffectsRunAfterLostTransaction | src/modules/assignment/completion-orchestrator.ts:142-146 | Whatever another service does to end the trip in between, the effects of the delivery run over it |
| Redispatch.FirstCandidateIsFirst | src/modules/assignment/auto-redispatch.service.ts:78-120 | The choice is the first listed driver who is online, idle and not the decliner, or none if there is none |
| Redispatch.Service.PickDriver | src/modules/assignment/auto-redispatch.service.ts:98-120 | The candidate loop finds that driver |
| Redispatch.Service.TryAutoRedispatch | src/modules/assignment/auto-redispatch.service.ts:53-254 | On a count, candidate rows and checks all read earlier: a new trip for that driver and one attempt counted, or the counter left alone |
| Redispatch.AttemptCreatesIff | src/modules/assignment/auto-redispatch.service.ts:68-120 | One attempt creates if and only if it read a count below two and the create for the first listed driver who is online, idle and not the decliner wins; then exactly that create, and the count up by one or begun anew |
| Redispatch.RefusedBusyIff | src/modules/assignment/auto-redispatch.service.ts:104-117 | The picked driver is refused as busy if and only if a trip of the driver was created since the pick |
| Redispatch.CreationsPerLifetime | src/modules/assignment/auto-redispatch.service.ts:68-75 | In any run, with any calls, failed attempts and other chains in between, a counter lifetime sees at most two creations plus one for each attempt that had read an older count, and the counter says how many |
| Redispatch.CreatesIff | src/modules/assignment/auto-redispatch.service.ts:241-246 | An attempt of a run of any length creates if and only if its create would win and fewer than two were created in the lifetime, or 300 seconds are over since its first |
| Redispatch.OlderCountsAreSpent | src/modules/assignment/auto-redispatch.service.ts:68-75 | The bound is reached: for every n from two on, a run in which n attempts create in one lifetime, n - 2 of them on an older count |
| Redispatch.ChainStops | src/modules/assignment/assignment.service.ts:1758-1774 | A chain of attempts, each after a winning decline or timeout of the trip before it and within T seconds, 2 T below 300, creates two trips at most and has no fourth attempt, if its third reads the count as it is; what other chains read does not matter |
| Redispatch.NextDriverDiffers | src/modules/assignment/assignment.service.ts:1974-1990 | Along a chain the next trip goes to a driver other than the one who declined or let the last one lapse, online and idle when picked |
| Backpressure.Counter.Check | src/modules/booking/booking-create.service.ts:230-234 | A call is turned away exactly when the value it got is above the limit |
| Backpressure.Counter.Decrement | src/modules/booking/booking-create.service.ts:242-246 | Compensation and release give one place back, unless lost |
| Backpressure.SoundStep | src/modules/booking/booking-create.service.ts:221-246 | Every step keeps: counter equals places plus losses, and no bound k has more than k holders of tickets up to k |
| Backpressure.AdmissionsBounded | src/modules/booking/booking-create.service.ts:221-246 | The calls admitted at one time never exceed the limit; the counter returns to zero iff no decrement was lost |
| Backpressure.ComparedIff | src/modules/booking/booking-create.service.ts:230-234 | A ticket up to the limit is admitted, one above it turned away, and no other call notices |
| Backpressure.AdmittedIff | src/modules/booking/booking-create.service.ts:221-246 | In any run a call is admitted if and only if the calls in flight when it came plus the decrements lost by then were below the limit |
| Backpressure.LostDecrementsShutTheGate | src/modules/booking/booking-create.service.ts:230-234 | After as many lost decrements as the limit every new call is turned away |
| RestartLimiter.Cluster.ShouldRestartWorker | src/cluster.ts:118-141 | The decision and the entry kept per worker |
| RestartLimiter.HistoryIsChained | src/cluster.ts:118-141 | The count is the length of the last run of close grants, and any six consecutive grants span more than the window |
| RestartLimiter.SlidingWindowBound | src/cluster.ts:111-141 | No closed interval of 60 seconds holds more than five grants |
| RestartLimiter.RefusedIff | src/cluster.ts:127-136 | A call is refused if and only if the last five grants and the call follow one another within the window each |
| RestartLimiter.StricterThanSlidingWindow | src/cluster.ts:127-136 | A concrete call is refused although the window holds fewer than five grants |
| RestartLimiter.WorkersAreIndependent | src/cluster.ts:118-125 | The entry of each worker is what its own calls alone would have left |

## Left out

- Orders: the order path of redispatch, truck requests and the order table; whether an open order exists is a parameter
  of `CreateBooking`.
- Split services: `assignment-lifecycle`, `assignment-dispatch`, `assignment-response` duplicate `assignment.service.ts`.
- I/O: sockets, push, queues, logging, and the Redis cache writes after a commit, which do not decide the tables.
- Safety.EveryRunIsSafe: takes the unguarded write of `updateStatus` as atomic with its read; `UnguardedWriteLegalIff`
  says when it is harmless otherwise.
- FillConservation.CountInRuns: the schedule-failure compensation, standalone fills and unfills, and creates on a full
  booking are outside its runs, by its condition, because they really change the difference.
- VehicleCoupling.CouplingInRuns: runs whose creates find their vehicle taken are outside it, by its condition.
- OtpChallenge.MixedPathsRefine: a lost Redis and lost writes are covered by the bounds of `ChallengeIsBounded`, not by
  the refinement; a record held by one store only by those and, on the Redis path, by `EitherStoreIsEnough`. Reads of a
  store that fail are not modelled, and a call's writes to one store fail together.
- Store.Database.ExitTx: the decrement inside the transaction runs on the global client in the code, so it is committed
  even if the transaction then fails to commit; such a failure is not modelled.
- Store.Database.IncrementTrucksFilled: count and status are two writes in the code and one step here.
- Store.Database.CountDown: count and status are two writes in the code, and the decrement does not use the caller's
  transaction client; here it is one step of that transaction.
- Store.Database.CancelBooking: find, update and the release after the transaction are one step here;
  `CutCancelKeepsCouplingIff` takes them apart, with the release directly after the update.
- Store.Database.CheckBookingCompletion: its lock has one holder for all servers and is left out.
- Store.Database.ExpireStaleBookings: how stale ids are found (age cutoff, page size) is replaced by any set of ids.
- Completion.EffectsAtMostOnce: the lock does not expire during a call.
- Redispatch.Service.TryAutoRedispatch: the idle checks of all drivers share one read.
- Redispatch.CreationsPerLifetime: the create and the increment that follows it are one step, and an increment that fails
  after its create is not modelled.
- Backpressure.AdmissionsBounded: the counter key does not expire; calls let through because Redis is down do not count.
- Radius.NobodyIsToldTwice: firings do not overlap; `RadiusRaces` covers those that do. Reads and writes of the notified
  set succeed; the matcher returns distinct transporters it was not told to exclude, and the online filter keeps order.
- RadiusRaces.NobodyToldTwiceIff: the same about the set, the matcher and the filter. Locks do not expire during a firing.
- RadiusCounts.ExactlyOnceIff: the same about locks. A firing's own clearing of the keys is one step.
- Radius.ExpansionEndsOnBudget: firings do not overlap; `RadiusCounts` covers those that do, without the times.
- Radius.FallbackBeatsTimeout: the same, and the factor 0.9 is taken exactly instead of in floating point.
- NotifiedList.MergeGrows: the raw SQL merge of the JSON column is not modelled, only its fallback and the other writes.
- Resume of broadcasts after a restart: only its status write (`ExpireOnResume`), not the retry count or delays.
- Other writers of the same tables: the broadcast accept service, which creates trips on its own path; the driver progress
  endpoints of `tracking.service.ts` (an unguarded update by trip id that may write completed without releasing the
  vehicle) and `tracking-trip.service.ts` (which releases the vehicle even when its compare-and-set matched nothing, and
  whose guard for the other statuses forgets declined and partly delivered trips); the forced vehicle release of
  `vehicle.routes.ts`, which cancels trips without a decrement; the truck-hold services, the hold expiry and the
  reconciliation processors. The run theorems hold for runs without them.
- The single writer `updateAssignmentStatus` is modelled as written; nothing in the repository calls it.
- In-memory fallback timers, re-broadcast sends, the queue reconciler, geometry, fares, tokens and routes; hashing is
  taken as injective.
