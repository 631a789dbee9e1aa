/** Fill counter against status, the timeout handler, and the sweep that drives overdue bookings to their end. */
module BookingLife {
  import opened StateMachines
  import opened Rows
  import opened Dispatch
  import opened Runs
  import opened Sequences
  import Store

  // ==== status against count ====

  function StatusFor(filled: int, needed: nat): BookingStatus {
    if filled == 0 then Active else if filled < needed then PartiallyFilled else FullyFilled
  }

  predicate Agrees(b: Booking) {
    b.trucksNeeded >= 1 && WithinCapacity(b) && b.status == StatusFor(b.trucksFilled, b.trucksNeeded)
  }

  datatype Call = Fill | Unfill

  function Apply(b: Booking, call: Call): Booking {
    match call
    case Fill => Incremented(b, b)
    case Unfill => Decremented(b)
  }

  function ApplyAll(b: Booking, calls: seq<Call>): Booking
    decreases |calls|
  {
    if calls == [] then b else ApplyAll(Apply(b, calls[0]), calls[1..])
  }

  /** Any sequence of fills and unfills, none interleaved, from an active booking: the status says exactly whether the
      count is zero, in between or full. */
  lemma {:induction false} CallsKeepAgreement(b: Booking, calls: seq<Call>)
    requires Agrees(b)
    ensures Agrees(ApplyAll(b, calls))
    ensures ApplyAll(b, calls).(trucksFilled := b.trucksFilled, status := b.status) == b
    decreases |calls|
  {
    if calls != [] {
      CallsKeepAgreement(Apply(b, calls[0]), calls[1..]);
    }
  }

  /** Fill and unfill undo each other away from the two ends, row for row, status included. */
  lemma FillAndUnfillAreInverse(b: Booking)
    requires Agrees(b)
    ensures b.trucksFilled < b.trucksNeeded <==> Apply(Apply(b, Fill), Unfill) == b && Apply(b, Fill) != b
    ensures b.trucksFilled > 0 <==> Apply(Apply(b, Unfill), Fill) == b && Apply(b, Unfill) != b
  {
  }

  /** The raw increment of createAssignment writes no status: agreement survives it only strictly inside a partial
      fill. */
  lemma DirectFillAgreesIff(s: Db, id: Id)
    requires id in s.bookings && Agrees(s.bookings[id]) && s.bookings[id].status != FullyFilled
    ensures Agrees(FillOne(s, id).bookings[id])
            <==> 0 < s.bookings[id].trucksFilled && s.bookings[id].trucksFilled + 1 < s.bookings[id].trucksNeeded
  {
  }

  // ==== the timeout handler ====

  /** The branches of handleBookingTimeout that write. */
  predicate Expirable(b: Booking) {
    b.trucksFilled == 0 || 0 < b.trucksFilled < b.trucksNeeded
  }

  /** However stale its read, the handler leaves the booking expired exactly when it was, or when it read the booking
      open and not full and still finds it open; otherwise it changes nothing. */
  lemma TimeoutExpiresIff(seen: Seen, s: Db, id: Id)
    requires id in s.bookings
    ensures var after := HandleBookingTimeout(seen, s, id).db;
            && id in after.bookings
            && (after.bookings[id].status == Expired
                <==> || s.bookings[id].status == Expired
                     || (&& id in seen.bookings && seen.bookings[id].status in OPEN_FOR_TIMEOUT
                         && Expirable(seen.bookings[id]) && s.bookings[id].status in OPEN_FOR_TIMEOUT))
            && (after.bookings[id].status != Expired || s.bookings[id].status == Expired ==> after == s)
  {
  }

  /** So a timeout always expires a booking not yet filled, and one whose status was kept by fill and unfill calls. */
  lemma {:induction false} TimeoutAfterCallsExpires(s: Db, id: Id, b: Booking, calls: seq<Call>)
    requires id in s.bookings && s.bookings[id].status in OPEN_FOR_TIMEOUT
    requires (s.bookings[id].status in {Created, Broadcasting} && s.bookings[id].trucksFilled == 0)
             || (Agrees(b) && s.bookings[id] == ApplyAll(b, calls))
    ensures HandleBookingTimeout(Fresh(s), s, id).db.bookings[id].status == Expired
  {
    if s.bookings[id].status !in {Created, Broadcasting} || s.bookings[id].trucksFilled != 0 {
      CallsKeepAgreement(b, calls);
    }
  }

  /** A booking whose last truck was assigned by createAssignment keeps an open status that no timeout ever closes. */
  lemma DirectlyFilledNeverTimesOut(seen: Seen, s: Db, req: CreateRequest)
    requires CreateAssignment(seen, s, req).outcome == Done && req.bookingId in s.bookings
    requires Agrees(s.bookings[req.bookingId]) && s.bookings[req.bookingId].status in {Active, PartiallyFilled}
    requires s.bookings[req.bookingId].trucksFilled + 1 == s.bookings[req.bookingId].trucksNeeded
    ensures var after := CreateAssignment(seen, s, req).db;
            && after.bookings[req.bookingId].trucksFilled == after.bookings[req.bookingId].trucksNeeded
            && after.bookings[req.bookingId].status in OPEN_FOR_TIMEOUT
            && HandleBookingTimeout(Fresh(after), after, req.bookingId).db == after
  {
  }

  // ==== the sweep ====

  const SWEEP_BATCH := 50

  predicate Overdue(bookings: map<Id, Booking>, now: int, id: Id) {
    id in bookings && bookings[id].status in OPEN_FOR_TIMEOUT && bookings[id].expiresAt <= now
  }

  function OverdueSet(bookings: map<Id, Booking>, now: int): set<Id> {
    set id | id in bookings && Overdue(bookings, now, id)
  }

  function StuckSet(bookings: map<Id, Booking>, now: int): set<Id> {
    set id | id in OverdueSet(bookings, now) && !Expirable(bookings[id])
  }

  function BatchSize(bookings: map<Id, Booking>, now: int): nat {
    if |OverdueSet(bookings, now)| < SWEEP_BATCH then |OverdueSet(bookings, now)| else SWEEP_BATCH
  }

  /** What findMany may return: any overdue bookings, each once, as many as there are up to the batch size. */
  predicate IsBatch(bookings: map<Id, Booking>, now: int, batch: seq<Id>) {
    && NoDuplicates(batch)
    && (forall id | id in batch :: Overdue(bookings, now, id))
    && |batch| == BatchSize(bookings, now)
  }

  function Swept(bookings: map<Id, Booking>, batch: seq<Id>): map<Id, Booking> {
    map id | id in bookings ::
      if id in batch && Expirable(bookings[id]) then bookings[id].(status := Expired) else bookings[id]
  }

  lemma SweptOneMore(start: map<Id, Booking>, batch: seq<Id>, i: nat)
    requires i < |batch| && NoDuplicates(batch) && batch[i] in start && start[batch[i]].status in OPEN_FOR_TIMEOUT
    ensures var before, id := Swept(start, batch[..i]), batch[i];
            && id in before && before[id] == start[id]
            && Swept(start, batch[..i + 1]) ==
                 if Expirable(start[id]) then before[id := before[id].(status := Expired)] else before
  {
  }

  /** One sweep: the timeout handler, with a fresh read, for every booking of the batch. */
  method SweepExpiredBookings(db: Store.Database, now: int, batch: seq<Id>)
    requires NoDuplicates(batch) && forall id | id in batch :: Overdue(db.bookings, now, id)
    modifies db`bookings
    ensures db.bookings == Swept(old(db.bookings), batch)
  {
    ghost var start := db.bookings;
    for i := 0 to |batch|
      invariant db.bookings == Swept(start, batch[..i])
    {
      var seen := Seen(db.assignments, db.assignments, db.vehicles, db.bookings);
      assert batch[i] in batch;
      SweptOneMore(start, batch, i);
      var _ := db.HandleBookingTimeout(seen, batch[i]);
    }
    assert batch[..|batch|] == batch;
  }

  /** A sweep closes the bookings of its batch that are not full, and nothing else. */
  lemma SweepRemovesExpirable(bookings: map<Id, Booking>, now: int, batch: seq<Id>)
    requires IsBatch(bookings, now, batch)
    ensures OverdueSet(Swept(bookings, batch), now)
            == OverdueSet(bookings, now) - (set id | id in batch && id in bookings && Expirable(bookings[id]))
    ensures StuckSet(Swept(bookings, batch), now) == StuckSet(bookings, now)
  {
    var after := Swept(bookings, batch);
    forall id
      ensures id in OverdueSet(after, now) <==>
                id in OverdueSet(bookings, now) && !(id in batch && Expirable(bookings[id]))
      ensures id in StuckSet(after, now) <==> id in StuckSet(bookings, now)
    {
      if id in bookings {
        assert after[id] ==
          if id in batch && Expirable(bookings[id]) then bookings[id].(status := Expired) else bookings[id];
      }
    }
  }

  lemma SweepDrainsOneBatch(bookings: map<Id, Booking>, now: int, batch: seq<Id>)
    requires IsBatch(bookings, now, batch) && StuckSet(bookings, now) == {}
    ensures StuckSet(Swept(bookings, batch), now) == {}
    ensures |OverdueSet(Swept(bookings, batch), now)| == Left(|OverdueSet(bookings, now)|, 1)
  {
    var overdue, after := OverdueSet(bookings, now), OverdueSet(Swept(bookings, batch), now);
    forall id | id in overdue
      ensures Expirable(bookings[id])
    {
      assert id !in StuckSet(bookings, now);
    }
    assert after == overdue - ToSet(batch) && StuckSet(Swept(bookings, batch), now) == {} by {
      SweepRemovesExpirable(bookings, now, batch);
    }
    SubsetCount(ToSet(batch), overdue);
    DistinctCount(batch);
  }

  function Left(n: nat, k: nat): nat {
    if n <= SWEEP_BATCH * k then 0 else n - SWEEP_BATCH * k
  }

  ghost predicate SweepRun(states: seq<map<Id, Booking>>, batches: seq<seq<Id>>, now: int) {
    && |states| == |batches| + 1
    && forall k :: 0 <= k < |batches| ==>
         IsBatch(states[k], now, batches[k]) && states[k + 1] == Swept(states[k], batches[k])
  }

  /** With no full booking in the backlog, k sweeps close 50 each until none is left: after ceil(n / 50) sweeps, and not
      one earlier, the backlog is empty. */
  lemma {:induction false} SweepsDrain(states: seq<map<Id, Booking>>, batches: seq<seq<Id>>, now: int, k: nat)
    requires SweepRun(states, batches, now) && k < |states|
    requires StuckSet(states[0], now) == {}
    ensures StuckSet(states[k], now) == {}
    ensures |OverdueSet(states[k], now)| == Left(|OverdueSet(states[0], now)|, k)
    ensures OverdueSet(states[k], now) == {} <==> |OverdueSet(states[0], now)| <= SWEEP_BATCH * k
  {
    if k > 0 {
      SweepsDrain(states, batches, now, k - 1);
      assert IsBatch(states[k - 1], now, batches[k - 1]) && states[k - 1 + 1] == Swept(states[k - 1], batches[k - 1]);
      SweepDrainsOneBatch(states[k - 1], now, batches[k - 1]);
    }
  }

  /** Sweeps never touch a booking that was not overdue, and change an overdue one only to expired. */
  lemma {:induction false} SweepsTouchOnlyBacklog(
    states: seq<map<Id, Booking>>, batches: seq<seq<Id>>, now: int, k: nat, id: Id)
    requires SweepRun(states, batches, now) && k < |states| && id in states[0]
    ensures id in states[k]
    ensures states[k][id] == states[0][id]
            || (id in OverdueSet(states[0], now) && states[k][id] == states[0][id].(status := Expired))
  {
    if k > 0 {
      SweepsTouchOnlyBacklog(states, batches, now, k - 1, id);
      assert IsBatch(states[k - 1], now, batches[k - 1]) && states[k - 1 + 1] == Swept(states[k - 1], batches[k - 1]);
    }
  }

  /** Once the backlog is empty a further sweep changes nothing. */
  lemma SweepOfNothing(bookings: map<Id, Booking>, now: int, batch: seq<Id>)
    requires OverdueSet(bookings, now) == {} && IsBatch(bookings, now, batch)
    ensures Swept(bookings, batch) == bookings
  {
  }

  /** A full booking with an open status stays in the backlog through every sweep, so the backlog drains if and only if
      it holds none. */
  lemma {:induction false} StuckStays(states: seq<map<Id, Booking>>, batches: seq<seq<Id>>, now: int, k: nat)
    requires SweepRun(states, batches, now) && k < |states|
    ensures StuckSet(states[k], now) == StuckSet(states[0], now)
    ensures StuckSet(states[0], now) != {} ==> OverdueSet(states[k], now) != {}
  {
    if k > 0 {
      StuckStays(states, batches, now, k - 1);
      assert IsBatch(states[k - 1], now, batches[k - 1]) && states[k - 1 + 1] == Swept(states[k - 1], batches[k - 1]);
      SweepRemovesExpirable(states[k - 1], now, batches[k - 1]);
    }
    if id :| id in StuckSet(states[0], now) {
      assert id in StuckSet(states[k], now);
      assert id in OverdueSet(states[k], now);
    }
  }

  lemma {:induction false} Enumerate(ids: set<Id>, n: nat) returns (q: seq<Id>)
    requires n <= |ids|
    ensures NoDuplicates(q) && |q| == n && forall id | id in q :: id in ids
  {
    if n == 0 {
      q := [];
    } else {
      var id :| id in ids;
      q := Enumerate(ids - {id}, n - 1);
      q := q + [id];
    }
  }

  /** A sweep that closes nothing is possible, however large the backlog, if and only if the full bookings in it make
      up a whole batch. */
  lemma FullBookingsStarveSweepIff(bookings: map<Id, Booking>, now: int)
    ensures (exists batch :: IsBatch(bookings, now, batch) && Swept(bookings, batch) == bookings)
            <==> |StuckSet(bookings, now)| >= BatchSize(bookings, now)
  {
    var stuck := StuckSet(bookings, now);
    if |stuck| >= BatchSize(bookings, now) {
      var batch := Enumerate(stuck, BatchSize(bookings, now));
      assert IsBatch(bookings, now, batch);
      assert Swept(bookings, batch) == bookings;
    }
    if batch :| IsBatch(bookings, now, batch) && Swept(bookings, batch) == bookings {
      IdleBatchIsStuck(bookings, now, batch);
      DistinctCount(batch);
      SubsetCount(ToSet(batch), stuck);
    }
  }

  lemma IdleBatchIsStuck(bookings: map<Id, Booking>, now: int, batch: seq<Id>)
    requires IsBatch(bookings, now, batch) && Swept(bookings, batch) == bookings
    ensures ToSet(batch) <= StuckSet(bookings, now)
  {
    forall id | id in batch
      ensures id in StuckSet(bookings, now)
    {
      assert Overdue(bookings, now, id);
      assert Swept(bookings, batch)[id] == bookings[id];
    }
  }
}
