/** completeTrip of one trip, cut at its awaits: lock, read, transaction, effects, release. Any number of calls
    interleave with each other and with the other services. */
module Completion {
  import opened StateMachines
  import opened Rows
  import opened Dispatch
  import opened Runs

  /** What a call has got to; `row` is the assignment it read. */
  datatype Phase =
    | Idle
    | Locked
    | OpenRead(row: Assignment)
    | Committed(won: bool)
    | Releasing
    | Finished

  /** `effects` lists the calls that reached the effects phase, with whether their own compare-and-set won. */
  datatype State = State(lock: Option<Id>, db: Db, phases: map<Id, Phase>, effects: seq<(Id, bool)>)

  /** `Elsewhere` is a step of any other service, by what it leaves; see Runs.TripStepOf. */
  datatype Step =
    | Acquire(call: Id)
    | ReadRow(call: Id)
    | Commit(call: Id)
    | RunEffects(call: Id)
    | Release(call: Id)
    | Elsewhere(after: Db)

  /** The trip, the holder id each call hands to the lock, and the status it wants the trip to end in. */
  datatype Calls = Calls(trip: Id, holder: Id -> Id, target: Id -> AssignmentStatus)

  function PhaseOf(s: State, call: Id): Phase {
    if call in s.phases then s.phases[call] else Idle
  }

  function Move(s: State, call: Id, phase: Phase): State {
    s.(phases := s.phases[call := phase])
  }

  predicate Ended(c: Calls, db: Db) {
    c.trip in db.assignments && IsTerminal(db.assignments[c.trip].status)
  }

  predicate IsOpen(c: Calls, db: Db) {
    c.trip in db.assignments && !IsTerminal(db.assignments[c.trip].status)
  }

  function Next(c: Calls, s: State, step: Step): State {
    match step
    case Acquire(p) =>
      if PhaseOf(s, p) != Idle then s
      else if CanLock(s.lock, c.holder(p)) then Move(s, p, Locked).(lock := Some(c.holder(p)))
      else Move(s, p, Finished)
    case ReadRow(p) =>
      if PhaseOf(s, p) != Locked then s
      else Move(s, p, if IsOpen(c, s.db) then OpenRead(s.db.assignments[c.trip]) else Releasing)
    case Commit(p) =>
      if !PhaseOf(s, p).OpenRead? then s
      else
        var r := CompleteTrip(map[c.trip := PhaseOf(s, p).row], s.db, c.trip, c.target(p));
        Move(s, p, Committed(r.outcome == Done)).(db := r.db)
    case RunEffects(p) =>
      if !PhaseOf(s, p).Committed? then s
      else Move(s, p, Releasing).(effects := s.effects + [(p, PhaseOf(s, p).won)])
    case Release(p) =>
      if PhaseOf(s, p) != Releasing then s
      else Move(s, p, Finished).(lock := if s.lock == Some(c.holder(p)) then None else s.lock)
    case Elsewhere(after) =>
      if TripStep(s.db.assignments, after.assignments) then s.(db := after) else s
  }

  class Orchestrator {
    const calls: Calls
    var lock: Option<Id>
    var db: Db
    var phases: map<Id, Phase>
    var effects: seq<(Id, bool)>

    ghost function Now(): State
      reads this
    {
      State(lock, db, phases, effects)
    }

    constructor (calls: Calls, db: Db)
      ensures this.calls == calls && Now() == State(None, db, map[], [])
    {
      this.calls, this.db := calls, db;
      lock, phases, effects := None, map[], [];
    }

    method AcquireLock(call: Id) returns (alreadyCompleted: bool)
      modifies this
      ensures Now() == Next(calls, old(Now()), Acquire(call))
      ensures alreadyCompleted <==> PhaseOf(old(Now()), call) == Idle && !CanLock(old(lock), calls.holder(call))
    {
      alreadyCompleted := false;
      if call in phases && phases[call] != Idle {
        return;
      }
      if lock == None || lock == Some(calls.holder(call)) {
        lock := Some(calls.holder(call));
        phases := phases[call := Locked];
      } else {
        phases := phases[call := Finished];
        alreadyCompleted := true;
      }
    }

    method ReadAssignment(call: Id)
      modifies this
      ensures Now() == Next(calls, old(Now()), ReadRow(call))
    {
      if call in phases && phases[call] == Locked {
        if calls.trip !in db.assignments || db.assignments[calls.trip].status in TERMINAL_ASSIGNMENT {
          phases := phases[call := Releasing];
        } else {
          phases := phases[call := OpenRead(db.assignments[calls.trip])];
        }
      }
    }

    method CommitTransaction(call: Id)
      modifies this
      ensures Now() == Next(calls, old(Now()), Commit(call))
    {
      if call in phases && phases[call].OpenRead? {
        var assignment := phases[call].row;
        if IsTerminal(assignment.status) || calls.trip !in db.assignments
           || db.assignments[calls.trip].status in TERMINAL_ASSIGNMENT {
          phases := phases[call := Committed(false)];
        } else {
          db := WithStatus(db, calls.trip, calls.target(call));
          db := ReleaseVehicle(db, assignment.vehicleId);
          phases := phases[call := Committed(true)];
        }
      }
    }

    method PerformEffects(call: Id)
      modifies this
      ensures Now() == Next(calls, old(Now()), RunEffects(call))
    {
      if call in phases && phases[call].Committed? {
        effects := effects + [(call, phases[call].won)];
        phases := phases[call := Releasing];
      }
    }

    method ReleaseLock(call: Id)
      modifies this
      ensures Now() == Next(calls, old(Now()), Release(call))
    {
      if call in phases && phases[call] == Releasing {
        if lock == Some(calls.holder(call)) {
          lock := None;
        }
        phases := phases[call := Finished];
      }
    }
  }

  // ==== every interleaving ====

  predicate InLock(phase: Phase) {
    phase.Locked? || phase.OpenRead? || phase.Committed? || phase.Releasing?
  }

  ghost predicate DistinctHolders(c: Calls) {
    forall p, q :: c.holder(p) == c.holder(q) ==> p == q
  }

  ghost predicate WantsTerminal(c: Calls) {
    forall p :: c.target(p) == Completed || c.target(p) == PartialDelivery
  }

  predicate EndedAs(c: Calls, db: Db, call: Id) {
    c.trip in db.assignments && db.assignments[c.trip].status == c.target(call)
  }

  /** What holds of one call. */
  predicate CallInv(c: Calls, s: State, p: Id, phase: Phase) {
    && (InLock(phase) ==> s.lock == Some(c.holder(p)))
    && (phase.OpenRead? ==>
          && s.effects == [] && !IsTerminal(phase.row.status)
          && c.trip in s.db.assignments && RowStep(phase.row, s.db.assignments[c.trip]))
    && (phase.Committed? ==> s.effects == [] && Ended(c, s.db))
    && (phase == Committed(true) ==> EndedAs(c, s.db, p))
  }

  ghost predicate Inv(c: Calls, s: State) {
    && (forall p | p in s.phases :: CallInv(c, s, p, s.phases[p]))
    && |s.effects| <= 1
    && (s.effects != [] ==> Ended(c, s.db))
    && (s.effects != [] && s.effects[0].1 ==> EndedAs(c, s.db, s.effects[0].0))
  }

  lemma CommitKeepsInv(c: Calls, s: State, p: Id)
    requires DistinctHolders(c) && WantsTerminal(c) && Inv(c, s)
    ensures Inv(c, Next(c, s, Commit(p)))
  {
    if PhaseOf(s, p).OpenRead? {
      CompleteTables(map[c.trip := PhaseOf(s, p).row], s.db, c.trip, c.target(p));
    }
  }

  lemma ElsewhereKeepsInv(c: Calls, s: State, after: Db)
    requires DistinctHolders(c) && WantsTerminal(c) && Inv(c, s)
    ensures Inv(c, Next(c, s, Elsewhere(after)))
  {
    if c.trip in s.db.assignments && TripStep(s.db.assignments, after.assignments) {
      assert RowStep(s.db.assignments[c.trip], after.assignments[c.trip]);
    }
  }

  lemma InvStep(c: Calls, s: State, step: Step)
    requires DistinctHolders(c) && WantsTerminal(c) && Inv(c, s)
    ensures Inv(c, Next(c, s, step))
  {
    if step.Commit? {
      CommitKeepsInv(c, s, step.call);
    } else if step.Elsewhere? {
      ElsewhereKeepsInv(c, s, step.after);
    }
  }

  /** Every operation of the model is such a step elsewhere. */
  lemma EngineStepsAreElsewhere(c: Calls, s: State, d: Decrement, seen: Seen, op: Op)
    requires ReadsAtomically(seen, s.db, op)
    ensures Next(c, s, Elsewhere(Exec(d, seen, s.db, op).db)) == s.(db := Exec(d, seen, s.db, op).db)
  {
    TripStepOf(d, seen, s.db, op);
  }

  function Run(c: Calls, start: Db, steps: seq<Step>): State {
    if steps == [] then State(None, start, map[], [])
    else Next(c, Run(c, start, steps[..|steps| - 1]), steps[|steps| - 1])
  }

  lemma {:induction false} InvHolds(c: Calls, start: Db, steps: seq<Step>)
    requires DistinctHolders(c) && WantsTerminal(c)
    ensures Inv(c, Run(c, start, steps))
  {
    if steps != [] {
      InvHolds(c, start, steps[..|steps| - 1]);
      InvStep(c, Run(c, start, steps[..|steps| - 1]), steps[|steps| - 1]);
    }
  }

  /** With holder ids distinct, at most one call ever reaches the effects; from then on the trip has ended, and if that
      call's own transaction won, it stays ended the way the call asked. */
  lemma EffectsAtMostOnce(c: Calls, start: Db, steps: seq<Step>)
    requires DistinctHolders(c) && WantsTerminal(c)
    ensures var s := Run(c, start, steps);
            && |s.effects| <= 1
            && (s.effects != [] ==> Ended(c, s.db))
            && (s.effects != [] && s.effects[0].1 ==> EndedAs(c, s.db, s.effects[0].0))
  {
    InvHolds(c, start, steps);
  }

  /** A winning transaction writes the trip and its own vehicle, as the tables stand at that moment, and nothing else:
      right after it the vehicle is free. */
  lemma WinFreesVehicle(c: Calls, start: Db, steps: seq<Step>, p: Id)
    requires DistinctHolders(c) && WantsTerminal(c)
    requires PhaseOf(Run(c, start, steps), p).OpenRead?
    ensures var s := Run(c, start, steps);
            var after := Next(c, s, Commit(p));
            if PhaseOf(after, p) == Committed(true) then
              && IsOpen(c, s.db)
              && var v := s.db.assignments[c.trip].vehicleId;
                 && after.db.assignments == WithStatus(s.db, c.trip, c.target(p)).assignments
                 && after.db.vehicles == ReleaseVehicle(s.db, v).vehicles
                 && (v in s.db.vehicles ==> v in after.db.vehicles && after.db.vehicles[v].status == Available)
                 && after.db.bookings == s.db.bookings
            else after.db == s.db && Ended(c, s.db)
  {
    InvHolds(c, start, steps);
    var s := Run(c, start, steps);
    CompleteTables(map[c.trip := PhaseOf(s, p).row], s.db, c.trip, c.target(p));
  }

  /** A call that finds the lock free and is not interrupted: a trip under way ends as the call asked, its vehicle is
      freed, and the effects run once; any other trip is left alone, and so are the effects. The lock is free again. */
  lemma UninterruptedCall(c: Calls, s: State, p: Id)
    requires s.lock == None && PhaseOf(s, p) == Idle
    ensures var open := c.trip in s.db.assignments
                        && s.db.assignments[c.trip].status !in {Completed, Cancelled, DriverDeclined, PartialDelivery};
            var done := Next(c, Next(c, Next(c, Next(c, Next(c, s, Acquire(p)), ReadRow(p)), Commit(p)),
                                     RunEffects(p)), Release(p));
            && done.lock == None && PhaseOf(done, p) == Finished
            && if open then
                 && done.effects == s.effects + [(p, true)]
                 && done.db.assignments
                    == s.db.assignments[c.trip := s.db.assignments[c.trip].(status := c.target(p))]
                 && done.db.vehicles == ReleaseVehicle(s.db, s.db.assignments[c.trip].vehicleId).vehicles
                 && done.db.bookings == s.db.bookings && done.db.drivers == s.db.drivers
               else done.effects == s.effects && done.db == s.db
  {
  }

  // ==== when a transaction loses ====

  /** The state before step `i`. */
  function Before(c: Calls, start: Db, steps: seq<Step>, i: nat): State
    requires i <= |steps|
  {
    Run(c, start, steps[..i])
  }

  lemma BeforeNext(c: Calls, start: Db, steps: seq<Step>, i: nat)
    requires i < |steps|
    ensures Before(c, start, steps, i + 1) == Next(c, Before(c, start, steps, i), steps[i])
  {
    assert steps[..i + 1][..i] == steps[..i];
  }

  /** Step `m` is another service's, and it is the one that ends the trip. */
  predicate EndsElsewhere(c: Calls, start: Db, steps: seq<Step>, m: nat)
    requires m < |steps|
  {
    && steps[m].Elsewhere?
    && !Ended(c, Before(c, start, steps, m).db) && Ended(c, Before(c, start, steps, m + 1).db)
  }

  /** Call `p` read the open row at step `r` and ran its transaction at step `k`. */
  predicate IsWindow(c: Calls, start: Db, steps: seq<Step>, p: Id, r: nat, k: nat) {
    && r < k < |steps| && steps[r] == ReadRow(p) && steps[k] == Commit(p)
    && (forall i | r < i <= k :: PhaseOf(Before(c, start, steps, i), p).OpenRead?)
    && IsOpen(c, Before(c, start, steps, r).db)
  }

  lemma {:induction false} ReadBefore(c: Calls, start: Db, steps: seq<Step>, n: nat, p: Id) returns (r: nat)
    requires n <= |steps| && PhaseOf(Before(c, start, steps, n), p).OpenRead?
    ensures r < n && steps[r] == ReadRow(p) && IsOpen(c, Before(c, start, steps, r).db)
    ensures forall i | r < i <= n :: PhaseOf(Before(c, start, steps, i), p).OpenRead?
    decreases n
  {
    r := n - 1;
    BeforeNext(c, start, steps, r);
    if PhaseOf(Before(c, start, steps, r), p).OpenRead? {
      r := ReadBefore(c, start, steps, r, p);
    }
  }

  /** While a call is between its read and its transaction only another service can end the trip. */
  lemma OnlyElsewhereEnds(c: Calls, start: Db, steps: seq<Step>, m: nat, p: Id)
    requires DistinctHolders(c) && WantsTerminal(c) && m < |steps|
    requires PhaseOf(Before(c, start, steps, m), p).OpenRead?
    requires PhaseOf(Before(c, start, steps, m + 1), p).OpenRead?
    ensures Ended(c, Before(c, start, steps, m + 1).db)
            <==> Ended(c, Before(c, start, steps, m).db) || EndsElsewhere(c, start, steps, m)
  {
    BeforeNext(c, start, steps, m);
    InvHolds(c, start, steps[..m]);
    var s := Before(c, start, steps, m);
    if steps[m].Elsewhere? && Ended(c, s.db) && TripStep(s.db.assignments, steps[m].after.assignments) {
      assert RowStep(s.db.assignments[c.trip], steps[m].after.assignments[c.trip]);
    }
    if steps[m].Commit? && steps[m].call in s.phases {
      assert CallInv(c, s, steps[m].call, s.phases[steps[m].call]) && CallInv(c, s, p, s.phases[p]);
    }
  }

  lemma {:induction false} FindEnding(c: Calls, start: Db, steps: seq<Step>, r: nat, n: nat, p: Id) returns (m: nat)
    requires DistinctHolders(c) && WantsTerminal(c) && r < n <= |steps|
    requires steps[r] == ReadRow(p) && IsOpen(c, Before(c, start, steps, r).db)
    requires forall i | r < i <= n :: PhaseOf(Before(c, start, steps, i), p).OpenRead?
    requires Ended(c, Before(c, start, steps, n).db)
    ensures r < m < n && EndsElsewhere(c, start, steps, m)
    decreases n
  {
    m := n - 1;
    BeforeNext(c, start, steps, m);
    if m > r {
      OnlyElsewhereEnds(c, start, steps, m, p);
      if Ended(c, Before(c, start, steps, m).db) {
        m := FindEnding(c, start, steps, r, m, p);
      }
    }
  }

  lemma EndedStep(c: Calls, s: State, step: Step)
    requires Ended(c, s.db)
    ensures Ended(c, Next(c, s, step).db)
  {
    if step.Elsewhere? && TripStep(s.db.assignments, step.after.assignments) {
      assert RowStep(s.db.assignments[c.trip], step.after.assignments[c.trip]);
    }
  }

  lemma {:induction false} EndedStays(c: Calls, start: Db, steps: seq<Step>, i: nat, n: nat)
    requires i <= n <= |steps| && Ended(c, Before(c, start, steps, i).db)
    ensures Ended(c, Before(c, start, steps, n).db)
    decreases n
  {
    if i < n {
      EndedStays(c, start, steps, i, n - 1);
      BeforeNext(c, start, steps, n - 1);
      EndedStep(c, Before(c, start, steps, n - 1), steps[n - 1]);
    }
  }

  lemma {:induction false} CommitBefore(c: Calls, start: Db, steps: seq<Step>, n: nat, p: Id, won: bool)
    returns (k: nat)
    requires n <= |steps|
    requires PhaseOf(Before(c, start, steps, n), p) == Committed(won) || (p, won) in Before(c, start, steps, n).effects
    ensures k < n && steps[k] == Commit(p) && PhaseOf(Before(c, start, steps, k), p).OpenRead?
    ensures PhaseOf(Before(c, start, steps, k + 1), p) == Committed(won)
    decreases n
  {
    k := n - 1;
    BeforeNext(c, start, steps, k);
    var s := Before(c, start, steps, k);
    if PhaseOf(s, p) == Committed(won) || (p, won) in s.effects {
      k := CommitBefore(c, start, steps, k, p, won);
    }
  }

  lemma EndedInWindowIff(c: Calls, start: Db, steps: seq<Step>, p: Id, r: nat, k: nat)
    requires DistinctHolders(c) && WantsTerminal(c) && IsWindow(c, start, steps, p, r, k)
    ensures Ended(c, Before(c, start, steps, k).db) <==> exists m | r < m < k :: EndsElsewhere(c, start, steps, m)
  {
    if Ended(c, Before(c, start, steps, k).db) {
      var _ := FindEnding(c, start, steps, r, k, p);
    }
    if m :| r < m < k && EndsElsewhere(c, start, steps, m) {
      EndedStays(c, start, steps, m + 1, k);
    }
  }

  /** A call whose effects run has read an open trip and then run its transaction, and that transaction had lost if and
      only if another service ended the trip in between: exactly then the effects of a delivery run for a trip that was
      not delivered by the call. */
  lemma EffectsOfLostTransactionIff(c: Calls, start: Db, steps: seq<Step>, p: Id, won: bool) returns (r: nat, k: nat)
    requires DistinctHolders(c) && WantsTerminal(c) && (p, won) in Run(c, start, steps).effects
    ensures IsWindow(c, start, steps, p, r, k)
    ensures !won <==> exists m | r < m < k :: EndsElsewhere(c, start, steps, m)
  {
    assert steps[..|steps|] == steps;
    k := CommitBefore(c, start, steps, |steps|, p, won);
    r := ReadBefore(c, start, steps, k, p);
    BeforeNext(c, start, steps, k);
    WinFreesVehicle(c, start, steps[..k], p);
    EndedInWindowIff(c, start, steps, p, r, k);
  }

  lemma RunSnoc(c: Calls, start: Db, steps: seq<Step>, step: Step)
    ensures Run(c, start, steps + [step]) == Next(c, Run(c, start, steps), step)
  {
  }

  /** Such a step makes it happen whenever it comes: the effects of the delivery run, and the tables stay as the other
      service left them. */
  lemma EffectsRunAfterLostTransaction(c: Calls, start: Db, p: Id, after: Db)
    requires IsOpen(c, start) && TripStep(start.assignments, after.assignments) && Ended(c, after)
    ensures var s := Run(c, start, [Acquire(p), ReadRow(p), Elsewhere(after), Commit(p), RunEffects(p)]);
            s.effects == [(p, false)] && s.db == after
  {
    var s1 := [Acquire(p)];
    var s2 := s1 + [ReadRow(p)];
    var s3 := s2 + [Elsewhere(after)];
    var s4 := s3 + [Commit(p)];
    RunSnoc(c, start, [], Acquire(p));
    assert [] + [Acquire(p)] == s1;
    RunSnoc(c, start, s1, ReadRow(p));
    RunSnoc(c, start, s2, Elsewhere(after));
    RunSnoc(c, start, s3, Commit(p));
    RunSnoc(c, start, s4, RunEffects(p));
    assert s4 + [RunEffects(p)] == [Acquire(p), ReadRow(p), Elsewhere(after), Commit(p), RunEffects(p)];
  }

  // ==== two calls under one holder id ====

  function Schedule(p: Id, q: Id): seq<Step> {
    [Acquire(p), Acquire(q), ReadRow(p), ReadRow(q), Commit(p), Commit(q), RunEffects(p), RunEffects(q)]
  }

  lemma SharedHolderBothRead(c: Calls, start: Db, p: Id, q: Id)
    requires p != q && c.holder(p) == c.holder(q) && IsOpen(c, start)
    ensures var row := start.assignments[c.trip];
            Run(c, start, [Acquire(p), Acquire(q), ReadRow(p), ReadRow(q)])
            == State(Some(c.holder(p)), start, map[p := OpenRead(row), q := OpenRead(row)], [])
  {
    RunSnoc(c, start, [], Acquire(p));
    assert [] + [Acquire(p)] == [Acquire(p)];
    RunSnoc(c, start, [Acquire(p)], Acquire(q));
    assert [Acquire(p)] + [Acquire(q)] == [Acquire(p), Acquire(q)];
    RunSnoc(c, start, [Acquire(p), Acquire(q)], ReadRow(p));
    assert [Acquire(p), Acquire(q)] + [ReadRow(p)] == [Acquire(p), Acquire(q), ReadRow(p)];
    RunSnoc(c, start, [Acquire(p), Acquire(q), ReadRow(p)], ReadRow(q));
    assert [Acquire(p), Acquire(q), ReadRow(p)] + [ReadRow(q)] == [Acquire(p), Acquire(q), ReadRow(p), ReadRow(q)];
  }

  /** Both get the lock, both read the open row, and both run the effects. */
  lemma SharedHolderRunsEffectsTwice(c: Calls, start: Db, p: Id, q: Id)
    requires p != q && c.holder(p) == c.holder(q) && IsOpen(c, start) && WantsTerminal(c)
    ensures Run(c, start, Schedule(p, q)).effects == [(p, true), (q, false)]
  {
    SharedHolderBothRead(c, start, p, q);
    var s4 := [Acquire(p), Acquire(q), ReadRow(p), ReadRow(q)];
    var s5 := s4 + [Commit(p)];
    var s6 := s5 + [Commit(q)];
    var s7 := s6 + [RunEffects(p)];
    RunSnoc(c, start, s4, Commit(p));
    RunSnoc(c, start, s5, Commit(q));
    RunSnoc(c, start, s6, RunEffects(p));
    RunSnoc(c, start, s7, RunEffects(q));
    assert s7 + [RunEffects(q)] == Schedule(p, q);
  }

  /** The holder id is built from the process id and the millisecond. The effects run at most once in every interleaving
      if and only if no two calls share it. */
  lemma EffectsOnceIffHoldersDistinct(c: Calls)
    requires WantsTerminal(c)
    ensures (forall start, steps :: |Run(c, start, steps).effects| <= 1) <==> DistinctHolders(c)
  {
    if DistinctHolders(c) {
      forall start, steps
        ensures |Run(c, start, steps).effects| <= 1
      {
        EffectsAtMostOnce(c, start, steps);
      }
    } else {
      var p, q :| c.holder(p) == c.holder(q) && p != q;
      var start := Db(map[c.trip := Assignment(1, 5, 3, 4, 11, Pending)], map[], map[], map[]);
      assert IsOpen(c, start);
      SharedHolderRunsEffectsTwice(c, start, p, q);
      assert |Run(c, start, Schedule(p, q)).effects| == 2;
    }
  }
}
