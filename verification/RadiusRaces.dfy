/** Firings of one booking's radius timer, cut at their awaits: every server polls the timers, and fetching a timer,
    locking the booking, cancelling the timer, reading the notified set, sending, recording and scheduling are commands
    of their own. When is nobody told twice? */
module RadiusRaces {
  import opened Rows
  import opened Sequences
  import Radius

  /** `holder` is the lock holder of each firing. The rest is discipline: whether a firing goes on only if its
      cancelTimer deleted something (`claims`), whether a timer is fetched only when no other firing is under way
      (`serial`), and whether another service may clear the keys while one is (`midClears`). */
  datatype Protocol = Protocol(windows: seq<nat>, holder: Id -> Id, claims: bool, serial: bool, midClears: bool)

  /** The code: a constant holder, the answer of cancelTimer ignored, servers that poll independently, and cancel, fill
      and timeout clearing the keys when they please. */
  function Shipped(holder: Id): Protocol {
    Protocol(Radius.RADIUS_WINDOWS, _ => holder, false, false, true)
  }

  datatype Phase =
    | Idle
    | Fetched(timer: Radius.Timer)
    | Ready(timer: Radius.Timer)
    | Locked(timer: Radius.Timer)
    | Working(next: nat)
    | Chosen(next: nat, targets: seq<Id>, last: bool)
    | Sent(next: nat, targets: seq<Id>, last: bool)
    | Recorded(next: nat)
    | Releasing
    | Finished

  /** `queued`: the timer's key is in the sorted set the pollers look at. `expanded` lists the steps that were sent, in
      order, and `fallbacks` counts the database fallbacks. */
  datatype State = State(
    lock: Option<Id>,
    timer: Option<Radius.Timer>,
    queued: bool,
    notified: set<Id>,
    sent: seq<Id>,
    expanded: seq<nat>,
    fallbacks: nat,
    phases: map<Id, Phase>)

  /** The last four are another service's clearBookingTimers: all its deletions at once, or one of them at a time. */
  datatype Step =
    | Fetch(firing: Id, now: int)
    | Dequeue(firing: Id)
    | Acquire(firing: Id)
    | Cancel(firing: Id)
    | ReadSet(firing: Id, world: Radius.World)
    | Send(firing: Id, stillOpen: bool)
    | Record(firing: Id)
    | Schedule(firing: Id, now: int)
    | Release(firing: Id)
    | ClearKeys
    | ClearTimer
    | ClearQueue
    | ClearSet

  function PhaseOf(s: State, p: Id): Phase {
    if p in s.phases then s.phases[p] else Idle
  }

  function Move(s: State, p: Id, phase: Phase): State {
    s.(phases := s.phases[p := phase])
  }

  predicate AllQuiet(s: State) {
    forall p | p in s.phases :: s.phases[p].Idle? || s.phases[p].Finished?
  }

  function Cleared(s: State): State {
    s.(timer := None, queued := false, notified := {})
  }

  function Next(c: Protocol, s: State, step: Step): State {
    match step
    case Fetch(p, now) =>
      if PhaseOf(s, p).Idle? && s.queued && s.timer.Some? && now >= s.timer.value.due && (c.serial ==> AllQuiet(s))
      then Move(s, p, Fetched(s.timer.value)) else s
    case Dequeue(p) =>
      if !PhaseOf(s, p).Fetched? then s else Move(s, p, Ready(PhaseOf(s, p).timer)).(queued := false)
    case Acquire(p) =>
      if !PhaseOf(s, p).Ready? then s
      else if CanLock(s.lock, c.holder(p)) then Move(s, p, Locked(PhaseOf(s, p).timer)).(lock := Some(c.holder(p)))
      else Move(s, p, Finished)
    case Cancel(p) =>
      if !PhaseOf(s, p).Locked? then s
      else if c.claims && s.timer.None? then Move(s, p, Releasing)
      else Move(s, p, Working(PhaseOf(s, p).timer.currentStep + 1)).(timer := None, queued := false)
    case ReadSet(p, w) =>
      if !PhaseOf(s, p).Working? || !Radius.WorldIsSound(s.notified, w) then s
      else if !w.open then Cleared(Move(s, p, Releasing))
      else if PhaseOf(s, p).next >= |c.windows| then
        Move(s, p, Chosen(PhaseOf(s, p).next, Radius.FallbackTargets(s.notified, w), true))
      else Move(s, p, Chosen(PhaseOf(s, p).next, Radius.Newcomers(w), false))
    case Send(p, stillOpen) =>
      if !PhaseOf(s, p).Chosen? then s
      else
        var Chosen(next, targets, last) := PhaseOf(s, p);
        if !last && targets != [] && !stillOpen then Cleared(Move(s, p, Releasing))
        else
          Move(s, p, Sent(next, targets, last)).(
            sent := s.sent + targets,
            expanded := if last then s.expanded else s.expanded + [next],
            fallbacks := if last then s.fallbacks + 1 else s.fallbacks)
    case Record(p) =>
      if !PhaseOf(s, p).Sent? then s
      else if PhaseOf(s, p).last then Cleared(Move(s, p, Releasing))
      else Move(s, p, Recorded(PhaseOf(s, p).next)).(notified := s.notified + ToSet(PhaseOf(s, p).targets))
    case Schedule(p, now) =>
      if !PhaseOf(s, p).Recorded? || PhaseOf(s, p).next >= |c.windows| then s
      else
        var next := PhaseOf(s, p).next;
        Move(s, p, Releasing).(timer := Some(Radius.Timer(next, now + c.windows[next])), queued := true)
    case Release(p) =>
      if !PhaseOf(s, p).Releasing? then s
      else Move(s, p, Finished).(lock := if s.lock == Some(c.holder(p)) then None else s.lock)
    case ClearKeys => if c.midClears || AllQuiet(s) then Cleared(s) else s
    case ClearTimer => if c.midClears then s.(timer := None) else s
    case ClearQueue => if c.midClears then s.(queued := false) else s
    case ClearSet => if c.midClears then s.(notified := {}) else s
  }

  function Run(c: Protocol, s: State, steps: seq<Step>): State
    decreases |steps|
  {
    if steps == [] then s else Run(c, Next(c, s, steps[0]), steps[1..])
  }

  /** After the initial broadcast: whoever was told is in the set, and the first timer is set. */
  predicate IsStart(c: Protocol, s: State) {
    && |c.windows| >= 2 && s.lock == None && s.phases == map[] && s.queued
    && s.timer.Some? && s.timer.value.currentStep == 0
    && NoDuplicates(s.sent) && ToSet(s.sent) <= s.notified
    && s.expanded == [] && s.fallbacks == 0
  }

  // ==== one firing alone ====

  function Opening(p: Id, now: int): seq<Step> {
    [Fetch(p, now), Dequeue(p), Acquire(p), Cancel(p)]
  }

  function Work(p: Id, w: Radius.World, now: int): seq<Step> {
    [ReadSet(p, w), Send(p, w.stillOpen), Record(p), Schedule(p, now), Release(p)]
  }

  lemma Unroll2(c: Protocol, s: State, a: Step, b: Step)
    ensures Run(c, s, [a, b]) == Next(c, Next(c, s, a), b)
  {
    var s1 := Next(c, s, a);
    assert [a, b][1..] == [b] && [b][1..] == [];
    assert Run(c, s1, [b]) == Next(c, s1, b);
  }

  lemma Unroll4(c: Protocol, s: State, a: Step, b: Step, d: Step, e: Step)
    ensures Run(c, s, [a, b, d, e]) == Next(c, Next(c, Next(c, Next(c, s, a), b), d), e)
  {
    var s1 := Next(c, s, a);
    var s2 := Next(c, s1, b);
    assert [a, b, d, e][1..] == [b, d, e] && [b, d, e][1..] == [d, e];
    Unroll2(c, s2, d, e);
    assert Run(c, s1, [b, d, e]) == Run(c, s2, [d, e]);
  }

  lemma {:induction false} RunConcat(c: Protocol, s: State, a: seq<Step>, b: seq<Step>)
    ensures Run(c, s, a + b) == Run(c, Run(c, s, a), b)
    decreases |a|
  {
    if a == [] {
      assert a + b == b;
    } else {
      assert (a + b)[1..] == a[1..] + b;
      RunConcat(c, Next(c, s, a[0]), a[1..], b);
    }
  }

  /** The atomic firing of module Radius, from the timer data of step `next - 1`. */
  function Atomic(c: Protocol, s: State, next: nat, now: int, w: Radius.World): Radius.State
    requires next > 0
  {
    Radius.Advance(c.windows, Radius.State(Some(Radius.Timer(next - 1, 0)), s.notified, s.sent, 0, 0), now, w)
  }

  predicate IsDone(c: Protocol, s: State, p: Id, next: nat, after: State, r: Radius.State) {
    && after.timer == r.timer && after.notified == r.notified && after.sent == r.sent
    && after.expanded == (if r.expansions == 0 then s.expanded else s.expanded + [next])
    && after.fallbacks == s.fallbacks + r.fallbacks
    && after.queued == r.timer.Some? && after.phases == s.phases[p := Finished]
    && after.lock == if s.lock == Some(c.holder(p)) then None else s.lock
  }

  lemma ReadThenRest(c: Protocol, s: State, p: Id, w: Radius.World, now: int)
    ensures var s1 := Next(c, s, ReadSet(p, w));
            Run(c, s, Work(p, w, now))
            == Next(c, Next(c, Next(c, Next(c, s1, Send(p, w.stillOpen)), Record(p)), Schedule(p, now)), Release(p))
  {
    var s1 := Next(c, s, ReadSet(p, w));
    assert Work(p, w, now)[1..] == [Send(p, w.stillOpen), Record(p), Schedule(p, now), Release(p)];
    Unroll4(c, s1, Send(p, w.stillOpen), Record(p), Schedule(p, now), Release(p));
  }

  lemma WorkOfClosed(c: Protocol, s: State, p: Id, next: nat, w: Radius.World, now: int)
    requires PhaseOf(s, p) == Working(next) && next > 0 && Radius.WorldIsSound(s.notified, w)
    requires s.timer == None && !s.queued && !w.open
    ensures IsDone(c, s, p, next, Run(c, s, Work(p, w, now)), Atomic(c, s, next, now, w))
  {
    ReadThenRest(c, s, p, w, now);
    assert Next(c, s, ReadSet(p, w)).phases[p := Finished] == s.phases[p := Finished];
  }

  lemma WorkOfLast(c: Protocol, s: State, p: Id, next: nat, w: Radius.World, now: int)
    requires PhaseOf(s, p) == Working(next) && next > 0 && Radius.WorldIsSound(s.notified, w)
    requires s.timer == None && !s.queued && w.open && next >= |c.windows|
    ensures IsDone(c, s, p, next, Run(c, s, Work(p, w, now)), Atomic(c, s, next, now, w))
  {
    ReadThenRest(c, s, p, w, now);
    var s1 := Next(c, s, ReadSet(p, w));
    var s3 := Next(c, Next(c, s1, Send(p, w.stillOpen)), Record(p));
    assert PhaseOf(s3, p) == Releasing && s3.phases[p := Finished] == s.phases[p := Finished];
  }

  lemma WorkStopped(c: Protocol, s: State, p: Id, next: nat, w: Radius.World, now: int)
    requires PhaseOf(s, p) == Working(next) && next > 0 && Radius.WorldIsSound(s.notified, w)
    requires s.timer == None && !s.queued && w.open && next < |c.windows|
    requires Radius.Newcomers(w) != [] && !w.stillOpen
    ensures IsDone(c, s, p, next, Run(c, s, Work(p, w, now)), Atomic(c, s, next, now, w))
  {
    ReadThenRest(c, s, p, w, now);
    var s2 := Next(c, Next(c, s, ReadSet(p, w)), Send(p, w.stillOpen));
    assert PhaseOf(s2, p) == Releasing && s2.phases[p := Finished] == s.phases[p := Finished];
  }

  lemma WorkOfStep(c: Protocol, s: State, p: Id, next: nat, w: Radius.World, now: int)
    requires PhaseOf(s, p) == Working(next) && next > 0 && Radius.WorldIsSound(s.notified, w)
    requires s.timer == None && !s.queued && w.open && next < |c.windows|
    requires Radius.Newcomers(w) == [] || w.stillOpen
    ensures IsDone(c, s, p, next, Run(c, s, Work(p, w, now)), Atomic(c, s, next, now, w))
  {
    ReadThenRest(c, s, p, w, now);
    var n := Radius.Newcomers(w);
    var s2 := Next(c, Next(c, s, ReadSet(p, w)), Send(p, w.stillOpen));
    assert PhaseOf(s2, p) == Sent(next, n, false) && s2.sent == s.sent + n && s2.expanded == s.expanded + [next];
    var s4 := Next(c, Next(c, s2, Record(p)), Schedule(p, now));
    assert PhaseOf(s4, p) == Releasing && s4.phases[p := Finished] == s.phases[p := Finished];
  }

  lemma WorkIsAtomic(c: Protocol, s: State, p: Id, next: nat, w: Radius.World, now: int)
    requires PhaseOf(s, p) == Working(next) && next > 0 && Radius.WorldIsSound(s.notified, w)
    requires s.timer == None && !s.queued
    ensures IsDone(c, s, p, next, Run(c, s, Work(p, w, now)), Atomic(c, s, next, now, w))
  {
    if !w.open {
      WorkOfClosed(c, s, p, next, w, now);
    } else if next >= |c.windows| {
      WorkOfLast(c, s, p, next, w, now);
    } else if Radius.Newcomers(w) != [] && !w.stillOpen {
      WorkStopped(c, s, p, next, w, now);
    } else {
      WorkOfStep(c, s, p, next, w, now);
    }
  }

  lemma OpeningWorks(c: Protocol, s: State, p: Id, now: int)
    requires AllQuiet(s) && s.lock == None && PhaseOf(s, p).Idle? && s.queued
    requires s.timer.Some? && now >= s.timer.value.due
    ensures Run(c, s, Opening(p, now))
            == Move(s, p, Working(s.timer.value.currentStep + 1)).(
                 lock := Some(c.holder(p)), timer := None, queued := false)
  {
    Unroll4(c, s, Fetch(p, now), Dequeue(p), Acquire(p), Cancel(p));
  }

  /** A firing that nothing interrupts does what module Radius says in one step, under every protocol. */
  lemma UninterruptedFiringIsAtomic(c: Protocol, s: State, p: Id, now: int, w: Radius.World)
    requires AllQuiet(s) && s.lock == None && PhaseOf(s, p).Idle? && s.queued
    requires s.timer.Some? && now >= s.timer.value.due && Radius.WorldIsSound(s.notified, w)
    ensures var after := Run(c, s, Opening(p, now) + Work(p, w, now));
            var next := s.timer.value.currentStep + 1;
            && IsDone(c, s, p, next, after, Atomic(c, s, next, now, w))
            && AllQuiet(after) && after.lock == None
  {
    OpeningWorks(c, s, p, now);
    RunConcat(c, s, Opening(p, now), Work(p, w, now));
    WorkIsAtomic(c, Run(c, s, Opening(p, now)), p, s.timer.value.currentStep + 1, w, now);
  }

  // ==== every interleaving, under discipline ====

  /** A deletion by another service. */
  predicate IsClear(step: Step) {
    step.ClearKeys? || step.ClearTimer? || step.ClearQueue? || step.ClearSet?
  }

  predicate IsDisciplined(c: Protocol) {
    (c.claims || c.serial) && !c.midClears
  }

  predicate IsWorking(phase: Phase) {
    phase.Working? || phase.Chosen? || phase.Sent? || phase.Recorded?
  }

  /** Between cancelling the timer and setting the next one a firing is alone, and the set covers whoever was told, its
      own targets aside. */
  predicate FiringInv(s: State, phase: Phase) {
    && (IsWorking(phase) ==> s.timer == None)
    && match phase
       case Chosen(_, targets, _) =>
         ToSet(s.sent) <= s.notified && NoDuplicates(targets) && ToSet(targets) !! s.notified
       case Sent(_, targets, _) => ToSet(s.sent) <= s.notified + ToSet(targets)
       case _ => IsWorking(phase) ==> ToSet(s.sent) <= s.notified
  }

  predicate IsQuiet(phase: Phase) {
    phase.Idle? || phase.Finished?
  }

  ghost predicate Inv(c: Protocol, s: State) {
    && NoDuplicates(s.sent)
    && (s.timer.Some? ==> ToSet(s.sent) <= s.notified)
    && (forall p | p in s.phases :: FiringInv(s, s.phases[p]))
    && (forall p, q | p in s.phases && q in s.phases ::
          IsWorking(s.phases[p]) && IsWorking(s.phases[q]) ==> p == q)
    && (!c.claims ==>
          && (forall p, q | p in s.phases && q in s.phases ::
                !IsQuiet(s.phases[p]) && !IsQuiet(s.phases[q]) ==> p == q)
          && (forall p | p in s.phases ::
                s.phases[p].Fetched? || s.phases[p].Ready? || s.phases[p].Locked? ==> s.timer.Some?))
  }

  lemma NewcomersAreNew(notified: set<Id>, w: Radius.World)
    requires Radius.WorldIsSound(notified, w)
    ensures NoDuplicates(Radius.Newcomers(w)) && ToSet(Radius.Newcomers(w)) !! notified
  {
    KeepInIsFilter(w.candidates, w.online);
    assert ToSet(Radius.Newcomers(w)) <= ToSet(w.candidates);
  }

  lemma FallbackTargetsAreNew(notified: set<Id>, w: Radius.World)
    requires Radius.WorldIsSound(notified, w)
    ensures NoDuplicates(Radius.FallbackTargets(notified, w)) && ToSet(Radius.FallbackTargets(notified, w)) !! notified
  {
    KeepInIsFilter(w.fromDb, w.online);
    var online := Take(KeepIn(w.fromDb, w.online), Radius.FALLBACK_CAP);
    DropInIsFilter(online, notified);
    DropInIsFilter(DropIn(online, notified), w.tooFar);
  }

  lemma ChooseKeepsInv(c: Protocol, s: State, p: Id, next: nat, targets: seq<Id>, last: bool)
    requires IsDisciplined(c) && Inv(c, s) && PhaseOf(s, p).Working?
    requires NoDuplicates(targets) && ToSet(targets) !! s.notified
    ensures Inv(c, Move(s, p, Chosen(next, targets, last)))
  {
    assert FiringInv(s, s.phases[p]);
  }

  lemma StopKeepsInv(c: Protocol, s: State, p: Id)
    requires IsDisciplined(c) && Inv(c, s) && IsWorking(PhaseOf(s, p))
    ensures Inv(c, Cleared(Move(s, p, Releasing)))
  {
  }

  lemma ReadKeepsInv(c: Protocol, s: State, p: Id, w: Radius.World)
    requires IsDisciplined(c) && Inv(c, s) && PhaseOf(s, p).Working? && Radius.WorldIsSound(s.notified, w)
    ensures Inv(c, Next(c, s, ReadSet(p, w)))
  {
    var next := PhaseOf(s, p).next;
    if !w.open {
      StopKeepsInv(c, s, p);
    } else if next >= |c.windows| {
      FallbackTargetsAreNew(s.notified, w);
      ChooseKeepsInv(c, s, p, next, Radius.FallbackTargets(s.notified, w), true);
    } else {
      NewcomersAreNew(s.notified, w);
      ChooseKeepsInv(c, s, p, next, Radius.Newcomers(w), false);
    }
  }

  lemma SentKeepsInv(c: Protocol, s: State, p: Id, next: nat, targets: seq<Id>, last: bool, after: State)
    requires IsDisciplined(c) && Inv(c, s) && PhaseOf(s, p) == Chosen(next, targets, last)
    requires after.timer == s.timer && after.notified == s.notified && after.sent == s.sent + targets
    requires after.phases == s.phases[p := Sent(next, targets, last)]
    ensures Inv(c, after)
  {
    assert FiringInv(s, s.phases[p]);
    AppendDisjoint(s.sent, targets);
  }

  lemma SendKeepsInv(c: Protocol, s: State, p: Id, stillOpen: bool)
    requires IsDisciplined(c) && Inv(c, s) && PhaseOf(s, p).Chosen?
    ensures Inv(c, Next(c, s, Send(p, stillOpen)))
  {
    var Chosen(next, targets, last) := PhaseOf(s, p);
    if !last && targets != [] && !stillOpen {
      StopKeepsInv(c, s, p);
    } else {
      SentKeepsInv(c, s, p, next, targets, last, Next(c, s, Send(p, stillOpen)));
    }
  }

  lemma FetchKeepsInv(c: Protocol, s: State, p: Id, now: int)
    requires IsDisciplined(c) && Inv(c, s)
    ensures Inv(c, Next(c, s, Fetch(p, now)))
  {
  }

  lemma DequeueKeepsInv(c: Protocol, s: State, p: Id)
    requires IsDisciplined(c) && Inv(c, s)
    ensures Inv(c, Next(c, s, Dequeue(p)))
  {
  }

  lemma AcquireKeepsInv(c: Protocol, s: State, p: Id)
    requires IsDisciplined(c) && Inv(c, s)
    ensures Inv(c, Next(c, s, Acquire(p)))
  {
  }

  lemma CancelKeepsInv(c: Protocol, s: State, p: Id)
    requires IsDisciplined(c) && Inv(c, s)
    ensures Inv(c, Next(c, s, Cancel(p)))
  {
  }

  lemma RecordKeepsInv(c: Protocol, s: State, p: Id)
    requires IsDisciplined(c) && Inv(c, s)
    ensures Inv(c, Next(c, s, Record(p)))
  {
  }

  lemma ScheduleKeepsInv(c: Protocol, s: State, p: Id, now: int)
    requires IsDisciplined(c) && Inv(c, s)
    ensures Inv(c, Next(c, s, Schedule(p, now)))
  {
  }

  lemma EndKeepsInv(c: Protocol, s: State, step: Step)
    requires IsDisciplined(c) && Inv(c, s) && (step.Release? || IsClear(step))
    ensures Inv(c, Next(c, s, step))
  {
  }

  lemma InvStep(c: Protocol, s: State, step: Step)
    requires IsDisciplined(c) && Inv(c, s)
    ensures Inv(c, Next(c, s, step))
  {
    if step.Fetch? {
      FetchKeepsInv(c, s, step.firing, step.now);
    } else if step.Dequeue? {
      DequeueKeepsInv(c, s, step.firing);
    } else if step.Acquire? {
      AcquireKeepsInv(c, s, step.firing);
    } else if step.Cancel? {
      CancelKeepsInv(c, s, step.firing);
    } else if step.ReadSet? {
      if PhaseOf(s, step.firing).Working? && Radius.WorldIsSound(s.notified, step.world) {
        ReadKeepsInv(c, s, step.firing, step.world);
      }
    } else if step.Send? {
      if PhaseOf(s, step.firing).Chosen? {
        SendKeepsInv(c, s, step.firing, step.stillOpen);
      }
    } else if step.Record? {
      RecordKeepsInv(c, s, step.firing);
    } else if step.Schedule? {
      ScheduleKeepsInv(c, s, step.firing, step.now);
    } else {
      EndKeepsInv(c, s, step);
    }
  }

  lemma {:induction false} DisciplineSuffices(c: Protocol, s: State, steps: seq<Step>)
    requires IsDisciplined(c) && Inv(c, s)
    ensures NoDuplicates(Run(c, s, steps).sent)
    decreases |steps|
  {
    if steps != [] {
      InvStep(c, s, steps[0]);
      DisciplineSuffices(c, Next(c, s, steps[0]), steps[1..]);
    }
  }

  // ==== runs in which somebody is told twice ====

  /** Two servers fetch the same timer before either has taken it off the queue. */
  function BothPoll(p: Id, q: Id, now: int): seq<Step> {
    [Fetch(p, now), Fetch(q, now), Dequeue(p), Dequeue(q)]
  }

  lemma BothHaveTimer(c: Protocol, s: State, p: Id, q: Id, now: int)
    requires !c.serial && p != q && PhaseOf(s, p).Idle? && PhaseOf(s, q).Idle?
    requires s.queued && s.timer.Some? && now >= s.timer.value.due
    ensures Run(c, s, BothPoll(p, q, now)) == Polled(s, p, q)
  {
    var t := s.timer.value;
    Unroll4(c, s, Fetch(p, now), Fetch(q, now), Dequeue(p), Dequeue(q));
    assert s.phases[p := Fetched(t)][q := Fetched(t)][p := Ready(t)][q := Ready(t)]
        == s.phases[p := Ready(t)][q := Ready(t)];
  }

  /** From a fetched timer on, one firing after the other. */
  function Rest(p: Id, w: Radius.World, now: int): seq<Step> {
    [Acquire(p), Cancel(p)] + Work(p, w, now)
  }

  lemma ClaimWorks(c: Protocol, s: State, p: Id, t: Radius.Timer)
    requires PhaseOf(s, p) == Ready(t) && s.lock == None && (c.claims ==> s.timer.Some?)
    ensures Run(c, s, [Acquire(p), Cancel(p)])
            == s.(lock := Some(c.holder(p)), timer := None, queued := false,
                  phases := s.phases[p := Working(t.currentStep + 1)])
  {
    Unroll2(c, s, Acquire(p), Cancel(p));
    assert s.phases[p := Locked(t)][p := Working(t.currentStep + 1)] == s.phases[p := Working(t.currentStep + 1)];
  }

  lemma RestIsAtomic(c: Protocol, s: State, p: Id, t: Radius.Timer, w: Radius.World, now: int)
    requires PhaseOf(s, p) == Ready(t) && s.lock == None && (c.claims ==> s.timer.Some?)
    requires Radius.WorldIsSound(s.notified, w)
    ensures var after := Run(c, s, Rest(p, w, now));
            var next := t.currentStep + 1;
            IsDone(c, s, p, next, after, Atomic(c, s, next, now, w)) && after.lock == None
  {
    ClaimWorks(c, s, p, t);
    RunConcat(c, s, [Acquire(p), Cancel(p)], Work(p, w, now));
    var s1 := Run(c, s, [Acquire(p), Cancel(p)]);
    WorkIsAtomic(c, s1, p, t.currentStep + 1, w, now);
    assert s1.phases[p := Finished] == s.phases[p := Finished];
  }

  function OneAfterTheOther(p: Id, q: Id, now: int, w: Radius.World, w': Radius.World): seq<Step> {
    BothPoll(p, q, now) + (Rest(p, w, now) + Rest(q, w', now))
  }

  lemma TwoRests(c: Protocol, s: State, p: Id, q: Id, t: Radius.Timer, now: int, w: Radius.World, w': Radius.World)
    requires p != q && PhaseOf(s, p) == PhaseOf(s, q) == Ready(t) && s.lock == None && s.timer.Some?
    requires Radius.WorldIsSound(s.notified, w)
    requires var first := Atomic(c, s, t.currentStep + 1, now, w);
             Radius.WorldIsSound(first.notified, w') && (c.claims ==> first.timer.Some?)
    ensures var next := t.currentStep + 1;
            var between, after := Run(c, s, Rest(p, w, now)), Run(c, s, Rest(p, w, now) + Rest(q, w', now));
            && IsDone(c, s, p, next, between, Atomic(c, s, next, now, w))
            && IsDone(c, between, q, next, after, Atomic(c, between, next, now, w')) && after.lock == None
  {
    RestIsAtomic(c, s, p, t, w, now);
    var between := Run(c, s, Rest(p, w, now));
    RestIsAtomic(c, between, q, t, w', now);
    RunConcat(c, s, Rest(p, w, now), Rest(q, w', now));
  }

  /** Both servers have fetched the timer, and neither has gone on. */
  function Polled(s: State, p: Id, q: Id): State
    requires s.timer.Some?
  {
    s.(queued := false, phases := s.phases[p := Ready(s.timer.value)][q := Ready(s.timer.value)])
  }

  /** The second firing runs when the first is over: the step of the first, again. The two never hold the lock
      together. */
  lemma SecondRepeatsStep(
    c: Protocol, s: State, p: Id, q: Id, now: int, w: Radius.World, w': Radius.World)
    requires !c.serial && p != q && PhaseOf(s, p).Idle? && PhaseOf(s, q).Idle? && s.lock == None
    requires s.queued && s.timer.Some? && now >= s.timer.value.due && Radius.WorldIsSound(s.notified, w)
    requires var first := Atomic(c, Polled(s, p, q), s.timer.value.currentStep + 1, now, w);
             Radius.WorldIsSound(first.notified, w') && (c.claims ==> first.timer.Some?)
    ensures var next, polled := s.timer.value.currentStep + 1, Polled(s, p, q);
            var between, after := Run(c, polled, Rest(p, w, now)), Run(c, s, OneAfterTheOther(p, q, now, w, w'));
            && IsDone(c, polled, p, next, between, Atomic(c, polled, next, now, w))
            && IsDone(c, between, q, next, after, Atomic(c, between, next, now, w')) && after.lock == None
  {
    BothHaveTimer(c, s, p, q, now);
    RunConcat(c, s, BothPoll(p, q, now), Rest(p, w, now) + Rest(q, w', now));
    TwoRests(c, Polled(s, p, q), p, q, s.timer.value, now, w, w');
  }

  /** The stale firing: the first clears the keys, and then the second, whose cancelTimer deletes nothing, goes on with
      an empty set. */
  lemma StaleFiringForgets(
    c: Protocol, s: State, p: Id, q: Id, now: int, w: Radius.World, w': Radius.World)
    requires !c.claims && !c.serial && p != q && PhaseOf(s, p).Idle? && PhaseOf(s, q).Idle? && s.lock == None
    requires s.queued && s.timer.Some? && now >= s.timer.value.due
    requires Radius.WorldIsSound(s.notified, w) && Radius.WorldIsSound({}, w')
    requires Atomic(c, Polled(s, p, q), s.timer.value.currentStep + 1, now, w).timer == None
    ensures var first := Atomic(c, Polled(s, p, q), s.timer.value.currentStep + 1, now, w);
            var stale := Radius.State(Some(s.timer.value), {}, first.sent, 0, 0);
            Run(c, s, OneAfterTheOther(p, q, now, w, w')).sent == Radius.Advance(c.windows, stale, now, w').sent
  {
    SecondRepeatsStep(c, s, p, q, now, w, w');
  }

  /** After the last step, with the booking open all along and whatever the holders: the database fallback runs twice,
      the second time for everyone. */
  lemma FallbackRunsTwice(c: Protocol, s: State, p: Id, q: Id, now: int, w: Radius.World, w': Radius.World)
    requires !c.claims && !c.serial && p != q && PhaseOf(s, p).Idle? && PhaseOf(s, q).Idle? && s.lock == None
    requires s.queued && s.timer.Some? && now >= s.timer.value.due && s.timer.value.currentStep + 1 == |c.windows|
    requires Radius.WorldIsSound(s.notified, w) && Radius.WorldIsSound({}, w') && w.open && w'.open
    ensures var after := Run(c, s, OneAfterTheOther(p, q, now, w, w'));
            && after.sent == s.sent + Radius.FallbackTargets(s.notified, w) + Radius.FallbackTargets({}, w')
            && after.fallbacks == s.fallbacks + 2
  {
    SecondRepeatsStep(c, s, p, q, now, w, w');
  }

  lemma BothSend(c: Protocol, s: State, p: Id, q: Id, next: nat, w: Radius.World)
    requires p != q && PhaseOf(s, p) == PhaseOf(s, q) == Working(next) && next < |c.windows|
    requires Radius.WorldIsSound(s.notified, w) && w.open
    ensures Run(c, s, [ReadSet(p, w), ReadSet(q, w), Send(p, true), Send(q, true)]).sent
            == s.sent + Radius.Newcomers(w) + Radius.Newcomers(w)
  {
    Unroll4(c, s, ReadSet(p, w), ReadSet(q, w), Send(p, true), Send(q, true));
  }

  /** Under one holder id the lock keeps nobody out: both read the set before either records, and both send to the same
      newcomers. */
  lemma SharedHolderTellsTwice(c: Protocol, s: State, p: Id, q: Id, now: int, w: Radius.World)
    requires !c.claims && !c.serial && p != q && PhaseOf(s, p).Idle? && PhaseOf(s, q).Idle? && s.lock == None
    requires c.holder(p) == c.holder(q)
    requires s.queued && s.timer.Some? && now >= s.timer.value.due && s.timer.value.currentStep + 1 < |c.windows|
    requires Radius.WorldIsSound(s.notified, w) && w.open && Radius.Newcomers(w) != []
    ensures var steps := BothPoll(p, q, now) + ([Acquire(p), Acquire(q), Cancel(p), Cancel(q)]
                           + [ReadSet(p, w), ReadSet(q, w), Send(p, true), Send(q, true)]);
            && Run(c, s, steps).sent == s.sent + Radius.Newcomers(w) + Radius.Newcomers(w)
            && !NoDuplicates(Run(c, s, steps).sent)
  {
    var t, n := s.timer.value, Radius.Newcomers(w);
    BothHaveTimer(c, s, p, q, now);
    var s1 := Run(c, s, BothPoll(p, q, now));
    Unroll4(c, s1, Acquire(p), Acquire(q), Cancel(p), Cancel(q));
    var locks := [Acquire(p), Acquire(q), Cancel(p), Cancel(q)];
    var s2 := Run(c, s1, locks);
    assert PhaseOf(s2, p) == PhaseOf(s2, q) == Working(t.currentStep + 1) && s2.notified == s.notified;
    BothSend(c, s2, p, q, t.currentStep + 1, w);
    var sends := [ReadSet(p, w), ReadSet(q, w), Send(p, true), Send(q, true)];
    RunConcat(c, s, BothPoll(p, q, now), locks + sends);
    RunConcat(c, s1, locks, sends);
    var sent := s.sent + n + n;
    assert sent[|s.sent|] == n[0] == sent[|s.sent| + |n|];
  }

  function ClearedUnder(p: Id, w: Radius.World, now: int): seq<Step> {
    [ReadSet(p, w), Send(p, true), Record(p), ClearKeys] + [Schedule(p, now), Release(p)]
  }

  lemma ClearedButScheduled(c: Protocol, s: State, p: Id, next: nat, now: int, w: Radius.World)
    requires c.midClears && PhaseOf(s, p) == Working(next) && next < |c.windows| && s.lock == Some(c.holder(p))
    requires Radius.WorldIsSound(s.notified, w) && w.open && Radius.Newcomers(w) == []
    ensures Run(c, s, ClearedUnder(p, w, now))
            == s.(lock := None, timer := Some(Radius.Timer(next, now + c.windows[next])), queued := true,
                  notified := {}, expanded := s.expanded + [next], phases := s.phases[p := Finished])
  {
    var told, ends := [ReadSet(p, w), Send(p, true), Record(p), ClearKeys], [Schedule(p, now), Release(p)];
    Unroll4(c, s, ReadSet(p, w), Send(p, true), Record(p), ClearKeys);
    var s1 := Run(c, s, told);
    assert PhaseOf(s1, p) == Recorded(next) && s1.notified == {} && s1.sent == s.sent;
    assert s1.phases[p := Releasing][p := Finished] == s.phases[p := Finished];
    Unroll2(c, s1, Schedule(p, now), Release(p));
    RunConcat(c, s, told, ends);
  }

  /** Another service clears the keys while a firing is between recording and scheduling; the firing sets its timer all
      the same, and the next one, though alone, finds an empty set. */
  lemma ClearedSetForgets(
    c: Protocol, s: State, p: Id, q: Id, now: int, later: int, w: Radius.World, w': Radius.World)
    requires c.midClears && p != q && AllQuiet(s) && PhaseOf(s, p).Idle? && PhaseOf(s, q).Idle? && s.lock == None
    requires s.queued && s.timer.Some? && now >= s.timer.value.due && s.timer.value.currentStep + 1 < |c.windows|
    requires later >= now + c.windows[s.timer.value.currentStep + 1]
    requires Radius.WorldIsSound(s.notified, w) && w.open && Radius.Newcomers(w) == []
    requires Radius.WorldIsSound({}, w')
    ensures var next := s.timer.value.currentStep + 1;
            Run(c, s, Opening(p, now) + (ClearedUnder(p, w, now) + (Opening(q, later) + Work(q, w', later)))).sent
            == Radius.Advance(
                 c.windows, Radius.State(Some(Radius.Timer(next, 0)), {}, s.sent, 0, 0), later, w').sent
  {
    var next := s.timer.value.currentStep + 1;
    var last := Opening(q, later) + Work(q, w', later);
    OpeningWorks(c, s, p, now);
    var s1 := Run(c, s, Opening(p, now));
    ClearedButScheduled(c, s1, p, next, now, w);
    var s2 := Run(c, s1, ClearedUnder(p, w, now));
    assert s2.phases == s.phases[p := Finished];
    UninterruptedFiringIsAtomic(c, s2, q, later, w');
    RunConcat(c, s, Opening(p, now), ClearedUnder(p, w, now) + last);
    RunConcat(c, s1, ClearedUnder(p, w, now), last);
  }

  // ==== exactly when ====

  ghost predicate NobodyToldTwice(c: Protocol) {
    forall s, steps | IsStart(c, s) :: NoDuplicates(Run(c, s, steps).sent)
  }

  /** One transporter, 7, told by the initial broadcast. */
  function ToldSeven(): State {
    State(None, Some(Radius.Timer(0, 0)), true, {7}, [7], [], 0, map[])
  }

  /** What a firing finds outside when 7 is near, online and known to the database. */
  function FindsSeven(open: bool): Radius.World {
    Radius.World(open, open, [7], {7}, [7], {})
  }

  lemma FindsSevenTargets()
    ensures Radius.Newcomers(FindsSeven(true)) == [7]
    ensures Radius.FallbackTargets({}, FindsSeven(true)) == [7]
  {
    var w := FindsSeven(true);
    assert w.candidates[1..] == [] && w.fromDb[1..] == [];
    assert KeepIn([7], {7}) == [7] && Take([7], Radius.FALLBACK_CAP) == [7];
    assert DropIn([7], {}) == [7];
  }

  lemma UnclaimedTellsSevenTwice(c: Protocol)
    requires |c.windows| >= 2 && !c.claims && !c.serial
    ensures !NobodyToldTwice(c)
  {
    var s, closed := ToldSeven(), Radius.World(false, false, [], {}, [], {});
    StaleFiringForgets(c, s, 1, 2, 0, closed, FindsSeven(true));
    FindsSevenTargets();
    var steps := OneAfterTheOther(1, 2, 0, closed, FindsSeven(true));
    var sent := Run(c, s, steps).sent;
    assert sent == [7] + [7];
    assert IsStart(c, s) && sent[0] == sent[1];
  }

  lemma ClearedTellsSevenTwice(c: Protocol)
    requires |c.windows| >= 2 && c.midClears
    ensures !NobodyToldTwice(c)
  {
    var s, nobody := ToldSeven(), Radius.World(true, true, [], {}, [], {});
    var later := c.windows[1];
    ClearedSetForgets(c, s, 1, 2, 0, later, nobody, FindsSeven(true));
    FindsSevenTargets();
    var steps := Opening(1, 0)
                 + (ClearedUnder(1, nobody, 0) + (Opening(2, later) + Work(2, FindsSeven(true), later)));
    var sent := Run(c, s, steps).sent;
    assert sent == [7] + [7];
    assert IsStart(c, s) && sent[0] == sent[1];
  }

  /** Nobody is told twice in every interleaving if and only if firings claim their timer or never overlap, and nobody
      clears the keys under a firing. The lock holder does not enter: a distinct holder for each firing is neither
      needed nor enough. */
  lemma NobodyToldTwiceIff(c: Protocol)
    requires |c.windows| >= 2
    ensures NobodyToldTwice(c) <==> IsDisciplined(c)
  {
    if IsDisciplined(c) {
      forall s, steps | IsStart(c, s)
        ensures NoDuplicates(Run(c, s, steps).sent)
      {
        DisciplineSuffices(c, s, steps);
      }
    } else if c.midClears {
      ClearedTellsSevenTwice(c);
    } else {
      UnclaimedTellsSevenTwice(c);
    }
  }

  /** The code has none of that discipline. */
  lemma ShippedTellsSomebodyTwice(holder: Id)
    ensures !NobodyToldTwice(Shipped(holder))
  {
    NobodyToldTwiceIff(Shipped(holder));
  }
}
