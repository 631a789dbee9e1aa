/** How often the steps of one booking's expansion, and its fallback, are carried out when firings interleave. */
module RadiusCounts {
  import opened Rows
  import opened Sequences
  import opened RadiusRaces
  import Radius

  /** The steps 1 to k, in order. */
  function Upto(k: nat): (q: seq<nat>)
    ensures |q| == k && forall i | 0 <= i < k :: q[i] == i + 1
  {
    if k == 0 then [] else Upto(k - 1) + [k]
  }

  // ==== serial firings ====

  /** Where firing `p`, the only one that may be under way, stands. */
  predicate AtStep(c: Protocol, s: State, phase: Phase) {
    match phase
    case Fetched(t) => t.currentStep == |s.expanded|
    case Ready(t) => t.currentStep == |s.expanded|
    case Locked(t) => t.currentStep == |s.expanded|
    case Working(next) => next == |s.expanded| + 1
    case Chosen(next, _, last) => next == |s.expanded| + 1 && (last <==> next >= |c.windows|)
    case Sent(next, _, last) => next == |s.expanded| + (if last then 1 else 0)
    case Recorded(next) => next == |s.expanded|
    case _ => true
  }

  /** The fallback is over, or just being sent. */
  predicate AfterFallback(phase: Phase) {
    (phase.Sent? && phase.last) || phase.Releasing? || IsQuiet(phase)
  }

  predicate SerialInv(c: Protocol, s: State, p: Id) {
    && (forall q | q in s.phases && q != p :: IsQuiet(s.phases[q]))
    && s.expanded == Upto(|s.expanded|) && |s.expanded| < |c.windows|
    && AtStep(c, s, PhaseOf(s, p))
    && (s.timer.Some? ==> s.timer.value.currentStep == |s.expanded| && !IsWorking(PhaseOf(s, p)))
    && s.fallbacks <= 1
    && (s.fallbacks == 1 ==> s.timer == None && AfterFallback(PhaseOf(s, p)))
    && (PhaseOf(s, p).Sent? && PhaseOf(s, p).last ==> s.fallbacks == 1)
  }

  /** The firing under way after a step. */
  function NextLive(c: Protocol, s: State, p: Id, step: Step): Id {
    if step.Fetch? && Next(c, s, step) != s then step.firing else p
  }

  lemma FetchKeepsSerial(c: Protocol, s: State, p: Id, step: Step)
    requires c.serial && SerialInv(c, s, p) && step.Fetch?
    ensures SerialInv(c, Next(c, s, step), NextLive(c, s, p, step))
  {
  }

  predicate IsOf(step: Step, p: Id) {
    IsClear(step) || step.firing == p
  }

  lemma QuietFiringsDoNothing(c: Protocol, s: State, p: Id, step: Step)
    requires SerialInv(c, s, p) && !step.Fetch? && !IsOf(step, p)
    ensures Next(c, s, step) == s
  {
  }

  lemma SendKeepsSerial(c: Protocol, s: State, p: Id, step: Step)
    requires c.serial && SerialInv(c, s, p) && step.Send? && IsOf(step, p)
    ensures SerialInv(c, Next(c, s, step), p)
  {
    assert Upto(|s.expanded| + 1) == Upto(|s.expanded|) + [|s.expanded| + 1];
  }

  lemma OpeningKeepsSerial(c: Protocol, s: State, p: Id, step: Step)
    requires c.serial && SerialInv(c, s, p) && IsOf(step, p) && (step.Dequeue? || step.Acquire? || step.Cancel?)
    ensures SerialInv(c, Next(c, s, step), p)
  {
  }

  lemma WorkKeepsSerial(c: Protocol, s: State, p: Id, step: Step)
    requires c.serial && SerialInv(c, s, p) && IsOf(step, p) && (step.ReadSet? || step.Record? || step.Schedule?)
    ensures SerialInv(c, Next(c, s, step), p)
  {
  }

  lemma EndKeepsSerial(c: Protocol, s: State, p: Id, step: Step)
    requires c.serial && SerialInv(c, s, p) && IsOf(step, p) && (step.Release? || IsClear(step))
    ensures SerialInv(c, Next(c, s, step), p)
  {
  }

  lemma SerialStep(c: Protocol, s: State, p: Id, step: Step)
    requires c.serial && SerialInv(c, s, p)
    ensures SerialInv(c, Next(c, s, step), NextLive(c, s, p, step))
  {
    if step.Fetch? {
      FetchKeepsSerial(c, s, p, step);
    } else if !IsOf(step, p) {
      QuietFiringsDoNothing(c, s, p, step);
    } else if step.Send? {
      SendKeepsSerial(c, s, p, step);
    } else if step.Dequeue? || step.Acquire? || step.Cancel? {
      OpeningKeepsSerial(c, s, p, step);
    } else if step.ReadSet? || step.Record? || step.Schedule? {
      WorkKeepsSerial(c, s, p, step);
    } else {
      EndKeepsSerial(c, s, p, step);
    }
  }

  lemma {:induction false} SerialRun(c: Protocol, s: State, p: Id, steps: seq<Step>) returns (live: Id)
    requires c.serial && SerialInv(c, s, p)
    ensures SerialInv(c, Run(c, s, steps), live)
    decreases |steps|
  {
    live := p;
    if steps != [] {
      SerialStep(c, s, p, steps[0]);
      live := SerialRun(c, Next(c, s, steps[0]), NextLive(c, s, p, steps[0]), steps[1..]);
    }
  }

  lemma StartIsSerial(c: Protocol, s: State)
    requires IsStart(c, s)
    ensures SerialInv(c, s, 0)
  {
  }

  // ==== the booking stays open ====

  /** Every status check finds the booking open, and no other service clears its keys. */
  predicate StaysOpen(steps: seq<Step>) {
    forall i | 0 <= i < |steps| :: KeepsOpen(steps[i])
  }

  predicate KeepsOpen(step: Step) {
    match step
    case ReadSet(_, w) => w.open
    case Send(_, stillOpen) => stillOpen
    case _ => !IsClear(step)
  }

  /** Nothing is under way, and no poller finds a timer. */
  predicate IsComplete(s: State) {
    AllQuiet(s) && !(s.queued && s.timer.Some?)
  }

  predicate IsOver(c: Protocol, s: State)
    requires |c.windows| > 0
  {
    s.timer == None && s.expanded == Upto(|c.windows| - 1) && s.fallbacks == 1
  }

  predicate HoldsLock(phase: Phase) {
    phase.Locked? || IsWorking(phase) || phase.Releasing?
  }

  /** Nothing gets lost: the expansion is over, or its timer is in the queue, or firing `p` has it in hand. */
  predicate LiveInv(c: Protocol, s: State, p: Id) {
    var phase := PhaseOf(s, p);
    && SerialInv(c, s, p) && |c.windows| > 0
    && s.lock == (if HoldsLock(phase) then Some(c.holder(p)) else None)
    && (IsQuiet(phase) || phase.Releasing? ==> IsOver(c, s) || (s.timer.Some? && s.queued && s.fallbacks == 0))
    && (phase.Fetched? || phase.Ready? || phase.Locked? ==> s.timer.Some? && s.fallbacks == 0)
    && (IsWorking(phase) && s.fallbacks == 1 ==> IsOver(c, s))
  }

  lemma PollKeepsLive(c: Protocol, s: State, p: Id, step: Step)
    requires c.serial && LiveInv(c, s, p) && (step.Fetch? || step.Dequeue? || step.Acquire?)
    ensures LiveInv(c, Next(c, s, step), NextLive(c, s, p, step))
  {
    SerialStep(c, s, p, step);
  }

  lemma CancelKeepsLive(c: Protocol, s: State, p: Id, step: Step)
    requires c.serial && LiveInv(c, s, p) && KeepsOpen(step) && (step.Cancel? || step.ReadSet?)
    ensures LiveInv(c, Next(c, s, step), p)
  {
    SerialStep(c, s, p, step);
    if !IsOf(step, p) {
      QuietFiringsDoNothing(c, s, p, step);
    }
  }

  lemma SendKeepsLive(c: Protocol, s: State, p: Id, step: Step)
    requires c.serial && LiveInv(c, s, p) && KeepsOpen(step) && (step.Send? || step.Record?)
    ensures LiveInv(c, Next(c, s, step), p)
  {
    SerialStep(c, s, p, step);
    if !IsOf(step, p) {
      QuietFiringsDoNothing(c, s, p, step);
    }
  }

  lemma EndKeepsLive(c: Protocol, s: State, p: Id, step: Step)
    requires c.serial && LiveInv(c, s, p) && (step.Schedule? || step.Release?)
    ensures LiveInv(c, Next(c, s, step), p)
  {
    SerialStep(c, s, p, step);
    if !IsOf(step, p) {
      QuietFiringsDoNothing(c, s, p, step);
    }
  }

  lemma {:induction false} LiveRun(c: Protocol, s: State, p: Id, steps: seq<Step>) returns (live: Id)
    requires c.serial && LiveInv(c, s, p) && StaysOpen(steps)
    ensures LiveInv(c, Run(c, s, steps), live)
    decreases |steps|
  {
    live := p;
    if steps != [] {
      assert KeepsOpen(steps[0]);
      if steps[0].Fetch? || steps[0].Dequeue? || steps[0].Acquire? {
        PollKeepsLive(c, s, p, steps[0]);
      } else if steps[0].Cancel? || steps[0].ReadSet? {
        CancelKeepsLive(c, s, p, steps[0]);
      } else if steps[0].Send? || steps[0].Record? {
        SendKeepsLive(c, s, p, steps[0]);
      } else {
        EndKeepsLive(c, s, p, steps[0]);
      }
      live := LiveRun(c, Next(c, s, steps[0]), NextLive(c, s, p, steps[0]), steps[1..]);
    }
  }

  // ==== claimed firings ====

  /** One firing works at a time, and after the fallback none can start: its timer is gone. */
  ghost predicate ClaimInv(s: State) {
    && s.fallbacks <= 1
    && (forall p, q | p in s.phases && q in s.phases ::
          IsWorking(s.phases[p]) && IsWorking(s.phases[q]) ==> p == q)
    && (forall p | p in s.phases && IsWorking(s.phases[p]) ::
          s.timer == None && (s.fallbacks == 1 ==> AfterFallback(s.phases[p])))
    && (s.fallbacks == 1 ==> s.timer == None)
    && (forall p | p in s.phases && s.phases[p].Sent? && s.phases[p].last :: s.fallbacks == 1)
  }

  lemma PollKeepsClaim(c: Protocol, s: State, step: Step)
    requires c.claims && ClaimInv(s) && (step.Fetch? || step.Dequeue? || step.Acquire?)
    ensures ClaimInv(Next(c, s, step))
  {
  }

  lemma CancelKeepsClaim(c: Protocol, s: State, step: Step)
    requires c.claims && ClaimInv(s) && step.Cancel?
    ensures ClaimInv(Next(c, s, step))
  {
  }

  lemma ReadKeepsClaim(c: Protocol, s: State, step: Step)
    requires c.claims && ClaimInv(s) && step.ReadSet?
    ensures ClaimInv(Next(c, s, step))
  {
  }

  lemma SendKeepsClaim(c: Protocol, s: State, step: Step)
    requires c.claims && ClaimInv(s) && step.Send?
    ensures ClaimInv(Next(c, s, step))
  {
  }

  lemma RecordKeepsClaim(c: Protocol, s: State, step: Step)
    requires c.claims && ClaimInv(s) && (step.Record? || step.Schedule?)
    ensures ClaimInv(Next(c, s, step))
  {
  }

  lemma EndKeepsClaim(c: Protocol, s: State, step: Step)
    requires c.claims && ClaimInv(s) && (step.Release? || IsClear(step))
    ensures ClaimInv(Next(c, s, step))
  {
  }

  lemma ClaimStep(c: Protocol, s: State, step: Step)
    requires c.claims && ClaimInv(s)
    ensures ClaimInv(Next(c, s, step))
  {
    if step.Fetch? || step.Dequeue? || step.Acquire? {
      PollKeepsClaim(c, s, step);
    } else if step.Cancel? {
      CancelKeepsClaim(c, s, step);
    } else if step.ReadSet? {
      ReadKeepsClaim(c, s, step);
    } else if step.Send? {
      SendKeepsClaim(c, s, step);
    } else if step.Record? || step.Schedule? {
      RecordKeepsClaim(c, s, step);
    } else {
      EndKeepsClaim(c, s, step);
    }
  }

  lemma {:induction false} ClaimRun(c: Protocol, s: State, steps: seq<Step>)
    requires c.claims && ClaimInv(s)
    ensures ClaimInv(Run(c, s, steps))
    decreases |steps|
  {
    if steps != [] {
      ClaimStep(c, s, steps[0]);
      ClaimRun(c, Next(c, s, steps[0]), steps[1..]);
    }
  }

  // ==== runs to the end ====

  function Nobody(): Radius.World {
    Radius.World(true, true, [], {}, [], {})
  }

  function Alone(p: Id, now: int): seq<Step> {
    Opening(p, now) + Work(p, Nobody(), now)
  }

  /** Nothing is under way, a timer waits in the queue, and firings from `p` on have not happened yet. */
  predicate IsWaiting(c: Protocol, s: State, p: Id) {
    && AllQuiet(s) && s.lock == None && s.queued && s.timer.Some? && s.timer.value.currentStep < |c.windows|
    && forall q | q in s.phases :: q < p
  }

  lemma AtomicOfNobody(c: Protocol, s: State, next: nat, now: int)
    requires next > 0
    ensures Radius.WorldIsSound(s.notified, Nobody())
    ensures Atomic(c, s, next, now, Nobody())
            == if next < |c.windows|
               then Radius.State(Some(Radius.Timer(next, now + c.windows[next])), s.notified, s.sent, 1, 0)
               else Radius.State(None, {}, s.sent, 0, 1)
  {
    assert Radius.Newcomers(Nobody()) == [];
    FallbackTargetsAreNew(s.notified, Nobody());
    assert Take(KeepIn([], {}), Radius.FALLBACK_CAP) == [] && DropIn([], s.notified) == [] && DropIn([], {}) == [];
  }

  lemma OpenConcat(a: seq<Step>, b: seq<Step>)
    requires StaysOpen(a) && StaysOpen(b)
    ensures StaysOpen(a + b)
  {
  }

  lemma FourStayOpen(a: Step, b: Step, d: Step, e: Step)
    requires KeepsOpen(a) && KeepsOpen(b) && KeepsOpen(d) && KeepsOpen(e)
    ensures StaysOpen([a, b, d, e])
  {
  }

  lemma AloneStaysOpen(p: Id, now: int)
    ensures StaysOpen(Alone(p, now))
  {
    FourStayOpen(Fetch(p, now), Dequeue(p), Acquire(p), Cancel(p));
    OpenConcat(Opening(p, now), Work(p, Nobody(), now));
  }

  /** One more firing that finds nobody: the next step, or after the last one the fallback. */
  lemma MoveOn(c: Protocol, s: State, p: Id) returns (steps: seq<Step>)
    requires IsWaiting(c, s, p)
    ensures StaysOpen(steps)
    ensures var next := s.timer.value.currentStep + 1;
            var after := Run(c, s, steps);
            if next < |c.windows| then
              && IsWaiting(c, after, p + 1) && after.timer.value.currentStep == next
              && after.expanded == s.expanded + [next] && after.fallbacks == s.fallbacks
            else IsComplete(after) && after.expanded == s.expanded
  {
    var now := s.timer.value.due;
    AtomicOfNobody(c, s, s.timer.value.currentStep + 1, now);
    UninterruptedFiringIsAtomic(c, s, p, now, Nobody());
    AloneStaysOpen(p, now);
    steps := Alone(p, now);
  }

  /** From any waiting state the remaining firings, one by one, lead up to the last step. */
  lemma {:induction false} ReachLast(c: Protocol, s: State, p: Id) returns (steps: seq<Step>, unused: Id)
    requires IsWaiting(c, s, p)
    ensures StaysOpen(steps)
    ensures var after := Run(c, s, steps);
            && IsWaiting(c, after, unused) && after.timer.value.currentStep == |c.windows| - 1
            && s.expanded <= after.expanded && after.fallbacks == s.fallbacks
    decreases |c.windows| - s.timer.value.currentStep
  {
    steps, unused := [], p;
    if s.timer.value.currentStep < |c.windows| - 1 {
      var one := MoveOn(c, s, p);
      var more;
      more, unused := ReachLast(c, Run(c, s, one), p + 1);
      RunConcat(c, s, one, more);
      OpenConcat(one, more);
      steps := one + more;
    }
  }

  /** And one more to the end. */
  lemma ReachEnd(c: Protocol, s: State, p: Id) returns (steps: seq<Step>)
    requires IsWaiting(c, s, p)
    ensures StaysOpen(steps) && IsComplete(Run(c, s, steps)) && s.expanded <= Run(c, s, steps).expanded
  {
    var most, unused := ReachLast(c, s, p);
    var one := MoveOn(c, Run(c, s, most), unused);
    RunConcat(c, s, most, one);
    OpenConcat(most, one);
    steps := most + one;
  }

  // ==== exactly when ====

  ghost predicate FallbackAtMostOnce(c: Protocol) {
    forall s, steps | IsStart(c, s) :: Run(c, s, steps).fallbacks <= 1
  }

  /** Whatever else is cleared and whenever, the fallback runs at most once in every interleaving if and only if firings
      claim their timer or never overlap. */
  lemma FallbackAtMostOnceIff(c: Protocol)
    requires |c.windows| >= 2
    ensures FallbackAtMostOnce(c) <==> c.claims || c.serial
  {
    if c.claims {
      forall s, steps | IsStart(c, s)
        ensures Run(c, s, steps).fallbacks <= 1
      {
        ClaimRun(c, s, steps);
      }
    } else if c.serial {
      forall s, steps | IsStart(c, s)
        ensures Run(c, s, steps).fallbacks <= 1
      {
        StartIsSerial(c, s);
        var _ := SerialRun(c, s, 0, steps);
      }
    } else {
      UnclaimedFallsBackTwice(c);
    }
  }

  lemma UnclaimedFallsBackTwice(c: Protocol)
    requires |c.windows| >= 2 && !c.claims && !c.serial
    ensures !FallbackAtMostOnce(c)
  {
    var s := ToldSeven();
    var most, p := ReachLast(c, s, 0);
    var last := Run(c, s, most);
    var now := last.timer.value.due;
    FallbackRunsTwice(c, last, p, p + 1, now, Nobody(), Nobody());
    var twice := OneAfterTheOther(p, p + 1, now, Nobody(), Nobody());
    RunConcat(c, s, most, twice);
    assert IsStart(c, s) && Run(c, s, most + twice).fallbacks == 2;
  }

  ghost predicate StepsAtMostOnce(c: Protocol) {
    forall s, steps | IsStart(c, s) :: NoDuplicates(Run(c, s, steps).expanded)
  }

  /** Two servers that have fetched one timer: the second claims the timer the first has just set, and repeats the
      step on the data it fetched before. */
  lemma OverlapStates(c: Protocol, s: State, p: Id)
    requires !c.serial && IsWaiting(c, s, p) && s.timer.value.currentStep + 1 < |c.windows|
    ensures var next := s.timer.value.currentStep + 1;
            var after := Run(c, s, OneAfterTheOther(p, p + 1, s.timer.value.due, Nobody(), Nobody()));
            after.expanded == s.expanded + [next] + [next] && IsWaiting(c, after, p + 2)
  {
    var next, now, polled := s.timer.value.currentStep + 1, s.timer.value.due, Polled(s, p, p + 1);
    AtomicOfNobody(c, polled, next, now);
    var between := Run(c, polled, Rest(p, Nobody(), now));
    AtomicOfNobody(c, between, next, now);
    SecondRepeatsStep(c, s, p, p + 1, now, Nobody(), Nobody());
  }

  lemma OverlapStaysOpen(p: Id, q: Id, now: int)
    ensures StaysOpen(OneAfterTheOther(p, q, now, Nobody(), Nobody()))
  {
    OpenConcat(Rest(p, Nobody(), now), Rest(q, Nobody(), now));
    OpenConcat(BothPoll(p, q, now), Rest(p, Nobody(), now) + Rest(q, Nobody(), now));
  }

  lemma OverlapRepeatsStep(c: Protocol, s: State, p: Id) returns (steps: seq<Step>)
    requires !c.serial && IsWaiting(c, s, p) && s.timer.value.currentStep + 1 < |c.windows|
    ensures var next := s.timer.value.currentStep + 1;
            var after := Run(c, s, steps);
            StaysOpen(steps) && after.expanded == s.expanded + [next] + [next] && IsWaiting(c, after, p + 2)
  {
    OverlapStates(c, s, p);
    OverlapStaysOpen(p, p + 1, s.timer.value.due);
    steps := OneAfterTheOther(p, p + 1, s.timer.value.due, Nobody(), Nobody());
  }

  /** No step is expanded twice in every interleaving if and only if firings never overlap; claiming is not enough. */
  lemma StepsAtMostOnceIff(c: Protocol)
    requires |c.windows| >= 2
    ensures StepsAtMostOnce(c) <==> c.serial
  {
    if c.serial {
      forall s, steps | IsStart(c, s)
        ensures NoDuplicates(Run(c, s, steps).expanded)
      {
        StartIsSerial(c, s);
        var _ := SerialRun(c, s, 0, steps);
      }
    } else {
      var steps := OverlapRepeatsStep(c, ToldSeven(), 0);
      var after := Run(c, ToldSeven(), steps);
      assert IsStart(c, ToldSeven()) && after.expanded[0] == after.expanded[1];
    }
  }

  ghost predicate ExactlyOnce(c: Protocol) {
    forall s, steps | IsStart(c, s) && StaysOpen(steps) && IsComplete(Run(c, s, steps)) ::
      IsOver(c, Run(c, s, steps))
  }

  /** With n >= 2 windows and the booking open all along, every interleaving that has come to an end has carried out the
      steps 1 to n - 1 once each, in order, and the fallback once, if and only if firings never overlap. */
  lemma ExactlyOnceIff(c: Protocol)
    requires |c.windows| >= 2
    ensures ExactlyOnce(c) <==> c.serial
  {
    if c.serial {
      forall s, steps | IsStart(c, s) && StaysOpen(steps) && IsComplete(Run(c, s, steps))
        ensures IsOver(c, Run(c, s, steps))
      {
        StartIsSerial(c, s);
        var live := LiveRun(c, s, 0, steps);
      }
    } else {
      OverlapIsNotExact(c);
    }
  }

  lemma OverlapIsNotExact(c: Protocol)
    requires |c.windows| >= 2 && !c.serial
    ensures !ExactlyOnce(c)
  {
    var s := ToldSeven();
    var twice := OverlapRepeatsStep(c, s, 0);
    var rest := ReachEnd(c, Run(c, s, twice), 2);
    RunConcat(c, s, twice, rest);
    OpenConcat(twice, rest);
    var after := Run(c, s, twice + rest);
    assert after.expanded[1] == 1 && IsStart(c, s);
    assert !IsOver(c, after);
  }

  // ==== a run that stalls ====

  lemma OneLocksOneFetched(c: Protocol, s: State, p: Id, q: Id, now: int) returns (steps: seq<Step>)
    requires !c.serial && p != q && PhaseOf(s, p).Idle? && PhaseOf(s, q).Idle? && s.lock == None && s.queued
    requires s.timer.Some? && now >= s.timer.value.due
    ensures var t := s.timer.value;
            Run(c, s, steps)
            == s.(lock := Some(c.holder(p)), queued := false, phases := s.phases[p := Locked(t)][q := Fetched(t)])
    ensures StaysOpen(steps)
  {
    var t := s.timer.value;
    steps := [Fetch(p, now), Fetch(q, now), Dequeue(p), Acquire(p)];
    FourStayOpen(Fetch(p, now), Fetch(q, now), Dequeue(p), Acquire(p));
    Unroll4(c, s, Fetch(p, now), Fetch(q, now), Dequeue(p), Acquire(p));
    assert s.phases[p := Fetched(t)][q := Fetched(t)][p := Ready(t)][p := Locked(t)]
        == s.phases[p := Locked(t)][q := Fetched(t)];
  }

  lemma LockedSendsToNobody(c: Protocol, s: State, p: Id, t: Radius.Timer) returns (steps: seq<Step>)
    requires PhaseOf(s, p) == Locked(t) && s.timer.Some? && t.currentStep + 1 < |c.windows|
    ensures Run(c, s, steps)
            == s.(timer := None, queued := false, expanded := s.expanded + [t.currentStep + 1],
                  phases := s.phases[p := Recorded(t.currentStep + 1)])
    ensures StaysOpen(steps)
  {
    var next := t.currentStep + 1;
    steps := [Cancel(p), ReadSet(p, Nobody()), Send(p, true), Record(p)];
    FourStayOpen(Cancel(p), ReadSet(p, Nobody()), Send(p, true), Record(p));
    Unroll4(c, s, Cancel(p), ReadSet(p, Nobody()), Send(p, true), Record(p));
    assert Radius.Newcomers(Nobody()) == [] && s.sent + [] == s.sent && s.notified + ToSet([]) == s.notified;
    assert s.phases[p := Working(next)][p := Chosen(next, [], false)][p := Sent(next, [], false)][p := Recorded(next)]
        == s.phases[p := Recorded(next)];
  }

  lemma LoserDequeues(c: Protocol, s: State, p: Id, q: Id, next: nat, now: int) returns (steps: seq<Step>)
    requires p != q && c.holder(p) != c.holder(q) && s.lock == Some(c.holder(p)) && next < |c.windows|
    requires PhaseOf(s, p) == Recorded(next) && PhaseOf(s, q).Fetched?
    ensures Run(c, s, steps)
            == s.(lock := None, timer := Some(Radius.Timer(next, now + c.windows[next])), queued := false,
                  phases := s.phases[q := Finished][p := Finished])
    ensures StaysOpen(steps)
  {
    steps := [Schedule(p, now), Dequeue(q), Acquire(q), Release(p)];
    FourStayOpen(Schedule(p, now), Dequeue(q), Acquire(q), Release(p));
    Unroll4(c, s, Schedule(p, now), Dequeue(q), Acquire(q), Release(p));
    var t := PhaseOf(s, q).timer;
    assert s.phases[p := Releasing][q := Ready(t)][q := Finished][p := Finished]
        == s.phases[q := Finished][p := Finished];
  }

  /** A server that has fetched the timer takes its key off the queue only after the other has set the next one, and
      then loses the lock. The booking is open, a timer is set, and no poller will ever find it. */
  lemma LateDequeueStalls(c: Protocol, s: State, p: Id, q: Id, now: int) returns (steps: seq<Step>)
    requires !c.serial && p != q && c.holder(p) != c.holder(q)
    requires AllQuiet(s) && PhaseOf(s, p).Idle? && PhaseOf(s, q).Idle? && s.lock == None && s.queued
    requires s.timer.Some? && now >= s.timer.value.due && s.timer.value.currentStep + 1 < |c.windows|
    ensures var after := Run(c, s, steps);
            && StaysOpen(steps) && IsComplete(after) && after.timer.Some? && !after.queued
            && after.expanded == s.expanded + [s.timer.value.currentStep + 1] && after.fallbacks == s.fallbacks
  {
    var a := OneLocksOneFetched(c, s, p, q, now);
    var s1 := Run(c, s, a);
    var b := LockedSendsToNobody(c, s1, p, s.timer.value);
    var s2 := Run(c, s1, b);
    var d := LoserDequeues(c, s2, p, q, s.timer.value.currentStep + 1, now);
    RunConcat(c, s, a, b + d);
    RunConcat(c, s1, b, d);
    OpenConcat(b, d);
    OpenConcat(a, b + d);
    steps := a + (b + d);
  }

  /** Nothing changes any more, whatever happens. */
  lemma {:induction false} StalledForever(c: Protocol, s: State, steps: seq<Step>)
    requires AllQuiet(s) && !s.queued
    ensures var after := Run(c, s, steps);
            after.expanded == s.expanded && after.fallbacks == s.fallbacks && after.sent == s.sent
    decreases |steps|
  {
    if steps != [] {
      StalledForever(c, Next(c, s, steps[0]), steps[1..]);
    }
  }
}
