/** Progressive radius expansion of one booking: the initial broadcast, the timer-driven steps and the final database
    fallback, with the notified set that keeps them from telling anyone twice. */
module Radius {
  import opened Rows
  import opened Sequences

  /** The timer carries the step already done; `due` is when the expiry checker may fire it. */
  datatype Timer = Timer(currentStep: nat, due: int)

  /** `sent` lists every new_broadcast in order. */
  datatype State = State(
    timer: Option<Timer>,
    notified: set<Id>,
    sent: seq<Id>,
    expansions: nat,
    fallbacks: nat)

  /** What one firing of the timer finds outside: the two status checks, the matcher's candidates, who is online, the
      transporters of the database and those of them too far away. */
  datatype World = World(
    open: bool,
    stillOpen: bool,
    candidates: seq<Id>,
    online: set<Id>,
    fromDb: seq<Id>,
    tooFar: set<Id>)

  const FALLBACK_CAP: nat := 100

  function Cleared(s: State): State {
    s.(timer := None, notified := {})
  }

  function Newcomers(w: World): seq<Id> {
    KeepIn(w.candidates, w.online)
  }

  function FallbackTargets(notified: set<Id>, w: World): seq<Id> {
    DropIn(DropIn(Take(KeepIn(w.fromDb, w.online), FALLBACK_CAP), notified), w.tooFar)
  }

  /** advanceRadiusStep, its timer having been cancelled by the caller. `windows` lists the step timeouts. */
  function Advance(windows: seq<nat>, s: State, now: int, w: World): State {
    if s.timer.None? then s
    else
      var next := s.timer.value.currentStep + 1;
      if !w.open then Cleared(s)
      else if next >= |windows| then
        Cleared(s.(sent := s.sent + FallbackTargets(s.notified, w), fallbacks := s.fallbacks + 1))
      else if Newcomers(w) != [] && !w.stillOpen then Cleared(s)
      else
        s.(sent := s.sent + Newcomers(w), notified := s.notified + ToSet(Newcomers(w)),
           timer := Some(Timer(next, now + windows[next])), expansions := s.expansions + 1)
  }

  /** After the initial broadcast: the set records every matching transporter, the cap, the filters and a cancel during
      the broadcast only shorten what was sent. */
  function Started(windows: seq<nat>, matching: seq<Id>, sent: seq<Id>, now: int): State {
    State(if |windows| <= 1 then None else Some(Timer(0, now + windows[0])), ToSet(matching), sent, 0, 0)
  }

  class Expansion {
    const windows: seq<nat>
    var timer: Option<Timer>
    var notified: set<Id>
    var sent: seq<Id>
    ghost var expansions: nat
    ghost var fallbacks: nat

    ghost function Now(): State
      reads this
    {
      State(timer, notified, sent, expansions, fallbacks)
    }

    constructor (windows: seq<nat>)
      ensures this.windows == windows && Now() == State(None, {}, [], 0, 0)
    {
      this.windows := windows;
      timer, notified, sent, expansions, fallbacks := None, {}, [], 0, 0;
    }

    method EmitTo(targets: seq<Id>)
      modifies `sent
      ensures sent == old(sent) + targets
    {
      for i := 0 to |targets|
        invariant sent == old(sent) + targets[..i]
      {
        sent := sent + [targets[i]];
        assert targets[..i + 1] == targets[..i] + [targets[i]];
      }
      assert targets[..|targets|] == targets;
    }

    /** The initial broadcast. Each filter is skipped when its query fails (None). `activeAt[i]` is the booking status
        read before sending to position i, at every multiple of the check interval. */
    method Broadcast(
      matching: seq<Id>, cap: nat, eligible: Option<set<Id>>, verified: Option<set<Id>>,
      suspended: Option<set<Id>>, activeAt: seq<bool>, start: int) returns (targets: seq<Id>, stop: nat)
      requires |activeAt| >= |matching| && sent == []
      modifies `sent, `notified
      ensures |targets| <= |matching|
      ensures targets == BroadcastTargets(matching, cap, eligible, verified, suspended)
      ensures stop <= |targets| && sent == targets[..stop] && notified == old(notified) + ToSet(matching)
      ensures var interval := CheckInterval(|targets|);
              && (forall i :: 0 < i < stop && i % interval == 0 ==> activeAt[i])
              && (stop < |targets| ==> stop > 0 && stop % interval == 0 && !activeAt[stop])
    {
      targets := Take(matching, cap);
      if eligible.Some? {
        targets := KeepIn(targets, eligible.value);
      }
      if verified.Some? {
        targets := KeepIn(targets, verified.value);
      }
      if suspended.Some? {
        targets := DropIn(targets, suspended.value);
      }
      TargetsAreFew(matching, cap, eligible, verified, suspended);
      var interval := CheckInterval(|targets|);
      stop := 0;
      while stop < |targets|
        invariant 0 <= stop <= |targets| && sent == targets[..stop] && notified == old(notified)
        invariant forall i :: 0 < i < stop && i % interval == 0 ==> activeAt[i]
      {
        if stop > 0 && stop % interval == 0 && !activeAt[stop] {
          break;
        }
        sent := sent + [targets[stop]];
        assert targets[..stop + 1] == targets[..stop] + [targets[stop]];
        stop := stop + 1;
      }
      notified := notified + ToSet(matching);
    }

    method StartProgressiveExpansion(now: int)
      modifies `timer
      ensures timer == if |windows| <= 1 then old(timer) else Some(Timer(0, now + windows[0]))
      ensures old(timer) == None && expansions == 0 && fallbacks == 0 ==>
                forall matching | notified == ToSet(matching) :: Now() == Started(windows, matching, sent, now)
    {
      if |windows| > 1 {
        timer := Some(Timer(0, now + windows[0]));
      }
    }

    method ClearRadiusKeys()
      modifies `timer, `notified
      ensures Now() == Cleared(old(Now()))
    {
      timer, notified := None, {};
    }

    method AdvanceRadiusStep(now: int, w: World)
      requires timer.Some?
      modifies this
      ensures Now() == Advance(windows, old(Now()), now, w)
    {
      var nextStepIndex := timer.value.currentStep + 1;
      timer := None;
      if !w.open {
        ClearRadiusKeys();
        return;
      }
      if nextStepIndex >= |windows| {
        RadiusDbFallback(w);
        ClearRadiusKeys();
        fallbacks := fallbacks + 1;
        return;
      }
      var newTransporters := KeepIn(w.candidates, w.online);
      if |newTransporters| > 0 && !w.stillOpen {
        ClearRadiusKeys();
        return;
      }
      EmitTo(newTransporters);
      notified := notified + ToSet(newTransporters);
      timer := Some(Timer(nextStepIndex, now + windows[nextStepIndex]));
      expansions := expansions + 1;
    }

    method RadiusDbFallback(w: World)
      modifies `sent
      ensures sent == old(sent) + FallbackTargets(notified, w)
    {
      var onlineTransporters := Take(KeepIn(w.fromDb, w.online), FALLBACK_CAP);
      var newTransporters := DropIn(onlineTransporters, notified);
      EmitTo(DropIn(newTransporters, w.tooFar));
    }
  }

  function CheckInterval(count: nat): nat {
    var third := if count / 3 == 0 then 5 else count / 3;
    var upTo := if third < 50 then third else 50;
    if upTo > 5 then upTo else 5
  }

  function BroadcastTargets(
    matching: seq<Id>, cap: nat, eligible: Option<set<Id>>, verified: Option<set<Id>>,
    suspended: Option<set<Id>>): seq<Id>
  {
    var capped := Take(matching, cap);
    var withTruck := if eligible.Some? then KeepIn(capped, eligible.value) else capped;
    var checked := if verified.Some? then KeepIn(withTruck, verified.value) else withTruck;
    if suspended.Some? then DropIn(checked, suspended.value) else checked
  }

  lemma {:induction false} FiltersShorten(q: seq<Id>, ids: set<Id>)
    ensures |KeepIn(q, ids)| <= |q| && |DropIn(q, ids)| <= |q|
  {
    if q != [] {
      FiltersShorten(q[1..], ids);
    }
  }

  lemma TargetsAreFew(
    matching: seq<Id>, cap: nat, eligible: Option<set<Id>>, verified: Option<set<Id>>, suspended: Option<set<Id>>)
    ensures var targets := BroadcastTargets(matching, cap, eligible, verified, suspended);
            && |targets| <= cap && |targets| <= |matching|
            && (forall id | id in targets ::
                  && id in matching
                  && (eligible.Some? ==> id in eligible.value) && (verified.Some? ==> id in verified.value)
                  && (suspended.Some? ==> id !in suspended.value))
            && (NoDuplicates(matching) ==> NoDuplicates(targets))
  {
    var capped := Take(matching, cap);
    var withTruck := if eligible.Some? then KeepIn(capped, eligible.value) else capped;
    var checked := if verified.Some? then KeepIn(withTruck, verified.value) else withTruck;
    if eligible.Some? {
      KeepInIsFilter(capped, eligible.value);
      FiltersShorten(capped, eligible.value);
    }
    if verified.Some? {
      KeepInIsFilter(withTruck, verified.value);
      FiltersShorten(withTruck, verified.value);
    }
    if suspended.Some? {
      DropInIsFilter(checked, suspended.value);
      FiltersShorten(checked, suspended.value);
    }
  }

  // ==== no transporter is told twice, one firing at a time; RadiusRaces has the interleavings ====

  /** What the matcher and the database promise. */
  predicate WorldIsSound(notified: set<Id>, w: World) {
    && NoDuplicates(w.candidates) && ToSet(w.candidates) !! notified
    && NoDuplicates(w.fromDb)
  }

  datatype Firing = Firing(now: int, world: World)

  ghost predicate IsRun(windows: seq<nat>, states: seq<State>, firings: seq<Firing>) {
    && |states| == |firings| + 1
    && forall k :: 0 <= k < |firings| ==>
         && WorldIsSound(states[k].notified, firings[k].world)
         && (states[k].timer.Some? ==> firings[k].now >= states[k].timer.value.due)
         && states[k + 1] == Advance(windows, states[k], firings[k].now, firings[k].world)
  }

  /** Until the keys are cleared the set covers everyone told so far. */
  predicate Covered(s: State) {
    NoDuplicates(s.sent) && (s.timer.Some? ==> ToSet(s.sent) <= s.notified)
  }

  lemma AdvanceKeepsCovered(windows: seq<nat>, s: State, now: int, w: World)
    requires Covered(s) && WorldIsSound(s.notified, w)
    ensures Covered(Advance(windows, s, now, w))
  {
    if s.timer.Some? && w.open {
      var newcomers, targets := Newcomers(w), FallbackTargets(s.notified, w);
      KeepInIsFilter(w.candidates, w.online);
      KeepInIsFilter(w.fromDb, w.online);
      var online := Take(KeepIn(w.fromDb, w.online), FALLBACK_CAP);
      DropInIsFilter(online, s.notified);
      DropInIsFilter(DropIn(online, s.notified), w.tooFar);
      assert ToSet(newcomers) <= ToSet(w.candidates);
      assert ToSet(targets) !! s.notified;
      AppendDisjoint(s.sent, newcomers);
      AppendDisjoint(s.sent, targets);
    }
  }

  /** Across the initial broadcast, every step and the fallback no transporter is sent the booking twice, whatever the
      matcher finds, whoever is online, and whether or not the booking is cancelled on the way. */
  lemma {:induction false} NobodyIsToldTwice(
    windows: seq<nat>, matching: seq<Id>, cap: nat, eligible: Option<set<Id>>, verified: Option<set<Id>>,
    suspended: Option<set<Id>>, stop: nat, start: int, states: seq<State>, firings: seq<Firing>, k: nat)
    requires NoDuplicates(matching)
    requires var targets := BroadcastTargets(matching, cap, eligible, verified, suspended);
             stop <= |targets| && |states| > 0 && states[0] == Started(windows, matching, targets[..stop], start)
    requires IsRun(windows, states, firings) && k < |states|
    ensures NoDuplicates(states[k].sent)
    ensures states[k].timer.Some? ==> ToSet(states[k].sent) <= states[k].notified
  {
    if k == 0 {
      TargetsAreFew(matching, cap, eligible, verified, suspended);
    } else {
      NobodyIsToldTwice(windows, matching, cap, eligible, verified, suspended, stop, start, states, firings, k - 1);
      AdvanceKeepsCovered(windows, states[k - 1], firings[k - 1].now, firings[k - 1].world);
      assert states[k - 1 + 1] == Advance(windows, states[k - 1], firings[k - 1].now, firings[k - 1].world);
    }
  }

  // ==== the expansion ends, on budget ====

  function Remaining(windows: seq<nat>, s: State): nat {
    if s.timer.None? || s.timer.value.currentStep >= |windows| then 0
    else |windows| - s.timer.value.currentStep
  }

  /** Every firing uses up a step, whatever it finds. */
  lemma FiringUsesUpAStep(windows: seq<nat>, s: State, now: int, w: World)
    requires s.timer.Some? && s.timer.value.currentStep < |windows|
    ensures Remaining(windows, Advance(windows, s, now, w)) < Remaining(windows, s)
  {
  }

  function Total(windows: seq<nat>): nat {
    if windows == [] then 0 else Total(windows[..|windows| - 1]) + windows[|windows| - 1]
  }

  lemma {:induction false} TotalOfPrefix(windows: seq<nat>, k: nat)
    requires k < |windows|
    ensures Total(windows[..k + 1]) == Total(windows[..k]) + windows[k]
  {
    assert windows[..k + 1][..k] == windows[..k];
  }

  predicate StaysOpen(firings: seq<Firing>) {
    forall k :: 0 <= k < |firings| ==> firings[k].world.open && firings[k].world.stillOpen
  }

  /** Each firing comes at most `poll` after its timer was due. */
  predicate IsPrompt(states: seq<State>, firings: seq<Firing>, poll: nat)
    requires |states| == |firings| + 1
  {
    forall k :: 0 <= k < |firings| && states[k].timer.Some? ==> firings[k].now <= states[k].timer.value.due + poll
  }

  lemma {:induction false} StepsOnSchedule(
    windows: seq<nat>, s: State, start: int, poll: nat, states: seq<State>, firings: seq<Firing>, k: nat)
    requires |windows| >= 2 && s.timer == Some(Timer(0, start + windows[0])) && s.expansions == 0 && s.fallbacks == 0
    requires IsRun(windows, states, firings) && states[0] == s && StaysOpen(firings) && IsPrompt(states, firings, poll)
    requires k < |states| && k < |windows|
    ensures states[k].expansions == k && states[k].fallbacks == 0
    ensures states[k].timer.Some? && states[k].timer.value.currentStep == k
    ensures start + Total(windows[..k + 1]) <= states[k].timer.value.due <= start + Total(windows[..k + 1]) + k * poll
  {
    if k == 0 {
      assert windows[..1][..0] == [];
      assert Total(windows[..1]) == windows[0];
    } else {
      StepsOnSchedule(windows, s, start, poll, states, firings, k - 1);
      TotalOfPrefix(windows, k);
      assert firings[k - 1].world.open && firings[k - 1].world.stillOpen;
      assert states[k - 1 + 1] == Advance(windows, states[k - 1], firings[k - 1].now, firings[k - 1].world);
      assert k * poll == (k - 1) * poll + poll;
    }
  }

  /** With n >= 2 steps and the booking staying open: n - 1 expansions, then exactly one fallback, then nothing, however
      often the checker comes back. The fallback fires no earlier than the sum of all windows after the start and at
      most n poll delays later. */
  lemma {:induction false} ExpansionEndsOnBudget(
    windows: seq<nat>, s: State, start: int, poll: nat, states: seq<State>, firings: seq<Firing>, k: nat)
    requires |windows| >= 2 && s.timer == Some(Timer(0, start + windows[0])) && s.expansions == 0 && s.fallbacks == 0
    requires IsRun(windows, states, firings) && states[0] == s && StaysOpen(firings) && IsPrompt(states, firings, poll)
    requires |windows| <= k < |states|
    ensures states[k].expansions == |windows| - 1 && states[k].fallbacks == 1 && states[k].timer == None
    ensures var n := |windows|;
            start + Total(windows) <= firings[n - 1].now <= start + Total(windows) + n * poll
    decreases k
  {
    var n := |windows|;
    if k == n {
      StepsOnSchedule(windows, s, start, poll, states, firings, n - 1);
      assert windows[..n] == windows;
      assert firings[n - 1].world.open;
      assert states[n - 1 + 1] == Advance(windows, states[n - 1], firings[n - 1].now, firings[n - 1].world);
      assert n * poll == (n - 1) * poll + poll;
    } else {
      ExpansionEndsOnBudget(windows, s, start, poll, states, firings, k - 1);
      assert states[k - 1 + 1] == Advance(windows, states[k - 1], firings[k - 1].now, firings[k - 1].world);
    }
  }

  /** The startup validation: the windows must stay under 90% of the booking timeout. */
  predicate StartupCheck(windows: seq<nat>, timeoutMs: nat) {
    !(10 * Total(windows) >= 9 * timeoutMs)
  }

  /** A configuration that starts up runs its fallback before the booking times out whenever the poll delays of all
      steps fit into the tenth that the check leaves. */
  lemma FallbackBeatsTimeout(
    windows: seq<nat>, timeoutMs: nat, s: State, start: int, poll: nat, states: seq<State>, firings: seq<Firing>)
    requires StartupCheck(windows, timeoutMs) && 10 * (|windows| * poll) <= timeoutMs
    requires |windows| >= 2 && s.timer == Some(Timer(0, start + windows[0])) && s.expansions == 0 && s.fallbacks == 0
    requires IsRun(windows, states, firings) && states[0] == s && StaysOpen(firings) && IsPrompt(states, firings, poll)
    requires |states| > |windows|
    ensures firings[|windows| - 1].now < start + timeoutMs
  {
    ExpansionEndsOnBudget(windows, s, start, poll, states, firings, |windows|);
  }

  const RADIUS_WINDOWS: seq<nat> := [10000, 10000, 15000, 15000, 15000, 15000]

  /** The shipped steps sum to 80 seconds, pass the check at the default timeout of 120 seconds, and pass it for no
      timeout of 88888 milliseconds or less. */
  lemma ShippedConfiguration(timeoutMs: nat)
    ensures Total(RADIUS_WINDOWS) == 80000
    ensures StartupCheck(RADIUS_WINDOWS, timeoutMs) <==> timeoutMs >= 88889
  {
    var w := RADIUS_WINDOWS;
    TotalOfPrefix(w, 0);
    TotalOfPrefix(w, 1);
    TotalOfPrefix(w, 2);
    TotalOfPrefix(w, 3);
    TotalOfPrefix(w, 4);
    TotalOfPrefix(w, 5);
    assert w[..0] == [] && w[..6] == w;
  }
}
