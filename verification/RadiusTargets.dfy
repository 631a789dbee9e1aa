/** Exactly who is sent a booking, and in which order: by the initial broadcast, by each firing of the radius timer, and
    by the database fallback, told from the positions in the lists these are given. */
module RadiusTargets {
  import opened Rows
  import opened Sequences
  import opened Radius

  /** The broadcast sends to the positions before the cap that pass every filter which answered, in the order of the
      matcher. */
  lemma BroadcastSelects(
    matching: seq<Id>, cap: nat, eligible: Option<set<Id>>, verified: Option<set<Id>>, suspended: Option<set<Id>>)
    ensures Selects(matching, BroadcastTargets(matching, cap, eligible, verified, suspended),
                    set j | && 0 <= j < |matching| && j < cap
                            && (eligible.Some? ==> matching[j] in eligible.value)
                            && (verified.Some? ==> matching[j] in verified.value)
                            && (suspended.Some? ==> matching[j] !in suspended.value))
  {
    var q := Take(matching, cap);
    var at := PrefixPicks(matching, cap);
    if eligible.Some? {
      at := KeepPicked(matching, q, at, eligible.value);
      q := KeepIn(q, eligible.value);
    }
    if verified.Some? {
      at := KeepPicked(matching, q, at, verified.value);
      q := KeepIn(q, verified.value);
    }
    if suspended.Some? {
      at := DropPicked(matching, q, at, suspended.value);
      q := DropIn(q, suspended.value);
    }
    assert q == BroadcastTargets(matching, cap, eligible, verified, suspended);
    var chosen := set j | && 0 <= j < |matching| && j < cap
                          && (eligible.Some? ==> matching[j] in eligible.value)
                          && (verified.Some? ==> matching[j] in verified.value)
                          && (suspended.Some? ==> matching[j] !in suspended.value);
    assert ToSet(at) == chosen;
  }

  /** A third of the targets, but at least 5 and at most 50. */
  lemma CheckIntervalIs(count: nat)
    ensures 5 <= CheckInterval(count) <= 50
    ensures CheckInterval(count) == 5 <==> count < 18
    ensures CheckInterval(count) == 50 <==> count >= 150
    ensures 15 <= count <= 152 ==> 3 * CheckInterval(count) <= count < 3 * CheckInterval(count) + 3
  {
  }

  lemma AtLeastOnce(n: nat, k: nat)
    requires k >= 1
    ensures n * k >= n
  {
    assert n * k == n + n * (k - 1);
  }

  lemma MultipleOf(n: nat, k: nat)
    requires n > 0
    ensures (n * k) % n == 0
  {
    var x := n * k;
    var d, r := x / n, x % n;
    assert x == n * d + r && n * k == n * d + n * (k - d) && n * d == n * k + n * (d - k);
    if k > d {
      AtLeastOnce(n, k - d);
    } else if k < d {
      AtLeastOnce(n, d - k);
    }
  }

  lemma StopsBy(activeAt: seq<bool>, interval: nat, stop: nat, m: nat)
    requires stop <= |activeAt| && interval > 0
    requires forall i :: 0 < i < stop && i % interval == 0 ==> activeAt[i]
    requires 0 < m < |activeAt| && m % interval == 0 && !activeAt[m]
    ensures stop <= m
  {
  }

  /** A booking that is closed from position p on is sent to fewer than one interval of targets more, by what the
      broadcast promises of the position it stops at. */
  lemma BroadcastStopsWithin(activeAt: seq<bool>, count: nat, stop: nat, p: nat)
    requires stop <= count <= |activeAt| && 0 < p
    requires forall i :: 0 < i < stop && i % CheckInterval(count) == 0 ==> activeAt[i]
    requires forall i | p <= i < |activeAt| :: !activeAt[i]
    ensures stop < p + CheckInterval(count)
  {
    var interval := CheckInterval(count);
    var rounds := (p + interval - 1) / interval;
    var m := interval * rounds;
    assert p <= m < p + interval;
    assert m % interval == 0 by {
      MultipleOf(interval, rounds);
    }
    if m < |activeAt| {
      StopsBy(activeAt, interval, stop, m);
    }
  }

  /** The firing goes on to a step: there is one left, the booking is open, and if anybody is to be told it is still
      open after the search. */
  predicate SendsStep(windows: seq<nat>, s: State, w: World) {
    && s.timer.Some? && s.timer.value.currentStep + 1 < |windows| && w.open
    && (w.stillOpen || forall id | id in w.candidates :: id !in w.online)
  }

  /** Such a firing sends to exactly the candidates that are online, in the order of the matcher, records exactly them,
      and sets the timer to the next step. */
  lemma StepSendsTo(windows: seq<nat>, s: State, now: int, w: World)
    requires SendsStep(windows, s, w)
    ensures var after, next := Advance(windows, s, now, w), s.timer.value.currentStep + 1;
            && s.sent <= after.sent
            && Selects(w.candidates, after.sent[|s.sent|..],
                       set j | 0 <= j < |w.candidates| && w.candidates[j] in w.online)
            && (forall id :: id in after.sent[|s.sent|..] <==> id in w.candidates && id in w.online)
            && (forall id :: id in after.notified <==> id in s.notified || (id in w.candidates && id in w.online))
            && after.timer == Some(Timer(next, now + windows[next]))
            && after.expansions == s.expansions + 1 && after.fallbacks == s.fallbacks
  {
    var after := Advance(windows, s, now, w);
    KeepInIsFilter(w.candidates, w.online);
    var at := KeepInPicks(w.candidates, w.online);
    var told := KeepIn(w.candidates, w.online);
    assert told != [] ==> told[0] in told;
    assert after.sent == s.sent + told;
    assert after.sent[|s.sent|..] == told;
    assert ToSet(at) == set j | 0 <= j < |w.candidates| && w.candidates[j] in w.online;
  }

  /** How many positions of the database list before `j` are online. */
  ghost function OnlineBefore(w: World, j: nat): nat {
    |set i | 0 <= i < j && i < |w.fromDb| && w.fromDb[i] in w.online|
  }

  lemma FallbackSelects(notified: set<Id>, w: World)
    ensures Selects(w.fromDb, FallbackTargets(notified, w),
                    set j | && 0 <= j < |w.fromDb| && w.fromDb[j] in w.online && OnlineBefore(w, j) < 100
                            && w.fromDb[j] !in notified && w.fromDb[j] !in w.tooFar)
  {
    var online := KeepIn(w.fromDb, w.online);
    var outer := KeepInPicks(w.fromDb, w.online);
    var first := TakePicked(w.fromDb, online, outer, FALLBACK_CAP);
    var unseen := DropPicked(w.fromDb, Take(online, FALLBACK_CAP), first, notified);
    var at := DropPicked(w.fromDb, DropIn(Take(online, FALLBACK_CAP), notified), unseen, w.tooFar);
    forall j: nat
      ensures |Before(outer, j)| == OnlineBefore(w, j)
    {
      assert Before(outer, j) == set i | 0 <= i < j && i < |w.fromDb| && w.fromDb[i] in w.online;
    }
    assert ToSet(at) == set j | && 0 <= j < |w.fromDb| && w.fromDb[j] in w.online && OnlineBefore(w, j) < 100
                                && w.fromDb[j] !in notified && w.fromDb[j] !in w.tooFar;
  }

  /** The firing after the last step sends to exactly those of the database list that are among its first hundred online
      ones, were not notified before and are not too far, in the order of the list, and clears the keys. */
  lemma FallbackSendsTo(windows: seq<nat>, s: State, now: int, w: World)
    requires s.timer.Some? && s.timer.value.currentStep + 1 >= |windows| && w.open
    ensures var after := Advance(windows, s, now, w);
            && s.sent <= after.sent
            && Selects(w.fromDb, after.sent[|s.sent|..],
                       set j | && 0 <= j < |w.fromDb| && w.fromDb[j] in w.online && OnlineBefore(w, j) < 100
                               && w.fromDb[j] !in s.notified && w.fromDb[j] !in w.tooFar)
            && after.timer == None && after.notified == {}
            && after.expansions == s.expansions && after.fallbacks == s.fallbacks + 1
  {
    var after, targets := Advance(windows, s, now, w), FallbackTargets(s.notified, w);
    FallbackSelects(s.notified, w);
    assert after.sent == s.sent + targets;
    assert after.sent[|s.sent|..] == targets;
  }

  /** Every other firing sends nothing: without a timer nothing happens, on a closed booking the keys are cleared. */
  lemma OtherFiringsSendNothing(windows: seq<nat>, s: State, now: int, w: World)
    requires !SendsStep(windows, s, w)
    requires !(s.timer.Some? && s.timer.value.currentStep + 1 >= |windows| && w.open)
    ensures Advance(windows, s, now, w)
            == if s.timer == None then s else State(None, {}, s.sent, s.expansions, s.fallbacks)
  {
    KeepInIsFilter(w.candidates, w.online);
    if s.timer.Some? && w.open {
      var id :| id in w.candidates && id in w.online;
      assert id in KeepIn(w.candidates, w.online);
    }
  }
}
