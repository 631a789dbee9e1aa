/** The crash-loop guard of the cluster: it keeps a count and the time of the last grant per worker, and yet bounds the
    grants in every sliding minute. */
module RestartLimiter {
  import opened Rows
  import opened Sequences

  const MAX_RESTARTS: nat := 5
  const RESTART_WINDOW: int := 60000

  datatype Stats = Stats(count: nat, lastRestart: int)

  datatype Decision = Decision(stats: Stats, granted: bool)

  function Decide(stats: Option<Stats>, now: int): Decision {
    if stats.None? || now - stats.value.lastRestart > RESTART_WINDOW then Decision(Stats(1, now), true)
    else if stats.value.count >= MAX_RESTARTS then Decision(stats.value, false)
    else Decision(Stats(stats.value.count + 1, now), true)
  }

  class Cluster {
    var workerRestarts: map<Id, Stats>

    constructor ()
      ensures workerRestarts == map[]
    {
      workerRestarts := map[];
    }

    method ShouldRestartWorker(workerId: Id, now: int) returns (restart: bool)
      modifies this
      ensures var before := if workerId in old(workerRestarts) then Some(old(workerRestarts)[workerId]) else None;
              && restart == Decide(before, now).granted
              && workerRestarts == old(workerRestarts)[workerId := Decide(before, now).stats]
    {
      if workerId !in workerRestarts {
        workerRestarts := workerRestarts[workerId := Stats(1, now)];
        return true;
      }
      var stats := workerRestarts[workerId];
      if now - stats.lastRestart > RESTART_WINDOW {
        workerRestarts := workerRestarts[workerId := Stats(1, now)];
        return true;
      }
      if stats.count >= MAX_RESTARTS {
        assert workerRestarts == workerRestarts[workerId := stats];
        return false;
      }
      workerRestarts := workerRestarts[workerId := Stats(stats.count + 1, now)];
      restart := true;
    }
  }

  /** What is kept for one worker after calls at the given times, and, for the claims only, when it was granted. */
  datatype History = History(stats: Option<Stats>, grants: seq<int>)

  function Extend(h: History, now: int): History {
    var d := Decide(h.stats, now);
    History(Some(d.stats), if d.granted then h.grants + [now] else h.grants)
  }

  function After(times: seq<int>): History {
    if times == [] then History(None, []) else Extend(After(times[..|times| - 1]), times[|times| - 1])
  }

  predicate Sorted(q: seq<int>) {
    forall i, j :: 0 <= i < j < |q| ==> q[i] <= q[j]
  }

  /** Any six consecutive grants span more than the window. */
  predicate SixSpanMore(q: seq<int>) {
    forall i :: 0 <= i < |q| - 5 ==> q[i + 5] - q[i] > RESTART_WINDOW
  }

  /** The count is the length of the last run of grants no further apart than the window. */
  predicate CountsLastRun(h: History) {
    var n := |h.grants|;
    if h.stats.None? then n == 0
    else
      var c := h.stats.value.count;
      && 1 <= c <= MAX_RESTARTS && c <= n && h.stats.value.lastRestart == h.grants[n - 1]
      && (c < n ==> h.grants[n - c] - h.grants[n - c - 1] > RESTART_WINDOW)
      && (forall i :: n - c <= i < n - 1 ==> h.grants[i + 1] - h.grants[i] <= RESTART_WINDOW)
  }

  predicate Chained(h: History) {
    CountsLastRun(h) && SixSpanMore(h.grants) && Sorted(h.grants)
  }

  predicate LastBy(h: History, time: int) {
    h.grants != [] ==> h.grants[|h.grants| - 1] <= time
  }

  lemma ExtendKeepsCount(h: History, now: int)
    requires CountsLastRun(h)
    ensures CountsLastRun(Extend(h, now))
  {
  }

  lemma ExtendKeepsSpread(h: History, now: int)
    requires Chained(h) && LastBy(h, now)
    ensures SixSpanMore(Extend(h, now).grants)
  {
  }

  lemma ExtendKeepsChained(h: History, now: int)
    requires Chained(h) && LastBy(h, now)
    ensures Chained(Extend(h, now)) && LastBy(Extend(h, now), now)
  {
    ExtendKeepsCount(h, now);
    ExtendKeepsSpread(h, now);
    assert forall i :: 0 <= i < |h.grants| ==> h.grants[i] <= h.grants[|h.grants| - 1];
  }

  lemma {:induction false} HistoryIsChained(times: seq<int>)
    requires Sorted(times)
    ensures Chained(After(times))
    ensures times != [] ==> LastBy(After(times), times[|times| - 1])
  {
    if times != [] {
      var init, now := times[..|times| - 1], times[|times| - 1];
      HistoryIsChained(init);
      ExtendKeepsChained(After(init), now);
    }
  }

  function GrantsIn(grants: seq<int>, from: int, to: int): set<nat> {
    set i: nat | i < |grants| && from <= grants[i] <= to
  }

  lemma {:induction false} FirstFrom(grants: seq<int>, from: int) returns (m: nat)
    requires Sorted(grants)
    ensures m <= |grants|
    ensures forall i :: 0 <= i < |grants| ==> (grants[i] >= from <==> i >= m)
  {
    m := 0;
    while m < |grants| && grants[m] < from
      invariant m <= |grants| && forall i :: 0 <= i < m ==> grants[i] < from
    {
      m := m + 1;
    }
  }

  /** For any times of calls, in order, no closed interval of one window holds more than five grants. */
  lemma SlidingWindowBound(times: seq<int>, from: int, to: int)
    requires Sorted(times) && to - from <= RESTART_WINDOW
    ensures |GrantsIn(After(times).grants, from, to)| <= MAX_RESTARTS
  {
    HistoryIsChained(times);
    SpreadGrantsFitFive(After(times).grants, from, to);
  }

  lemma SpreadGrantsFitFive(grants: seq<int>, from: int, to: int)
    requires Sorted(grants) && SixSpanMore(grants) && to - from <= RESTART_WINDOW
    ensures |GrantsIn(grants, from, to)| <= MAX_RESTARTS
  {
    var m := FirstFrom(grants, from);
    var five := {m, m + 1, m + 2, m + 3, m + 4};
    forall i | m + 5 <= i < |grants|
      ensures grants[i] > to
    {
      assert grants[m + 5] - grants[m] > RESTART_WINDOW;
    }
    assert GrantsIn(grants, from, to) <= five;
    SubsetCount(GrantsIn(grants, from, to), five);
    assert |five| <= 5;
  }

  /** A call is refused exactly when the last five grants and the call itself follow one another within the window each:
      the count is redundant. */
  lemma RefusedIff(times: seq<int>, now: int)
    requires Sorted(times + [now])
    ensures var g := After(times).grants;
            var n := |g|;
            !Decide(After(times).stats, now).granted
            <==> && n >= 5 && now - g[n - 1] <= RESTART_WINDOW
                 && forall i :: n - 5 <= i < n - 1 ==> g[i + 1] - g[i] <= RESTART_WINDOW
  {
    assert times == (times + [now])[..|times|];
    HistoryIsChained(times);
    var h := After(times);
    if h.stats.Some? && h.stats.value.count < 5 && |h.grants| >= 5 {
      var j := |h.grants| - h.stats.value.count - 1;
      assert h.grants[j + 1] - h.grants[j] > RESTART_WINDOW;
    }
  }

  /** So it is stricter than a sliding window: five restarts a minute apart block the sixth a minute later. */
  lemma StricterThanSlidingWindow()
    ensures exists times: seq<int>, now: int ::
              && Sorted(times + [now]) && !Decide(After(times).stats, now).granted
              && |GrantsIn(After(times).grants, now - RESTART_WINDOW, now)| < MAX_RESTARTS
  {
    var times := [0, 60000, 120000, 180000, 240000];
    FiveSpacedGrants(times);
    assert GrantsIn(times, 240000, 300000) == {4};
    assert Sorted(times + [300000]) && !Decide(After(times).stats, 300000).granted;
  }

  lemma {:induction false} FiveSpacedGrants(times: seq<int>)
    requires |times| <= 5 && forall i :: 0 <= i < |times| ==> times[i] == 60000 * i
    ensures After(times) ==
              History(if times == [] then None else Some(Stats(|times|, 60000 * (|times| - 1))), times)
  {
    if times != [] {
      FiveSpacedGrants(times[..|times| - 1]);
    }
  }

  // ==== several workers ====

  datatype Restart = Restart(workerId: Id, at: int)

  function TimesOf(calls: seq<Restart>, workerId: Id): seq<int> {
    if calls == [] then []
    else
      var last := calls[|calls| - 1];
      TimesOf(calls[..|calls| - 1], workerId) + if last.workerId == workerId then [last.at] else []
  }

  /** The map the primary process keeps after a sequence of calls. */
  function Table(calls: seq<Restart>): map<Id, Stats> {
    if calls == [] then map[]
    else
      var before, last := Table(calls[..|calls| - 1]), calls[|calls| - 1];
      var stats := if last.workerId in before then Some(before[last.workerId]) else None;
      before[last.workerId := Decide(stats, last.at).stats]
  }

  /** Workers do not share a budget: the entry of each is what its own calls alone would have left. */
  lemma {:induction false} WorkersAreIndependent(calls: seq<Restart>, workerId: Id)
    ensures (if workerId in Table(calls) then Some(Table(calls)[workerId]) else None)
            == After(TimesOf(calls, workerId)).stats
  {
    if calls != [] {
      var init, last := calls[..|calls| - 1], calls[|calls| - 1];
      WorkersAreIndependent(init, workerId);
      if last.workerId == workerId {
        var times := TimesOf(calls, workerId);
        assert times[..|times| - 1] == TimesOf(init, workerId);
      } else {
        assert TimesOf(calls, workerId) == TimesOf(init, workerId);
      }
    } else {
      assert TimesOf(calls, workerId) == [];
    }
  }
}
