/** Automatic redispatch on the booking path: a counter with a time to live, the first free driver, and a new assignment
    through createAssignment; among all the other calls of the engine, and several chains of one booking at once. */
module Redispatch {
  import opened StateMachines
  import opened Rows
  import opened Dispatch
  import opened Runs
  import Store

  const MAX_REDISPATCH_ATTEMPTS: nat := 2
  const COUNTER_TTL_SECONDS: int := 300

  /** The Redis counter: absent once its time to live is over. The lifetime starts at the first increment only. */
  datatype Counter = Counter(count: nat, expiresAt: int)

  function Attempts(c: Option<Counter>, now: int): nat {
    if c.Some? && now < c.value.expiresAt then c.value.count else 0
  }

  function Counted(c: Option<Counter>, now: int): Option<Counter> {
    if Attempts(c, now) == 0 then Some(Counter(1, now + COUNTER_TTL_SECONDS))
    else Some(c.value.(count := c.value.count + 1))
  }

  /** What one attempt is given and finds outside the tables: the fleet query's answer and who is online. */
  datatype Request = Request(
    transporterId: Id,
    bookingId: Id,
    vehicleId: Id,
    newId: Id,
    tripId: Id,
    declined: Id,
    fleet: seq<Id>,
    online: set<Id>)

  function CreateFor(req: Request, driver: Id): CreateRequest {
    CreateRequest(req.transporterId, req.bookingId, req.vehicleId, driver, req.newId, req.tripId)
  }

  predicate IsCandidate(driver: Id, declined: Id, online: set<Id>, assignments: map<Id, Assignment>) {
    driver != declined && driver in online && DriverIdle(assignments, driver)
  }

  function FirstCandidate(fleet: seq<Id>, declined: Id, online: set<Id>, assignments: map<Id, Assignment>): Option<Id> {
    if fleet == [] then None
    else if IsCandidate(fleet[0], declined, online, assignments) then Some(fleet[0])
    else FirstCandidate(fleet[1..], declined, online, assignments)
  }

  /** The choice is the first driver of the list who may be asked, and none only if there is none. */
  lemma {:induction false} FirstCandidateIsFirst(
    fleet: seq<Id>, declined: Id, online: set<Id>, assignments: map<Id, Assignment>) returns (k: nat)
    ensures k <= |fleet| && forall j | 0 <= j < k :: !IsCandidate(fleet[j], declined, online, assignments)
    ensures if k < |fleet| then
              && IsCandidate(fleet[k], declined, online, assignments)
              && FirstCandidate(fleet, declined, online, assignments) == Some(fleet[k])
            else FirstCandidate(fleet, declined, online, assignments) == None
  {
    if fleet == [] || IsCandidate(fleet[0], declined, online, assignments) {
      k := 0;
    } else {
      k := FirstCandidateIsFirst(fleet[1..], declined, online, assignments);
      k := k + 1;
    }
  }

  datatype Tried = Tried(counter: Option<Counter>, db: Db, created: bool)

  function Pick(seen: Seen, req: Request): Option<Id> {
    FirstCandidate(req.fleet, req.declined, req.online, seen.assignments)
  }

  /** tryAutoRedispatch: `read` is the count it read first; the driver is picked on rows read next; then
      createAssignment, whose failure throws past the increment. */
  function TryRedispatch(c: Option<Counter>, read: nat, seen: Seen, s: Db, req: Request, now: int): Tried {
    if read >= MAX_REDISPATCH_ATTEMPTS || Pick(seen, req).None? then Tried(c, s, false)
    else
      var r := CreateAssignment(seen, s, CreateFor(req, Pick(seen, req).value));
      if r.outcome == Done then Tried(Counted(c, now), r.db, true) else Tried(c, r.db, false)
  }

  /** Somebody else than the decliner, online, and without a trip under way. */
  predicate MayBeAsked(driver: Id, req: Request, assignments: map<Id, Assignment>) {
    && driver != req.declined && driver in req.online
    && (forall id | id in assignments && assignments[id].driverId == driver ::
          assignments[id].status in {Completed, PartialDelivery, DriverDeclined, Cancelled})
  }

  /** One attempt creates exactly if it read a count below two and the create for the first listed driver who may be
      asked wins; then that create is all it does to the tables, and the count goes up by one or starts anew. */
  lemma AttemptCreatesIff(c: Option<Counter>, read: nat, seen: Seen, s: Db, req: Request, now: int) returns (k: nat)
    ensures k <= |req.fleet| && forall j | 0 <= j < k :: !MayBeAsked(req.fleet[j], req, seen.assignments)
    ensures k < |req.fleet| ==> MayBeAsked(req.fleet[k], req, seen.assignments)
    ensures var tried := TryRedispatch(c, read, seen, s, req, now);
            && (tried.created
                <==> && read < 2 && k < |req.fleet|
                     && CreateAssignment(seen, s, CreateFor(req, req.fleet[k])).outcome == Done)
            && if tried.created then
                 && tried.db == CreateAssignment(seen, s, CreateFor(req, req.fleet[k])).db
                 && tried.counter == Some(
                      if c.Some? && now < c.value.expiresAt && c.value.count > 0 then
                        Counter(c.value.count + 1, c.value.expiresAt)
                      else Counter(1, now + 300))
               else tried.db == s && tried.counter == c
  {
    k := FirstCandidateIsFirst(req.fleet, req.declined, req.online, seen.assignments);
    if k < |req.fleet| {
      assert IsCandidate(req.fleet[k], req.declined, req.online, seen.assignments);
    }
    forall j | 0 <= j < k
      ensures !MayBeAsked(req.fleet[j], req, seen.assignments)
    {
      assert !IsCandidate(req.fleet[j], req.declined, req.online, seen.assignments);
    }
  }

  class Service {
    const db: Store.Database
    var counter: Option<Counter>

    constructor (db: Store.Database)
      ensures this.db == db && counter == None
    {
      this.db, counter := db, None;
    }

    /** The fleet query already leaves the decliner out; then the first driver online and without an active trip. */
    method PickDriver(assignments: map<Id, Assignment>, fleet: seq<Id>, declined: Id, online: set<Id>)
      returns (choice: Option<Id>)
      ensures choice == FirstCandidate(fleet, declined, online, assignments)
    {
      for i := 0 to |fleet|
        invariant FirstCandidate(fleet, declined, online, assignments)
                  == FirstCandidate(fleet[i..], declined, online, assignments)
      {
        var driver := fleet[i];
        assert fleet[i..][0] == driver && fleet[i..][1..] == fleet[i + 1..];
        if driver == declined || driver !in online {
          continue;
        }
        var active := exists id | id in assignments ::
          assignments[id].driverId == driver && !IsTerminal(assignments[id].status);
        if active {
          assert !DriverIdle(assignments, driver);
          continue;
        }
        return Some(driver);
      }
      choice := None;
    }

    method TryAutoRedispatch(read: nat, seen: Seen, req: Request, now: int) returns (created: bool)
      modifies this, db
      ensures Tried(counter, db.Tables(), created)
              == TryRedispatch(old(counter), read, seen, old(db.Tables()), req, now)
    {
      if read >= MAX_REDISPATCH_ATTEMPTS {
        return false;
      }
      var choice := PickDriver(seen.assignments, req.fleet, req.declined, req.online);
      if choice.None? {
        return false;
      }
      var outcome := db.CreateAssignment(seen, CreateFor(req, choice.value));
      if outcome != Done {
        return false;
      }
      var live := counter.Some? && now < counter.value.expiresAt && counter.value.count > 0;
      counter := if live then Some(counter.value.(count := counter.value.count + 1))
                 else Some(Counter(1, now + COUNTER_TTL_SECONDS));
      created := true;
    }
  }

  /** The picked driver is refused as busy exactly when a trip of the driver was created since the pick. */
  lemma RefusedBusyIff(seen: Seen, s: Db, req: Request, driver: Id)
    requires StaleView(seen.assignments, s.assignments) && Pick(seen, req) == Some(driver)
    requires CreatePrecheck(seen, s.drivers, CreateFor(req, driver)) == None
    ensures CreateAssignment(seen, s, CreateFor(req, driver)).outcome == Failed(DriverBusy)
            <==> exists id | id in s.assignments ::
                   && id !in seen.assignments
                   && s.assignments[id].driverId == driver && !IsTerminal(s.assignments[id].status)
  {
    var _ := FirstCandidateIsFirst(req.fleet, req.declined, req.online, seen.assignments);
    forall id | id in seen.assignments && s.assignments[id].driverId == driver
      ensures IsTerminal(s.assignments[id].status)
    {
      assert RowStep(seen.assignments[id], s.assignments[id]);
    }
  }

  // ==== runs of redispatch attempts among engine calls ====

  datatype World = World(counter: Option<Counter>, db: Db)

  datatype Step =
    | Engine(seen: Seen, op: Op)
    | Attempt(seen: Seen, read: nat, req: Request, now: int)

  function TriedAt(w: World, step: Step): Tried
    requires step.Attempt?
  {
    TryRedispatch(w.counter, step.read, step.seen, w.db, step.req, step.now)
  }

  predicate StepOf(d: Decrement, w: World, step: Step, after: World) {
    IsStale(step.seen, w.db) &&
    match step
    case Engine(seen, op) =>
      ReadsAtomically(seen, w.db, op) && after == World(w.counter, Exec(d, seen, w.db, op).db)
    case Attempt(_, _, _, _) => after == World(TriedAt(w, step).counter, TriedAt(w, step).db)
  }

  predicate StepAt(d: Decrement, states: seq<World>, steps: seq<Step>, i: nat)
    requires i < |steps| < |states|
  {
    StepOf(d, states[i], steps[i], states[i + 1])
  }

  ghost predicate IsRun(d: Decrement, states: seq<World>, steps: seq<Step>) {
    && |states| == |steps| + 1
    && (forall i | 0 <= i < |steps| :: StepAt(d, states, steps, i))
    && (forall i, j | 0 <= i < j < |steps| && steps[i].Attempt? && steps[j].Attempt? :: steps[i].now <= steps[j].now)
  }

  predicate CreatesAt(states: seq<World>, steps: seq<Step>, i: nat)
    requires i < |steps| < |states|
  {
    steps[i].Attempt? && TriedAt(states[i], steps[i]).created
  }

  /** The count it read is no longer the count. */
  predicate ReadStale(states: seq<World>, steps: seq<Step>, i: nat)
    requires i < |steps| < |states|
  {
    steps[i].Attempt? && steps[i].read != Attempts(states[i].counter, steps[i].now)
  }

  function Creations(states: seq<World>, steps: seq<Step>, i: nat, j: nat): nat
    requires i <= j <= |steps| < |states|
  {
    if i == j then 0 else Creations(states, steps, i, j - 1) + if CreatesAt(states, steps, j - 1) then 1 else 0
  }

  function StaleCreations(states: seq<World>, steps: seq<Step>, i: nat, j: nat): nat
    requires i <= j <= |steps| < |states|
  {
    if i == j then 0
    else
      StaleCreations(states, steps, i, j - 1)
        + if CreatesAt(states, steps, j - 1) && ReadStale(states, steps, j - 1) then 1 else 0
  }

  /** Attempt `k` creates and starts a lifetime of the counter. */
  predicate StartsLifetime(states: seq<World>, steps: seq<Step>, k: nat)
    requires k < |steps| < |states|
  {
    CreatesAt(states, steps, k) && Attempts(states[k].counter, steps[k].now) == 0
  }

  predicate WithinLifetime(steps: seq<Step>, k: nat, j: nat)
    requires k < |steps| && j <= |steps| && steps[k].Attempt?
  {
    forall i | k <= i < j && steps[i].Attempt? :: steps[i].now < steps[k].now + COUNTER_TTL_SECONDS
  }

  lemma CounterStep(d: Decrement, states: seq<World>, steps: seq<Step>, i: nat)
    requires IsRun(d, states, steps) && i < |steps|
    ensures states[i + 1].counter
            == if CreatesAt(states, steps, i) then Counted(states[i].counter, steps[i].now) else states[i].counter
    ensures CreatesAt(states, steps, i) ==> steps[i].read < MAX_REDISPATCH_ATTEMPTS
  {
    assert StepAt(d, states, steps, i);
  }

  /** While a lifetime lasts the counter says how many trips were created in it: at most two, and one more for every
      attempt that had read an older count. Failed attempts, other chains and other calls in between count for
      nothing. */
  lemma {:induction false} CreationsPerLifetime(d: Decrement, states: seq<World>, steps: seq<Step>, k: nat, j: nat)
    requires IsRun(d, states, steps) && k < j <= |steps| && StartsLifetime(states, steps, k)
    requires WithinLifetime(steps, k, j)
    ensures states[j].counter == Some(Counter(Creations(states, steps, k, j), steps[k].now + COUNTER_TTL_SECONDS))
    ensures 1 <= Creations(states, steps, k, j) <= MAX_REDISPATCH_ATTEMPTS + StaleCreations(states, steps, k, j)
    decreases j
  {
    CounterStep(d, states, steps, j - 1);
    if j == k + 1 {
      assert Creations(states, steps, k, k) == 0;
    } else {
      CreationsPerLifetime(d, states, steps, k, j - 1);
    }
  }

  lemma {:induction false} FreshReadsAreNotStale(states: seq<World>, steps: seq<Step>, k: nat, j: nat)
    requires k <= j <= |steps| < |states| && forall i | k <= i < j :: !ReadStale(states, steps, i)
    ensures StaleCreations(states, steps, k, j) == 0
    decreases j
  {
    if k < j {
      FreshReadsAreNotStale(states, steps, k, j - 1);
    }
  }

  /** The next attempt would find a driver and its create would win. */
  predicate CouldCreate(w: World, step: Step) {
    step.Attempt? && Pick(step.seen, step.req).Some?
    && CreateAssignment(step.seen, w.db, CreateFor(step.req, Pick(step.seen, step.req).value)).outcome == Done
  }

  /** In a run of any length, an attempt on an up-to-date count creates if and only if it could and fewer than two trips
      were created in the lifetime, or the lifetime is over, 300 seconds after its first. */
  lemma CreatesIff(d: Decrement, states: seq<World>, steps: seq<Step>, k: nat, j: nat)
    requires IsRun(d, states, steps) && k < j < |steps| && StartsLifetime(states, steps, k)
    requires WithinLifetime(steps, k, j) && steps[j].Attempt? && !ReadStale(states, steps, j)
    ensures CreatesAt(states, steps, j)
            <==> && CouldCreate(states[j], steps[j])
                 && (Creations(states, steps, k, j) < 2 || steps[j].now >= steps[k].now + COUNTER_TTL_SECONDS)
  {
    CreationsPerLifetime(d, states, steps, k, j);
  }

  // ==== chains ====

  /** Between attempts `a` and `b`, the trip created at `a` is declined or times out, and `b` is the attempt that
      follows: for the same booking, without the driver it was taken from, and within the time given. */
  ghost predicate Follows(d: Decrement, states: seq<World>, steps: seq<Step>, a: nat, b: nat, within: int)
    requires |steps| < |states|
  {
    && a < b < |steps| && steps[a].Attempt? && steps[b].Attempt? && CreatesAt(states, steps, a)
    && steps[b].req.bookingId == steps[a].req.bookingId && steps[b].now - steps[a].now <= within
    && exists x | a < x < b :: IsExitOf(d, states[x], steps[x], steps[a].req.newId, steps[b].req.declined)
  }

  /** A winning decline or timeout of trip `id`, whose driver is `driver`. */
  predicate IsExitOf(d: Decrement, w: World, step: Step, id: Id, driver: Id) {
    && step.Engine? && (step.op.OpDecline? || step.op.OpTimeout?) && step.op.id == id
    && Exec(d, step.seen, w.db, step.op).outcome == Done
    && id in w.db.assignments && w.db.assignments[id].driverId == driver
  }

  /** Each attempt of the chain but the first follows the one before. */
  ghost predicate IsChain(d: Decrement, states: seq<World>, steps: seq<Step>, chain: seq<nat>, within: int)
    requires |steps| < |states|
  {
    && chain != [] && chain[0] < |steps| && steps[chain[0]].Attempt?
    && forall m | 0 <= m < |chain| - 1 :: Follows(d, states, steps, chain[m], chain[m + 1], within)
  }

  lemma {:induction false} TwoCreations(states: seq<World>, steps: seq<Step>, a: nat, b: nat, j: nat)
    requires a < b < j <= |steps| < |states| && CreatesAt(states, steps, a) && CreatesAt(states, steps, b)
    ensures Creations(states, steps, a, j) >= 2
    decreases j
  {
    if b == j - 1 {
      OneCreation(states, steps, a, b);
    } else {
      TwoCreations(states, steps, a, b, j - 1);
    }
  }

  lemma {:induction false} OneCreation(states: seq<World>, steps: seq<Step>, a: nat, j: nat)
    requires a < j <= |steps| < |states| && CreatesAt(states, steps, a)
    ensures Creations(states, steps, a, j) >= 1
    decreases j
  {
    if a < j - 1 {
      OneCreation(states, steps, a, j - 1);
    }
  }

  /** A chain that starts on a lapsed counter and in which every automatic trip is declined or times out, and the next
      attempt made, within T seconds, creates at most two trips and then stops, if 2 T is under the lifetime and its
      third attempt reads the count as it is: whatever else runs in between, other chains on older counts included, that
      attempt creates nothing and there is no fourth. */
  lemma ChainStops(d: Decrement, states: seq<World>, steps: seq<Step>, chain: seq<nat>, within: int)
    requires IsRun(d, states, steps) && IsChain(d, states, steps, chain, within)
    requires Attempts(states[chain[0]].counter, steps[chain[0]].now) == 0 && 2 * within < COUNTER_TTL_SECONDS
    requires |chain| >= 3 && chain[2] < |steps| ==> !ReadStale(states, steps, chain[2])
    ensures |chain| <= 3
    ensures |chain| == 3 ==> chain[2] < |steps| && !CreatesAt(states, steps, chain[2])
  {
    if |chain| >= 3 {
      var a, b, e := chain[0], chain[1], chain[2];
      assert Follows(d, states, steps, chain[0], chain[0 + 1], within);
      assert Follows(d, states, steps, chain[1], chain[1 + 1], within);
      assert |chain| > 3 ==> Follows(d, states, steps, chain[2], chain[2 + 1], within);
      TwoCreations(states, steps, a, b, e);
      assert WithinLifetime(steps, a, e);
      CreatesIff(d, states, steps, a, e);
    }
  }

  lemma StepIsTripStep(d: Decrement, w: World, step: Step, after: World)
    requires StepOf(d, w, step, after)
    ensures TripStep(w.db.assignments, after.db.assignments)
  {
    match step
    case Engine(seen, op) => TripStepOf(d, seen, w.db, op);
    case Attempt(seen, _, req, _) =>
      if Pick(seen, req).Some? {
        CreateIsTripStep(seen, w.db, CreateFor(req, Pick(seen, req).value));
      }
  }

  lemma RowStepAt(d: Decrement, states: seq<World>, steps: seq<Step>, i: nat, id: Id)
    requires IsRun(d, states, steps) && i < |steps| && id in states[i].db.assignments
    ensures id in states[i + 1].db.assignments
    ensures SameTrip(states[i].db.assignments[id], states[i + 1].db.assignments[id])
  {
    assert StepAt(d, states, steps, i);
    StepIsTripStep(d, states[i], steps[i], states[i + 1]);
    assert RowStep(states[i].db.assignments[id], states[i + 1].db.assignments[id]);
  }

  lemma {:induction false} TripKeepsDriver(d: Decrement, states: seq<World>, steps: seq<Step>, i: nat, j: nat, id: Id)
    requires IsRun(d, states, steps) && i <= j < |states| && id in states[i].db.assignments
    ensures id in states[j].db.assignments
    ensures SameTrip(states[i].db.assignments[id], states[j].db.assignments[id])
    decreases j
  {
    if i < j {
      TripKeepsDriver(d, states, steps, i, j - 1, id);
      RowStepAt(d, states, steps, j - 1, id);
    }
  }

  lemma CreatedFor(d: Decrement, states: seq<World>, steps: seq<Step>, a: nat)
    requires IsRun(d, states, steps) && a < |steps| && CreatesAt(states, steps, a)
    ensures var id, pick := steps[a].req.newId, Pick(steps[a].seen, steps[a].req);
            pick.Some? && id in states[a + 1].db.assignments
            && states[a + 1].db.assignments[id].driverId == pick.value
  {
    assert StepAt(d, states, steps, a);
    CommitTables(states[a].db, CreateFor(steps[a].req, Pick(steps[a].seen, steps[a].req).value));
  }

  /** Whoever loses the trip created at `a` is the driver it was created for. */
  lemma DeclinedByPick(d: Decrement, states: seq<World>, steps: seq<Step>, a: nat, b: nat, within: int)
    requires IsRun(d, states, steps) && Follows(d, states, steps, a, b, within)
    ensures Pick(steps[a].seen, steps[a].req) == Some(steps[b].req.declined)
  {
    var id := steps[a].req.newId;
    var x :| a < x < b && IsExitOf(d, states[x], steps[x], id, steps[b].req.declined);
    CreatedFor(d, states, steps, a);
    TripKeepsDriver(d, states, steps, a + 1, x, id);
  }

  /** Along a chain the trip never goes back to the driver who just declined it or let it lapse, and goes to one who was
      idle when picked. */
  lemma NextDriverDiffers(d: Decrement, states: seq<World>, steps: seq<Step>, a: nat, b: nat, within: int)
    requires IsRun(d, states, steps) && Follows(d, states, steps, a, b, within) && CreatesAt(states, steps, b)
    ensures var first, next := Pick(steps[a].seen, steps[a].req), Pick(steps[b].seen, steps[b].req);
            && first.Some? && next.Some? && first != next
            && DriverIdle(steps[b].seen.assignments, next.value) && next.value in steps[b].req.online
  {
    DeclinedByPick(d, states, steps, a, b, within);
    var req := steps[b].req;
    var _ := FirstCandidateIsFirst(req.fleet, req.declined, req.online, steps[b].seen.assignments);
  }

  // ==== older counts are paid for ====

  /** The worlds that a list of attempts goes through. */
  function Through(w: World, steps: seq<Step>): (states: seq<World>)
    requires AllAttempts(steps)
    ensures |states| == |steps| + 1 && states[0] == w
    decreases |steps|
  {
    if steps == [] then [w]
    else [w] + Through(World(TriedAt(w, steps[0]).counter, TriedAt(w, steps[0]).db), steps[1..])
  }

  lemma {:induction false} ThroughAt(w: World, steps: seq<Step>, i: nat)
    requires AllAttempts(steps) && i < |steps|
    ensures var states := Through(w, steps);
            var tried := TriedAt(states[i], steps[i]);
            states[i + 1] == World(tried.counter, tried.db)
    decreases |steps|
  {
    if i > 0 {
      ThroughAt(World(TriedAt(w, steps[0]).counter, TriedAt(w, steps[0]).db), steps[1..], i - 1);
    }
  }

  /** Attempt `i` can create, at the moment `now`, having read a count of none if it is the first and of one if not. */
  predicate RushesAt(states: seq<World>, steps: seq<Step>, now: int, i: nat)
    requires i < |steps| < |states|
  {
    && CouldCreate(states[i], steps[i]) && IsStale(steps[i].seen, states[i].db)
    && steps[i].now == now && steps[i].read == if i == 0 then 0 else 1
  }

  /** Attempts that all create at one moment, on a lapsed counter. */
  ghost predicate IsRush(states: seq<World>, steps: seq<Step>, now: int) {
    && |steps| >= 2 && |states| == |steps| + 1 && Attempts(states[0].counter, now) == 0
    && forall i | 0 <= i < |steps| :: RushesAt(states, steps, now, i)
  }

  predicate AllAttempts(steps: seq<Step>) {
    forall i | 0 <= i < |steps| :: steps[i].Attempt?
  }

  lemma RushStep(w: World, steps: seq<Step>, now: int, i: nat)
    requires AllAttempts(steps) && IsRush(Through(w, steps), steps, now) && i < |steps|
    ensures var states := Through(w, steps);
            && CreatesAt(states, steps, i) && states[i + 1].counter == Counted(states[i].counter, now)
            && (ReadStale(states, steps, i) <==> Attempts(states[i].counter, now) != if i == 0 then 0 else 1)
  {
    ThroughAt(w, steps, i);
    assert RushesAt(Through(w, steps), steps, now, i);
  }

  lemma {:induction false} RushCounts(w: World, steps: seq<Step>, now: int, j: nat)
    requires AllAttempts(steps) && IsRush(Through(w, steps), steps, now) && 0 < j <= |steps|
    ensures var states := Through(w, steps);
            && Attempts(states[j].counter, now) == j
            && Creations(states, steps, 0, j) == j
            && StaleCreations(states, steps, 0, j) == if j <= 2 then 0 else j - 2
    decreases j
  {
    RushStep(w, steps, now, j - 1);
    if j > 1 {
      RushCounts(w, steps, now, j - 1);
    } else {
      assert Creations(Through(w, steps), steps, 0, 0) == 0 && StaleCreations(Through(w, steps), steps, 0, 0) == 0;
    }
  }

  lemma RushIsRun(d: Decrement, w: World, steps: seq<Step>, now: int)
    requires AllAttempts(steps) && IsRush(Through(w, steps), steps, now)
    ensures IsRun(d, Through(w, steps), steps)
  {
    var states := Through(w, steps);
    forall i | 0 <= i < |steps|
      ensures StepAt(d, states, steps, i) && steps[i].now == now
    {
      ThroughAt(w, steps, i);
      assert RushesAt(states, steps, now, i);
    }
  }

  /** A booking for n trucks, and n idle drivers with a vehicle each, of one transporter. */
  function Fleet(n: nat): Db {
    Db(map[], map v | v in Below(n) :: Vehicle(5, 0, None, Available, None, None),
       map[1 := Booking(7, 0, None, n, 0, Active, 100)], map v | v in Below(n) :: 5)
  }

  function Below(n: nat): (ids: set<Id>)
    ensures forall v: Id :: v in ids <==> v < n
  {
    if n == 0 then {} else Below(n - 1) + {n - 1}
  }

  function RushFor(n: nat): (steps: seq<Step>)
    ensures |steps| == n && AllAttempts(steps)
  {
    seq(n, i requires 0 <= i =>
      Attempt(Fresh(Fleet(n)), if i == 0 then 0 else 1, Request(5, 1, i, i, i, i + 1, [i], {i}), 0))
  }

  /** The tables after the first i of them. */
  predicate AfterRush(n: nat, i: nat, s: Db) {
    && s.drivers == Fleet(n).drivers && IsStale(Fresh(Fleet(n)), s)
    && forall id | id in s.assignments :: id < i && s.assignments[id].driverId == id && s.assignments[id].tripId == id
  }

  lemma RushCouldCreate(n: nat, i: nat, w: World)
    requires i < n && AfterRush(n, i, w.db)
    ensures CouldCreate(w, RushFor(n)[i])
  {
    var step := RushFor(n)[i];
    assert [i][1..] == [] && DriverIdle(step.seen.assignments, i);
    assert Pick(step.seen, step.req) == Some(i);
  }

  lemma StaleAfterCreate(seen: Seen, s: Db, older: Seen, req: CreateRequest)
    requires IsStale(older, s)
    ensures IsStale(older, CreateAssignment(seen, s, req).db)
  {
    var after := CreateAssignment(seen, s, req).db;
    CreateIsTripStep(seen, s, req);
    CreateKeepsFleet(seen, s, req);
    CreateRewrites(seen, s, req);
    RewriteIsBookingStep(s, after, req.bookingId);
    forall v | v in older.vehicles
      ensures v in after.vehicles && SameVehicle(older.vehicles[v], after.vehicles[v])
    {
      assert v in s.vehicles.Keys;
    }
  }

  lemma RushTablesStep(n: nat, i: nat, w: World)
    requires i < n && AfterRush(n, i, w.db)
    ensures AfterRush(n, i + 1, TriedAt(w, RushFor(n)[i]).db)
  {
    var step := RushFor(n)[i];
    var create := CreateFor(step.req, i);
    RushCouldCreate(n, i, w);
    assert Pick(step.seen, step.req) == Some(i) by {
      assert [i][1..] == [] && DriverIdle(step.seen.assignments, i);
    }
    var after := TriedAt(w, step).db;
    assert after == CreateAssignment(step.seen, w.db, create).db;
    StaleAfterCreate(step.seen, w.db, Fresh(Fleet(n)), create);
    CreateKeepsFleet(step.seen, w.db, create);
    assert after.assignments == w.db.assignments[i := NewAssignment(create)] by {
      CommitTables(w.db, create);
    }
  }

  lemma {:induction false} RushTables(n: nat, i: nat)
    requires i <= n
    ensures AfterRush(n, i, Through(World(None, Fleet(n)), RushFor(n))[i].db)
  {
    if i > 0 {
      RushTables(n, i - 1);
      var w, steps := World(None, Fleet(n)), RushFor(n);
      RushTablesStep(n, i - 1, Through(w, steps)[i - 1]);
      ThroughAt(w, steps, i - 1);
    }
  }

  /** The bound is reached at every number of older counts: for every n from two on there is a run, from tables that are
      in order, in which n attempts create in one lifetime, n - 2 of them on an older count. */
  lemma OlderCountsAreSpent(d: Decrement, n: nat)
    requires n >= 2
    ensures var steps := RushFor(n);
            var states := Through(World(None, Fleet(n)), steps);
            && IsRun(d, states, steps) && StartsLifetime(states, steps, 0) && WithinLifetime(steps, 0, n)
            && Creations(states, steps, 0, n) == n
            && StaleCreations(states, steps, 0, n) == n - MAX_REDISPATCH_ATTEMPTS
  {
    var w, steps := World(None, Fleet(n)), RushFor(n);
    var states := Through(w, steps);
    forall i | 0 <= i < n
      ensures RushesAt(states, steps, 0, i)
    {
      RushTables(n, i);
      RushCouldCreate(n, i, states[i]);
    }
    RushIsRun(d, w, steps, 0);
    RushCounts(w, steps, 0, n);
    RushStep(w, steps, 0, 0);
  }
}
