/** One-time-password challenges kept in Redis and in the OtpStore table, checked under a Redis lock or, when Redis
    cannot lock, under a row lock. Both keep an attempt counter; both are meant to behave as one. */
module OtpChallenge {
  import opened Rows

  /** A digest; hashing is injective, so comparing digests is comparing passwords. */
  type Digest = nat

  datatype Record = Record(hash: Digest, expiresAt: int, attempts: nat)

  /** `counter` is the separate Redis attempts key, absent as zero. */
  datatype Stores = Stores(redis: Option<Record>, counter: nat, row: Option<Record>)

  datatype Verdict =
    | Verified
    | NotFound
    | OtpExpired
    | Invalid(attemptsRemaining: int)
    | MaxAttempts
    | VerifyInProgress

  /** What asking Redis for the verify lock came to. */
  datatype Lock = Acquired | HeldElsewhere | Unavailable

  /** The `allowed` flag of incrementOtpAttempts. Its code allows up to and including the maximum; the fallback of the
      verify path, used when the increment throws, wants something remaining. `SomethingRemaining` is the increment read
      the way that fallback reads it. */
  datatype AllowedRule = AtMostMaximum | SomethingRemaining

  datatype Increment = Increment(counter: nat, allowed: bool, remaining: int)

  function IncrementAttempts(rule: AllowedRule, counter: nat, max: nat): Increment {
    var attempts := counter + 1;
    var remaining := if max - attempts > 0 then max - attempts else 0;
    Increment(attempts, if rule.AtMostMaximum? then attempts <= max else remaining > 0, remaining)
  }

  datatype Checked = Checked(stores: Stores, verdict: Verdict)

  const DELETED := Stores(None, 0, None)

  /** Which of the two stores takes the writes of one call. The code ignores a store that fails; only the row path's own
      transaction cannot be ignored. */
  datatype Writes = Writes(redis: bool, row: bool)

  const BOTH := Writes(true, true)

  function Delete(s: Stores, w: Writes): Stores {
    Stores(if w.redis then None else s.redis, if w.redis then 0 else s.counter, if w.row then None else s.row)
  }

  function Max(a: nat, b: nat): nat {
    if a > b then a else b
  }

  function RowAfterMiss(row: Option<Record>): Option<Record> {
    if row.Some? then Some(row.value.(attempts := row.value.attempts + 1)) else None
  }

  /** The record the Redis path works on: Redis first, then the row. */
  function Stored(s: Stores): Option<Record> {
    if s.redis.Some? then s.redis else s.row
  }

  function AttemptsSeen(s: Stores): nat
    requires Stored(s).Some?
  {
    Max(Stored(s).value.attempts, s.counter)
  }

  function VerifyUnderRedisLock(
    rule: AllowedRule, max: nat, s: Stores, digest: Digest, now: int, w: Writes): Checked
  {
    if Stored(s).None? then Checked(s, NotFound)
    else
      var stored := Stored(s).value;
      if now > stored.expiresAt then Checked(Delete(s, w), OtpExpired)
      else if AttemptsSeen(s) >= max then Checked(Delete(s, w), MaxAttempts)
      else if digest == stored.hash then Checked(Delete(s, w), Verified)
      else
        var fallback := max - AttemptsSeen(s) - 1;
        var inc := if w.redis then IncrementAttempts(rule, s.counter, max)
                   else Increment(s.counter, fallback > 0, fallback);
        var counted := Stores(s.redis, inc.counter, if w.row then RowAfterMiss(s.row) else s.row);
        if inc.allowed then Checked(counted, Invalid(inc.remaining)) else Checked(Delete(counted, w), MaxAttempts)
  }

  /** The row's own writes are the transaction; `mirrored` says whether Redis took its copy of them afterwards. */
  function VerifyUnderRowLock(max: nat, s: Stores, digest: Digest, now: int, mirrored: bool): Checked {
    if s.row.None? then Checked(s, NotFound)
    else
      var stored := s.row.value;
      var gone := Delete(s, Writes(mirrored, true));
      if now > stored.expiresAt then Checked(gone, OtpExpired)
      else if stored.attempts >= max then Checked(gone, MaxAttempts)
      else if digest == stored.hash then Checked(gone, Verified)
      else if stored.attempts + 1 >= max then Checked(gone, MaxAttempts)
      else
        var counter := if mirrored then s.counter + 1 else s.counter;
        Checked(Stores(s.redis, counter, RowAfterMiss(s.row)), Invalid(max - (stored.attempts + 1)))
  }

  function VerifyOnce(
    rule: AllowedRule, max: nat, s: Stores, lock: Lock, digest: Digest, now: int, w: Writes): Checked
  {
    match lock
    case Acquired => VerifyUnderRedisLock(rule, max, s, digest, now, w)
    case HeldElsewhere => Checked(s, VerifyInProgress)
    case Unavailable => VerifyUnderRowLock(max, s, digest, now, w.redis)
  }

  /** The service as code over its two stores. */
  class Service {
    const rule: AllowedRule
    const maxAttempts: nat
    var redis: Option<Record>
    var counter: nat
    var row: Option<Record>

    ghost function State(): Stores
      reads this
    {
      Stores(redis, counter, row)
    }

    constructor (rule: AllowedRule, maxAttempts: nat, leftover: nat)
      ensures this.rule == rule && this.maxAttempts == maxAttempts
      ensures State() == Stores(None, leftover, None)
    {
      this.rule, this.maxAttempts := rule, maxAttempts;
      redis, counter, row := None, leftover, None;
    }

    /** Either store may fail; the attempts key of an earlier challenge is not reset. */
    method IssueChallenge(hash: Digest, expiresAt: int, redisStores: bool, dbStores: bool)
      modifies this
      ensures counter == old(counter)
      ensures redis == if redisStores then Some(Record(hash, expiresAt, 0)) else old(redis)
      ensures row == if dbStores then Some(Record(hash, expiresAt, 0)) else old(row)
    {
      if redisStores {
        redis := Some(Record(hash, expiresAt, 0));
      }
      if dbStores {
        row := Some(Record(hash, expiresAt, 0));
      }
    }

    method DeleteChallenge(w: Writes)
      modifies this
      ensures State() == Delete(old(State()), w)
    {
      if w.redis {
        redis, counter := None, 0;
      }
      if w.row {
        row := None;
      }
    }

    method VerifyChallenge(lock: Lock, digest: Digest, now: int, w: Writes) returns (verdict: Verdict)
      modifies this
      ensures Checked(State(), verdict) == VerifyOnce(rule, maxAttempts, old(State()), lock, digest, now, w)
    {
      if lock.HeldElsewhere? {
        return VerifyInProgress;
      }
      if lock.Unavailable? {
        verdict := VerifyWithDbRowLock(digest, now, w.redis);
      } else {
        verdict := VerifyWithRedisLock(digest, now, w);
      }
    }

    method VerifyWithRedisLock(digest: Digest, now: int, w: Writes) returns (verdict: Verdict)
      modifies this
      ensures Checked(State(), verdict) == VerifyUnderRedisLock(rule, maxAttempts, old(State()), digest, now, w)
    {
      var stored := if redis.Some? then redis else row;
      if stored.None? {
        return NotFound;
      }
      if now > stored.value.expiresAt {
        DeleteChallenge(w);
        return OtpExpired;
      }
      var currentAttempts := stored.value.attempts;
      if counter > 0 {
        currentAttempts := Max(currentAttempts, counter);
      }
      if currentAttempts >= maxAttempts {
        DeleteChallenge(w);
        return MaxAttempts;
      }
      if digest != stored.value.hash {
        var attemptsRemaining := maxAttempts - currentAttempts - 1;
        var maxReached := attemptsRemaining <= 0;
        if w.redis {
          var attempt := IncrementAttempts(rule, counter, maxAttempts);
          counter, attemptsRemaining, maxReached := attempt.counter, attempt.remaining, !attempt.allowed;
        }
        if w.row && row.Some? {
          row := Some(row.value.(attempts := row.value.attempts + 1));
        }
        if maxReached {
          DeleteChallenge(w);
          return MaxAttempts;
        }
        return Invalid(attemptsRemaining);
      }
      DeleteChallenge(w);
      verdict := Verified;
    }

    method VerifyWithDbRowLock(digest: Digest, now: int, mirrored: bool) returns (verdict: Verdict)
      modifies this
      ensures Checked(State(), verdict) == VerifyUnderRowLock(maxAttempts, old(State()), digest, now, mirrored)
    {
      if row.None? {
        return NotFound;
      }
      var stored := row.value;
      if now > stored.expiresAt {
        verdict, row := OtpExpired, None;
      } else if stored.attempts >= maxAttempts {
        verdict, row := MaxAttempts, None;
      } else if digest != stored.hash {
        var nextAttempts := stored.attempts + 1;
        if nextAttempts >= maxAttempts {
          verdict, row := MaxAttempts, None;
        } else {
          verdict, row := Invalid(maxAttempts - nextAttempts), Some(stored.(attempts := nextAttempts));
        }
      } else {
        verdict, row := Verified, None;
      }
      if mirrored {
        if verdict.Invalid? {
          counter := counter + 1;
        } else {
          redis, counter := None, 0;
        }
      }
    }
  }

  // ==== the single-counter machine ====

  /** One challenge, the number of wrong guesses spent on it, and nothing else. */
  datatype Challenge = Gone | Live(hash: Digest, expiresAt: int, used: nat)

  datatype SpecChecked = SpecChecked(challenge: Challenge, verdict: Verdict)

  /** `eager`: the guess that uses up the last attempt already ends the challenge. */
  function SpecVerify(eager: bool, max: nat, c: Challenge, digest: Digest, now: int): SpecChecked {
    match c
    case Gone => SpecChecked(Gone, NotFound)
    case Live(hash, expiresAt, used) =>
      if now > expiresAt then SpecChecked(Gone, OtpExpired)
      else if used >= max then SpecChecked(Gone, MaxAttempts)
      else if digest == hash then SpecChecked(Gone, Verified)
      else if eager && used + 1 >= max then SpecChecked(Gone, MaxAttempts)
      else SpecChecked(Live(hash, expiresAt, used + 1), Invalid(max - (used + 1)))
  }

  /** Both stores hold the challenge and agree on the attempts. */
  predicate Represents(s: Stores, c: Challenge) {
    match c
    case Gone => s == DELETED
    case Live(hash, expiresAt, used) =>
      s.redis == Some(Record(hash, expiresAt, 0)) && s.counter == used && s.row == Some(Record(hash, expiresAt, used))
  }

  /** The Redis path refines the single counter: eagerly under the fallback's rule, lazily under the rule of
      incrementOtpAttempts. */
  lemma RedisPathRefines(rule: AllowedRule, max: nat, s: Stores, c: Challenge, digest: Digest, now: int)
    requires Represents(s, c)
    ensures var impl := VerifyUnderRedisLock(rule, max, s, digest, now, BOTH);
            var spec := SpecVerify(rule.SomethingRemaining?, max, c, digest, now);
            impl.verdict == spec.verdict && Represents(impl.stores, spec.challenge)
  {
  }

  lemma RowPathRefines(max: nat, s: Stores, c: Challenge, digest: Digest, now: int)
    requires Represents(s, c)
    ensures var impl := VerifyUnderRowLock(max, s, digest, now, true);
            var spec := SpecVerify(true, max, c, digest, now);
            impl.verdict == spec.verdict && Represents(impl.stores, spec.challenge)
  {
  }

  /** The two paths give the same answer, remaining attempts included, and leave the same stores, except on a wrong
      guess that spends the last attempt under the rule of incrementOtpAttempts. */
  lemma PathsAgreeIff(rule: AllowedRule, max: nat, s: Stores, c: Challenge, digest: Digest, now: int)
    requires Represents(s, c)
    ensures VerifyUnderRedisLock(rule, max, s, digest, now, BOTH) == VerifyUnderRowLock(max, s, digest, now, true)
            <==> !(&& rule.AtMostMaximum? && c.Live? && now <= c.expiresAt && digest != c.hash && c.used + 1 == max)
  {
  }

  // ==== every answer, from any stores ====

  /** The Redis path goes by the record in Redis, or else by the row, and by the larger of its attempts and the counter.
      A right guess is let in exactly before the expiry and while neither count has reached the maximum. A wrong one
      ends the challenge exactly if nothing remains after it: by the counter alone where the increment answered, by both
      counts where it did not. */
  lemma RedisPathAnswers(rule: AllowedRule, max: nat, s: Stores, digest: Digest, now: int, w: Writes)
    ensures var v := VerifyUnderRedisLock(rule, max, s, digest, now, w).verdict;
            && (v == NotFound <==> s.redis == None && s.row == None)
            && (s.redis.Some? || s.row.Some? ==>
                  var stored := if s.redis.Some? then s.redis.value else s.row.value;
                  var spent := stored.attempts >= max || s.counter >= max;
                  var last := if !w.redis then stored.attempts + 1 >= max || s.counter + 1 >= max
                              else rule.SomethingRemaining? && s.counter + 1 >= max;
                  && (v == OtpExpired <==> now > stored.expiresAt)
                  && (v == Verified <==> now <= stored.expiresAt && !spent && digest == stored.hash)
                  && (v == MaxAttempts <==> now <= stored.expiresAt && (spent || (digest != stored.hash && last)))
                  && (v.Invalid? <==> now <= stored.expiresAt && !spent && digest != stored.hash && !last)
                  && (v.Invalid? && (w.redis || s.counter >= stored.attempts) ==>
                        v.attemptsRemaining == max - (s.counter + 1))
                  && (v.Invalid? && !w.redis && s.counter < stored.attempts ==>
                        v.attemptsRemaining == max - (stored.attempts + 1)))
  {
  }

  /** The row path goes by the row alone: without it there is no challenge, whatever Redis holds. */
  lemma RowPathAnswers(max: nat, s: Stores, digest: Digest, now: int, mirrored: bool)
    ensures var v := VerifyUnderRowLock(max, s, digest, now, mirrored).verdict;
            && (v == NotFound <==> s.row == None)
            && (s.row.Some? ==>
                  && (v == OtpExpired <==> now > s.row.value.expiresAt)
                  && (v == Verified <==>
                        now <= s.row.value.expiresAt && s.row.value.attempts < max && digest == s.row.value.hash)
                  && (v == MaxAttempts <==>
                        && now <= s.row.value.expiresAt
                        && (s.row.value.attempts >= max
                            || (digest != s.row.value.hash && s.row.value.attempts + 1 >= max)))
                  && (v.Invalid? ==> v.attemptsRemaining == max - (s.row.value.attempts + 1)))
            && v != VerifyInProgress
  {
  }

  /** Either store alone is enough for the Redis path: a challenge that only Redis or only the row took behaves like one
      counter, and the other store stays empty. */
  lemma EitherStoreIsEnough(
    rule: AllowedRule, max: nat, s: Stores, hash: Digest, expiresAt: int, digest: Digest, now: int)
    requires s.redis.Some? || s.row.Some?
    requires s.redis.Some? ==> s.redis.value == Record(hash, expiresAt, 0)
    requires s.row.Some? ==> s.row.value == Record(hash, expiresAt, s.counter)
    ensures var impl := VerifyUnderRedisLock(rule, max, s, digest, now, BOTH);
            var spec := SpecVerify(rule.SomethingRemaining?, max, Live(hash, expiresAt, s.counter), digest, now);
            && impl.verdict == spec.verdict
            && impl.stores == if spec.challenge == Gone then Stores(None, 0, None)
                              else Stores(s.redis, s.counter + 1,
                                          if s.row == None then None
                                          else Some(Record(hash, expiresAt, s.counter + 1)))
  {
  }

  datatype Event =
    | Verify(lock: Lock, digest: Digest, now: int, writes: Writes)
    | RedisLost

  function Step(rule: AllowedRule, max: nat, s: Stores, e: Event): Checked {
    match e
    case Verify(lock, digest, now, w) => VerifyOnce(rule, max, s, lock, digest, now, w)
    case RedisLost => Checked(s.(redis := None, counter := 0), NotFound)
  }

  /** Verify calls only, and all their writes succeed. */
  predicate AllClean(events: seq<Event>) {
    forall i :: 0 <= i < |events| ==> events[i].Verify? && events[i].writes == BOTH
  }

  /** The row path always ends the challenge on its last wrong guess, the Redis path under the fallback's rule only. */
  predicate EndsEagerly(rule: AllowedRule, lock: Lock) {
    rule.SomethingRemaining? || lock.Unavailable?
  }

  function SpecRun(rule: AllowedRule, max: nat, c: Challenge, events: seq<Event>): seq<Verdict>
    requires AllClean(events)
    decreases |events|
  {
    if events == [] then []
    else if events[0].lock == HeldElsewhere then [VerifyInProgress] + SpecRun(rule, max, c, events[1..])
    else
      var r := SpecVerify(EndsEagerly(rule, events[0].lock), max, c, events[0].digest, events[0].now);
      [r.verdict] + SpecRun(rule, max, r.challenge, events[1..])
  }

  function Run(rule: AllowedRule, max: nat, s: Stores, events: seq<Event>): seq<Verdict>
    decreases |events|
  {
    if events == [] then []
    else
      var r := Step(rule, max, s, events[0]);
      [r.verdict] + Run(rule, max, r.stores, events[1..])
  }

  /** From a clean issue any mix of the two paths answers, remaining attempts included, like one counter: the mix shows
      only in whether the last wrong guess ends the challenge at once or leaves it to the next call. */
  lemma {:induction false} MixedPathsRefine(
    rule: AllowedRule, max: nat, s: Stores, c: Challenge, events: seq<Event>)
    requires Represents(s, c) && AllClean(events)
    ensures Run(rule, max, s, events) == SpecRun(rule, max, c, events)
    decreases |events|
  {
    if events != [] {
      var e := events[0];
      RedisPathRefines(rule, max, s, c, e.digest, e.now);
      RowPathRefines(max, s, c, e.digest, e.now);
      var next := if e.lock == HeldElsewhere then c
                  else SpecVerify(EndsEagerly(rule, e.lock), max, c, e.digest, e.now).challenge;
      MixedPathsRefine(rule, max, Step(rule, max, s, e).stores, next, events[1..]);
    }
  }

  /** Two machines in step, except that `b` may have ended a challenge already that `a` will refuse. */
  predicate InStep(max: nat, a: Challenge, b: Challenge) {
    a == b || (b.Gone? && a.Live? && a.used >= max)
  }

  lemma {:induction false} RuleNeverDecides(rule: AllowedRule, max: nat, a: Challenge, b: Challenge, events: seq<Event>)
    requires InStep(max, a, b) && AllClean(events)
    ensures |SpecRun(rule, max, a, events)| == |events| == |SpecRun(SomethingRemaining, max, b, events)|
    ensures forall i :: 0 <= i < |events| ==>
              (SpecRun(rule, max, a, events)[i] == Verified
               <==> SpecRun(SomethingRemaining, max, b, events)[i] == Verified)
    decreases |events|
  {
    if events != [] {
      var e := events[0];
      if e.lock == HeldElsewhere {
        RuleNeverDecides(rule, max, a, b, events[1..]);
      } else {
        var a' := SpecVerify(EndsEagerly(rule, e.lock), max, a, e.digest, e.now).challenge;
        var b' := SpecVerify(true, max, b, e.digest, e.now).challenge;
        RuleNeverDecides(rule, max, a', b', events[1..]);
      }
    }
  }

  /** The two rules for the increment differ in the answers to wrong guesses, never in which guess is let in. */
  lemma SameGuessesSucceed(max: nat, s: Stores, c: Challenge, events: seq<Event>)
    requires Represents(s, c) && AllClean(events)
    ensures |Run(AtMostMaximum, max, s, events)| == |events| == |Run(SomethingRemaining, max, s, events)|
    ensures forall i :: 0 <= i < |events| ==>
              (Run(AtMostMaximum, max, s, events)[i] == Verified
               <==> Run(SomethingRemaining, max, s, events)[i] == Verified)
  {
    MixedPathsRefine(AtMostMaximum, max, s, c, events);
    MixedPathsRefine(SomethingRemaining, max, s, c, events);
    RuleNeverDecides(AtMostMaximum, max, c, c, events);
  }

  // ==== the bound, whatever the counters were left at and whichever writes fail ====

  /** The event compares its password with a stored digest. */
  predicate Compares(max: nat, s: Stores, e: Event) {
    match e
    case Verify(Acquired, _, now, _) =>
      Stored(s).Some? && now <= Stored(s).value.expiresAt && AttemptsSeen(s) < max
    case Verify(Unavailable, _, now, _) =>
      s.row.Some? && now <= s.row.value.expiresAt && s.row.value.attempts < max
    case _ => false
  }

  function WrongComparisons(rule: AllowedRule, max: nat, s: Stores, events: seq<Event>): nat
    decreases |events|
  {
    if events == [] then 0
    else
      var r := Step(rule, max, s, events[0]);
      (if Compares(max, s, events[0]) && r.verdict != Verified then 1 else 0)
        + WrongComparisons(rule, max, r.stores, events[1..])
  }

  function Successes(verdicts: seq<Verdict>): nat
    decreases |verdicts|
  {
    if verdicts == [] then 0
    else (if verdicts[0] == Verified then 1 else 0) + Successes(verdicts[1..])
  }

  /** Some write of this call is lost. */
  predicate LosesWrite(e: Event) {
    match e
    case Verify(Acquired, _, _, w) => w != BOTH
    case Verify(Unavailable, _, _, w) => !w.redis
    case _ => false
  }

  function LostWrites(events: seq<Event>): nat
    decreases |events|
  {
    if events == [] then 0 else (if LosesWrite(events[0]) then 1 else 0) + LostWrites(events[1..])
  }

  /** Each store that still holds the challenge counts at least `k` wrong guesses. */
  predicate CountsAtLeast(s: Stores, k: nat) {
    && (s.redis.Some? ==> s.counter >= k)
    && (s.row.Some? ==> s.row.value.attempts >= k)
  }

  lemma {:induction false} WrongComparisonsBounded(rule: AllowedRule, max: nat, s: Stores, events: seq<Event>, k: nat)
    requires CountsAtLeast(s, k) && k <= max
    ensures WrongComparisons(rule, max, s, events) <= max - k + LostWrites(events)
    decreases |events|
  {
    if events != [] {
      var e := events[0];
      var r := Step(rule, max, s, e);
      var counted := if Compares(max, s, e) && r.verdict != Verified && !LosesWrite(e) then 1 else 0;
      WrongComparisonsBounded(rule, max, r.stores, events[1..], k + counted);
    }
  }

  lemma {:induction false} NothingAfterGone(rule: AllowedRule, max: nat, s: Stores, events: seq<Event>)
    requires s.redis.None? && s.row.None?
    ensures Successes(Run(rule, max, s, events)) == 0
    decreases |events|
  {
    if events != [] {
      NothingAfterGone(rule, max, Step(rule, max, s, events[0]).stores, events[1..]);
    }
  }

  lemma {:induction false} SuccessesBounded(rule: AllowedRule, max: nat, s: Stores, events: seq<Event>)
    ensures Successes(Run(rule, max, s, events)) <= 1 + LostWrites(events)
    decreases |events|
  {
    if events != [] {
      var r := Step(rule, max, s, events[0]);
      if r.verdict == Verified && !LosesWrite(events[0]) {
        NothingAfterGone(rule, max, r.stores, events[1..]);
      } else {
        SuccessesBounded(rule, max, r.stores, events[1..]);
      }
    }
  }

  function Issued(hash: Digest, expiresAt: int, leftover: nat, inRedis: bool, inDb: bool): Stores {
    var record := Record(hash, expiresAt, 0);
    Stores(if inRedis then Some(record) else None, leftover, if inDb then Some(record) else None)
  }

  /** One issued challenge, stored in both stores or in one, over a counter left at any value: whatever the mix of
      paths, and even if Redis loses everything in between, at most `max` wrong comparisons and one success, plus one
      of each for every call that loses a write. */
  lemma ChallengeIsBounded(rule: AllowedRule, max: nat, hash: Digest, expiresAt: int, leftover: nat, events: seq<Event>,
                           inRedis: bool, inDb: bool)
    ensures var issued := Issued(hash, expiresAt, leftover, inRedis, inDb);
            && WrongComparisons(rule, max, issued, events) <= max + LostWrites(events)
            && Successes(Run(rule, max, issued, events)) <= 1 + LostWrites(events)
  {
    var issued := Issued(hash, expiresAt, leftover, inRedis, inDb);
    WrongComparisonsBounded(rule, max, issued, events, 0);
    SuccessesBounded(rule, max, issued, events);
  }

  // ==== the bound is exact ====

  function Repeat(e: Event, n: nat): seq<Event> {
    if n == 0 then [] else [e] + Repeat(e, n - 1)
  }

  /** A guess under the Redis lock none of whose writes succeeds leaves everything as it was. */
  lemma {:induction false} NothingWritten(
    rule: AllowedRule, max: nat, record: Record, n: nat, e: Event, rest: seq<Event>)
    requires e.Verify? && e == Verify(Acquired, e.digest, e.now, Writes(false, false))
    requires max > 0 && record.attempts == 0 && e.now <= record.expiresAt
    ensures var s := Stores(Some(record), 0, Some(record));
            var right := record.hash == e.digest;
            && WrongComparisons(rule, max, s, Repeat(e, n) + rest)
               == (if right then 0 else n) + WrongComparisons(rule, max, s, rest)
            && Successes(Run(rule, max, s, Repeat(e, n) + rest))
               == (if right then n else 0) + Successes(Run(rule, max, s, rest))
  {
    if n == 0 {
      assert Repeat(e, n) + rest == rest;
    } else {
      var events := Repeat(e, n) + rest;
      assert events[0] == e && events[1..] == Repeat(e, n - 1) + rest;
      NothingWritten(rule, max, record, n - 1, e, rest);
    }
  }

  lemma {:induction false} WrongThroughRow(
    rule: AllowedRule, max: nat, redis: Option<Record>, counter: nat, record: Record, e: Event)
    requires e.Verify? && e == Verify(Unavailable, e.digest, e.now, BOTH)
    requires record.attempts < max && record.hash != e.digest && e.now <= record.expiresAt
    ensures WrongComparisons(rule, max, Stores(redis, counter, Some(record)), Repeat(e, max - record.attempts))
            == max - record.attempts
    decreases max - record.attempts
  {
    var events := Repeat(e, max - record.attempts);
    assert events[0] == e && events[1..] == Repeat(e, max - record.attempts - 1);
    if record.attempts + 1 < max {
      WrongThroughRow(rule, max, redis, counter + 1, record.(attempts := record.attempts + 1), e);
    }
  }

  lemma {:induction false} LostInRepeat(e: Event, n: nat, rest: seq<Event>)
    ensures LostWrites(Repeat(e, n) + rest) == (if LosesWrite(e) then n else 0) + LostWrites(rest)
  {
    if n > 0 {
      LostInRepeat(e, n - 1, rest);
      assert (Repeat(e, n) + rest)[1..] == Repeat(e, n - 1) + rest;
    } else {
      assert Repeat(e, 0) + rest == rest;
    }
  }

  /** For every number n of lost writes and every maximum of at least one: n wrong guesses that leave no trace, then as
      many as the maximum allows. */
  lemma LostWritesAreSpent(rule: AllowedRule, max: nat, n: nat, hash: Digest, expiresAt: int, guess: Digest)
    requires guess != hash && max > 0
    ensures exists events ::
              && LostWrites(events) == n
              && WrongComparisons(rule, max, Issued(hash, expiresAt, 0, true, true), events) == max + n
  {
    var record := Record(hash, expiresAt, 0);
    var lost := Verify(Acquired, guess, expiresAt, Writes(false, false));
    var counted := Verify(Unavailable, guess, expiresAt, BOTH);
    var rest := Repeat(counted, max);
    NothingWritten(rule, max, record, n, lost, rest);
    WrongThroughRow(rule, max, Some(record), 0, record, counted);
    LostInRepeat(lost, n, rest);
    LostInRepeat(counted, max, []);
    assert rest + [] == rest;
    assert LostWrites(Repeat(lost, n) + rest) == n;
  }

  /** And for every n the right guess is let in n + 1 times when n of its deletions are lost. */
  lemma LostDeletionsAreSpent(rule: AllowedRule, max: nat, n: nat, hash: Digest, expiresAt: int)
    requires max > 0
    ensures exists events ::
              && LostWrites(events) == n
              && Successes(Run(rule, max, Issued(hash, expiresAt, 0, true, true), events)) == 1 + n
  {
    var record := Record(hash, expiresAt, 0);
    var lost := Verify(Acquired, hash, expiresAt, Writes(false, false));
    var last := Verify(Acquired, hash, expiresAt, BOTH);
    NothingWritten(rule, max, record, n, lost, [last]);
    LostInRepeat(lost, n, [last]);
    assert [last][1..] == [];
    assert Run(rule, max, DELETED, []) == [];
    assert Run(rule, max, Issued(hash, expiresAt, 0, true, true), [last]) == [Verified];
    assert Successes([Verified]) == 1 + Successes([Verified][1..]) == 1;
    assert LostWrites(Repeat(lost, n) + [last]) == n;
  }

  /** With a maximum of zero nothing is ever compared. */
  lemma {:induction false} NothingComparedAtZero(rule: AllowedRule, s: Stores, events: seq<Event>)
    ensures WrongComparisons(rule, 0, s, events) == 0 && Successes(Run(rule, 0, s, events)) == 0
    decreases |events|
  {
    if events != [] {
      NothingComparedAtZero(rule, Step(rule, 0, s, events[0]).stores, events[1..]);
    }
  }
}
