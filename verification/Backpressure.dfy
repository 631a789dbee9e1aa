/** The in-flight counter in front of createBooking: increment, compare, and give the place back; any of the give-backs
    may be lost. */
module Backpressure {
  import opened Rows
  import opened Sequences

  /** A call that has incremented holds the value it got until its decrement. */
  datatype Slot =
    | Comparing(ticket: int)
    | Admitted(ticket: int)
    | Rejected(ticket: int)

  /** `lost` counts the decrements that never reached Redis. */
  datatype Gate = Gate(counter: int, slots: map<Id, Slot>, lost: nat)

  datatype Step =
    | Enter(call: Id)
    | Compare(call: Id)
    | Leave(call: Id, decrementLost: bool)

  function Next(limit: nat, g: Gate, step: Step): Gate {
    match step
    case Enter(p) =>
      if p in g.slots then g else Gate(g.counter + 1, g.slots[p := Comparing(g.counter + 1)], g.lost)
    case Compare(p) =>
      if p !in g.slots || !g.slots[p].Comparing? then g
      else
        var ticket := g.slots[p].ticket;
        g.(slots := g.slots[p := if ticket > limit then Rejected(ticket) else Admitted(ticket)])
    case Leave(p, decrementLost) =>
      if p !in g.slots || g.slots[p].Comparing? then g
      else if decrementLost then Gate(g.counter, g.slots - {p}, g.lost + 1)
      else Gate(g.counter - 1, g.slots - {p}, g.lost)
  }

  class Counter {
    const limit: nat
    var inflight: int
    var slots: map<Id, Slot>
    ghost var lost: nat

    ghost function State(): Gate
      reads this
    {
      Gate(inflight, slots, lost)
    }

    constructor (limit: nat)
      ensures this.limit == limit && State() == Gate(0, map[], 0)
    {
      this.limit := limit;
      inflight, slots, lost := 0, map[], 0;
    }

    method Increment(call: Id)
      modifies this
      ensures State() == Next(limit, old(State()), Enter(call))
    {
      if call !in slots {
        inflight := inflight + 1;
        slots := slots[call := Comparing(inflight)];
      }
    }

    method Check(call: Id) returns (busy: bool)
      modifies this
      ensures State() == Next(limit, old(State()), Compare(call))
      ensures busy <==> call in slots && slots[call].Rejected?
    {
      if call in slots && slots[call].Comparing? {
        var ticket := slots[call].ticket;
        if ticket > limit {
          slots := slots[call := Rejected(ticket)];
        } else {
          slots := slots[call := Admitted(ticket)];
        }
      }
      busy := call in slots && slots[call].Rejected?;
    }

    /** The compensation of a rejected call and the release of a finished one are the same decrement. */
    method Decrement(call: Id, decrementLost: bool)
      modifies this
      ensures State() == Next(limit, old(State()), Leave(call, decrementLost))
    {
      if call in slots && !slots[call].Comparing? {
        slots := slots - {call};
        if decrementLost {
          lost := lost + 1;
        } else {
          inflight := inflight - 1;
        }
      }
    }
  }

  /** The calls holding a place with a ticket of at most k. */
  function UpTo(g: Gate, k: int): set<Id> {
    set p | p in g.slots && g.slots[p].ticket <= k
  }

  function AdmittedCalls(g: Gate): set<Id> {
    set p | p in g.slots && g.slots[p].Admitted?
  }

  /** At most k calls hold a ticket of at most k, for every k: tickets may repeat after decrements, but never so that
      more calls than tickets fit under a bound. */
  ghost predicate Sound(limit: nat, g: Gate) {
    && g.counter == |g.slots| + g.lost
    && (forall k: nat :: |UpTo(g, k)| <= k)
    && (forall p | p in g.slots && g.slots[p].Admitted? :: g.slots[p].ticket <= limit)
  }

  lemma EnterIsSound(limit: nat, g: Gate, p: Id)
    requires Sound(limit, g) && p !in g.slots
    ensures Sound(limit, Next(limit, g, Enter(p)))
  {
    var after := Next(limit, g, Enter(p));
    assert after.slots.Keys == g.slots.Keys + {p};
    assert |g.slots.Keys| == |g.slots| && |after.slots.Keys| == |after.slots|;
    forall k: nat
      ensures |UpTo(after, k)| <= k
    {
      if k >= g.counter + 1 {
        SubsetCount(UpTo(after, k), after.slots.Keys);
      } else {
        assert UpTo(after, k) == UpTo(g, k);
      }
    }
  }

  lemma CompareIsSound(limit: nat, g: Gate, p: Id)
    requires Sound(limit, g)
    ensures Sound(limit, Next(limit, g, Compare(p)))
  {
    var after := Next(limit, g, Compare(p));
    assert after.slots.Keys == g.slots.Keys;
    assert |g.slots.Keys| == |g.slots| && |after.slots.Keys| == |after.slots|;
    forall k: nat
      ensures |UpTo(after, k)| <= k
    {
      assert UpTo(after, k) == UpTo(g, k);
    }
  }

  lemma LeaveIsSound(limit: nat, g: Gate, p: Id, decrementLost: bool)
    requires Sound(limit, g) && p in g.slots && !g.slots[p].Comparing?
    ensures Sound(limit, Next(limit, g, Leave(p, decrementLost)))
  {
    var after := Next(limit, g, Leave(p, decrementLost));
    assert g.slots.Keys == after.slots.Keys + {p};
    assert |g.slots.Keys| == |g.slots| && |after.slots.Keys| == |after.slots|;
    forall k: nat
      ensures |UpTo(after, k)| <= k
    {
      SubsetCount(UpTo(after, k), UpTo(g, k));
    }
  }

  lemma SoundStep(limit: nat, g: Gate, step: Step)
    requires Sound(limit, g)
    ensures Sound(limit, Next(limit, g, step))
  {
    match step
    case Enter(p) =>
      if p !in g.slots {
        EnterIsSound(limit, g, p);
      }
    case Compare(p) => CompareIsSound(limit, g, p);
    case Leave(p, decrementLost) =>
      if p in g.slots && !g.slots[p].Comparing? {
        LeaveIsSound(limit, g, p, decrementLost);
      }
  }

  function Run(limit: nat, steps: seq<Step>): Gate {
    if steps == [] then Gate(0, map[], 0)
    else Next(limit, Run(limit, steps[..|steps| - 1]), steps[|steps| - 1])
  }

  lemma {:induction false} RunIsSound(limit: nat, steps: seq<Step>)
    ensures Sound(limit, Run(limit, steps))
  {
    if steps == [] {
      forall k: nat
        ensures |UpTo(Run(limit, steps), k)| <= k
      {
        assert UpTo(Run(limit, steps), k) == {};
      }
    } else {
      RunIsSound(limit, steps[..|steps| - 1]);
      SoundStep(limit, Run(limit, steps[..|steps| - 1]), steps[|steps| - 1]);
    }
  }

  /** Whatever the interleaving and whichever decrements are lost, the calls admitted at one time never exceed the
      limit; the counter is the calls in flight plus the decrements lost, so it is back at zero when all have left if
      and only if none was lost. */
  lemma AdmissionsBounded(limit: nat, steps: seq<Step>)
    ensures var g := Run(limit, steps);
            && |AdmittedCalls(g)| <= limit
            && g.counter == |g.slots| + g.lost
            && (g.slots == map[] ==> (g.counter == 0 <==> g.lost == 0))
  {
    RunIsSound(limit, steps);
    var g := Run(limit, steps);
    SubsetCount(AdmittedCalls(g), UpTo(g, limit));
  }

  /** The comparison of one call: admitted up to the limit, turned away above it; nobody else notices. */
  lemma ComparedIff(limit: nat, g: Gate, p: Id)
    requires p in g.slots && g.slots[p].Comparing?
    ensures var after, ticket := Next(limit, g, Compare(p)), g.slots[p].ticket;
            && p in after.slots && after.slots[p].ticket == ticket
            && (after.slots[p].Admitted? <==> ticket <= limit) && (after.slots[p].Rejected? <==> ticket > limit)
            && after == g.(slots := g.slots[p := after.slots[p]])
  {
  }

  lemma {:induction false} TicketKept(limit: nat, before: seq<Step>, p: Id, meanwhile: seq<Step>)
    requires p !in Run(limit, before).slots && Compare(p) !in meanwhile
    ensures var g := Run(limit, before + [Enter(p)] + meanwhile);
            p in g.slots && g.slots[p] == Comparing(Run(limit, before).counter + 1)
  {
    var entered := before + [Enter(p)];
    if meanwhile == [] {
      assert entered + meanwhile == entered && entered[..|before|] == before;
    } else {
      var n := |meanwhile| - 1;
      TicketKept(limit, before, p, meanwhile[..n]);
      assert (entered + meanwhile)[..|entered| + n] == entered + meanwhile[..n];
      assert meanwhile[n] in meanwhile;
    }
  }

  /** In any run, whatever the others do between a call's increment and its comparison, the call is admitted if and only
      if the calls in flight when it came and the decrements lost by then were below the limit. */
  lemma AdmittedIff(limit: nat, before: seq<Step>, p: Id, meanwhile: seq<Step>)
    requires p !in Run(limit, before).slots && Compare(p) !in meanwhile
    ensures var came, g := Run(limit, before), Run(limit, before + [Enter(p)] + meanwhile + [Compare(p)]);
            p in g.slots && (g.slots[p].Admitted? <==> |came.slots| + came.lost < limit)
                         && (g.slots[p].Rejected? <==> |came.slots| + came.lost >= limit)
  {
    var steps := before + [Enter(p)] + meanwhile;
    TicketKept(limit, before, p, meanwhile);
    RunIsSound(limit, before);
    assert (steps + [Compare(p)])[..|steps|] == steps;
    ComparedIff(limit, Run(limit, steps), p);
  }

  /** Lost decrements are paid for in places: from `limit` of them on, every new call is turned away. */
  lemma LostDecrementsShutTheGate(limit: nat, steps: seq<Step>, p: Id)
    requires Run(limit, steps).lost >= limit && p !in Run(limit, steps).slots
    ensures var g := Next(limit, Next(limit, Run(limit, steps), Enter(p)), Compare(p));
            p in g.slots && g.slots[p].Rejected?
  {
    RunIsSound(limit, steps);
  }
}
