/**
 The Layer-A slot pool: arrivals queue for a free UE container, run on it and give it back
 (`play` and `_arrival` in srsTwin/integration/storm/orchestrate.py). The scheduler may
 interleave the arrivals in any way.
 */
module SlotPool {
  import opened Collections

  /** An arrival and the slot it runs, or ran, on. */
  datatype Run = Run(arrival: nat, slot: nat)

  /** Each number below n once. */
  function Numbers(n: nat): (r: seq<nat>)
    ensures |r| == n
  {
    seq(n, i requires 0 <= i < n => i)
  }

  function Slots(runs: seq<Run>): (r: seq<nat>)
    ensures |r| == |runs|
  {
    Mapped((r: Run) => r.slot, runs)
  }

  function Arrivals(runs: seq<Run>): (r: seq<nat>)
    ensures |r| == |runs|
  {
    Mapped((r: Run) => r.arrival, runs)
  }

  /** Every slot is free or in use, and every arrival waiting, running or recorded, each of them once. */
  ghost predicate PoolOk(free: seq<nat>, waiting: multiset<nat>, running: seq<Run>, events: seq<Run>, slots: nat,
                         arrivals: nat) {
    && multiset(free) + multiset(Slots(running)) == multiset(Numbers(slots))
    && waiting + multiset(Arrivals(running)) + multiset(Arrivals(events)) == multiset(Numbers(arrivals))
  }

  lemma {:induction false} NumbersOnce(n: nat, x: nat)
    ensures multiset(Numbers(n))[x] == if x < n then 1 else 0
  {
    if n > 0 {
      NumbersOnce(n - 1, x);
      Snoc(Numbers(n));
      assert Numbers(n)[..n - 1] == Numbers(n - 1);
    }
  }

  /** No two running arrivals share a slot, and none of theirs is free. */
  lemma NoSlotIsShared(free: seq<nat>, waiting: multiset<nat>, running: seq<Run>, events: seq<Run>, slots: nat,
                       arrivals: nat, i: nat)
    requires PoolOk(free, waiting, running, events, slots, arrivals) && i < |running|
    ensures running[i].slot < slots && running[i].slot !in free
    ensures forall j | 0 <= j < |running| && j != i :: running[j].slot != running[i].slot
  {
    var slot := running[i].slot;
    MappedWithout((r: Run) => r.slot, running, i);
    NumbersOnce(slots, slot);
    var rest := Slots(running[..i] + running[i + 1..]);
    assert multiset(rest)[slot] + multiset(free)[slot] == 0;
    forall j | 0 <= j < |running| && j != i ensures running[j].slot != slot {
      var k := if j < i then j else j - 1;
      assert rest[k] == running[j].slot;
      assert rest[k] in multiset(rest);
    }
    assert slot in free ==> slot in multiset(free);
  }

  /** As long as an arrival waits, a slot is free or some run will end and free one. */
  lemma NobodyWaitsForEver(free: seq<nat>, waiting: multiset<nat>, running: seq<Run>, events: seq<Run>, slots: nat,
                           arrivals: nat)
    requires PoolOk(free, waiting, running, events, slots, arrivals) && slots > 0
    ensures free != [] || running != []
  {
    NumbersOnce(slots, 0);
  }

  lemma TakingKeeps(free: seq<nat>, waiting: multiset<nat>, running: seq<Run>, events: seq<Run>, slots: nat,
                    arrivals: nat, a: nat)
    requires PoolOk(free, waiting, running, events, slots, arrivals) && free != [] && a in waiting
    ensures PoolOk(free[1..], waiting - multiset{a}, running + [Run(a, free[0])], events, slots, arrivals)
  {
    assert free == [free[0]] + free[1..];
    MappedConcat((r: Run) => r.slot, running, [Run(a, free[0])]);
    MappedConcat((r: Run) => r.arrival, running, [Run(a, free[0])]);
  }

  lemma GivingKeeps(free: seq<nat>, waiting: multiset<nat>, running: seq<Run>, events: seq<Run>, slots: nat,
                    arrivals: nat, i: nat)
    requires PoolOk(free, waiting, running, events, slots, arrivals) && i < |running|
    ensures PoolOk(free + [running[i].slot], waiting, running[..i] + running[i + 1..], events + [running[i]], slots,
                   arrivals)
  {
    MappedWithout((r: Run) => r.slot, running, i);
    MappedWithout((r: Run) => r.arrival, running, i);
    MappedConcat((r: Run) => r.arrival, events, [running[i]]);
  }

  /** With nobody waiting or running, all slots are free again and every arrival is recorded once. */
  lemma AllGivenBack(free: seq<nat>, running: seq<Run>, events: seq<Run>, slots: nat, arrivals: nat)
    requires PoolOk(free, multiset{}, running, events, slots, arrivals) && running == []
    ensures multiset(free) == multiset(Numbers(slots))
    ensures multiset(Arrivals(events)) == multiset(Numbers(arrivals))
  {
    assert Slots(running) == [] && Arrivals(running) == [];
  }

  lemma StartedSoFar(before: seq<nat>, order: seq<nat>, was: nat, next: nat)
    requires was <= next <= |order|
    ensures (before + order[..was]) + order[was..next] == before + order[..next]
    ensures order[..|order|] == order
  {
  }

  class Pool {
    const slots: nat
    const arrivals: nat
    var free: seq<nat>
    var events: seq<Run>
    /** What the arrivals' coroutines hold. */
    var running: seq<Run>
    ghost var waiting: multiset<nat>
    /** The arrivals that have started, in that order. */
    ghost var started: seq<nat>

    ghost predicate Valid()
      reads this
    {
      PoolOk(free, waiting, running, events, slots, arrivals)
    }

    constructor (slots: nat, arrivals: nat)
      ensures Valid() && this.slots == slots && this.arrivals == arrivals
      ensures free == Numbers(slots) && events == [] && running == [] && waiting == multiset(Numbers(arrivals))
      ensures started == []
    {
      this.slots, this.arrivals := slots, arrivals;
      free, events, running := Numbers(slots), [], [];
      waiting, started := multiset(Numbers(arrivals)), [];
    }

    /** An arrival whose turn has come takes the slot that was freed first; nobody else has it. */
    method Start(a: nat) returns (slot: nat)
      requires Valid() && |free| > 0 && a in waiting
      modifies this`free, this`running, this`waiting, this`started
      ensures Valid() && free == old(free)[1..] && slot == old(free)[0]
      ensures running == old(running) + [Run(a, slot)] && waiting == old(waiting) - multiset{a}
      ensures started == old(started) + [a]
      ensures slot < slots && slot !in free && forall j | 0 <= j < |old(running)| :: old(running)[j].slot != slot
    {
      TakingKeeps(free, waiting, running, events, slots, arrivals, a);
      slot := free[0];
      free := free[1..];
      running := running + [Run(a, slot)];
      waiting, started := waiting - multiset{a}, started + [a];
      NoSlotIsShared(free, waiting, running, events, slots, arrivals, |running| - 1);
      assert forall j | 0 <= j < |old(running)| :: running[j] == old(running)[j];
    }

    /** A container has ended: its run is recorded and the slot goes to the end of the queue. */
    method Finish(i: nat)
      requires Valid() && i < |running|
      modifies this`free, this`running, this`events
      ensures Valid() && running == old(running)[..i] + old(running)[i + 1..]
      ensures events == old(events) + [old(running)[i]] && free == old(free) + [old(running)[i].slot]
    {
      GivingKeeps(free, waiting, running, events, slots, arrivals, i);
      events := events + [running[i]];
      free := free + [running[i].slot];
      running := running[..i] + running[i + 1..];
    }

    /** One move of the scheduler: the next arrival in the queue starts, or some run ends. */
    method Turn(order: seq<nat>, next: nat) returns (next': nat)
      requires Valid() && slots > 0 && next <= |order| && waiting == multiset(order[next..])
      requires next < |order| || |running| > 0
      modifies this
      ensures Valid() && next <= next' <= |order| && waiting == multiset(order[next'..])
      ensures started == old(started) + order[next..next']
      ensures 2 * (|order| - next') + |running| < 2 * (|order| - next) + |old(running)|
    {
      NobodyWaitsForEver(free, waiting, running, events, slots, arrivals);
      var eager: bool := *;
      if next < |order| && |free| > 0 && (eager || |running| == 0) {
        assert order[next..] == [order[next]] + order[next + 1..];
        var _ := Start(order[next]);
        next' := next + 1;
      } else {
        var i: nat :| i < |running|;
        Finish(i);
        next' := next;
      }
    }

    /**
     `play` under any schedule: the arrivals start in the order of the timeline, and it ends
     with every arrival recorded once and every slot free again.
     */
    method Play(order: seq<nat>)
      requires Valid() && slots > 0 && waiting == multiset(order)
      modifies this
      ensures Valid() && running == [] && started == old(started) + order
      ensures multiset(free) == multiset(Numbers(slots))
      ensures multiset(Arrivals(events)) == multiset(Numbers(arrivals))
    {
      var next: nat := 0;
      assert order[0..] == order;
      while next < |order| || |running| > 0
        invariant Valid() && next <= |order| && waiting == multiset(order[next..])
        invariant started == old(started) + order[..next]
        decreases 2 * (|order| - next) + |running|
      {
        ghost var was := next;
        next := Turn(order, next);
        StartedSoFar(old(started), order, was, next);
      }
      assert order[next..] == [];
      AllGivenBack(free, running, events, slots, arrivals);
    }
  }
}
