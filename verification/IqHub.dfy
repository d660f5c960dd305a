/**
 The lockstep relay between one gNB and its UE slots (srsTwin/integration/hub/iqhub.py).
 What the sockets do is given as data: which slots answer an uplink request in time,
 which downlink requests each poll finds, whether the gNB delivers a block. A list of
 polls that runs out stands for the barrier deadline or for the hub being stopped.
 */
module IqHub {
  import opened Collections
  import HubCore

  type Block = seq<HubCore.Sample>

  /** What has happened to one slot, oldest first. */
  datatype Event = Joined | Answered | TimedOut

  // ---- a slot's life as a function of its history ----

  /** How many uplink timeouts in a row the history ends with. */
  function Trailing(log: seq<Event>): (n: nat)
    ensures n <= |log|
    ensures forall k | |log| - n <= k < |log| :: log[k] == TimedOut
    ensures n < |log| ==> log[|log| - n - 1] != TimedOut
  {
    if log == [] || log[|log| - 1] != TimedOut then 0 else 1 + Trailing(log[..|log| - 1])
  }

  /** Joined at some time, and fewer than `limit` timeouts in a row since. */
  predicate Connected(log: seq<Event>, limit: nat) {
    log != [] && Trailing(log) < limit
  }

  /** A join happens exactly when the slot is free. */
  predicate WellFormed(log: seq<Event>, limit: nat) {
    log == [] ||
    (WellFormed(log[..|log| - 1], limit) && (log[|log| - 1] == Joined <==> !Connected(log[..|log| - 1], limit)))
  }

  lemma Grow(log: seq<Event>, e: Event, limit: nat)
    requires WellFormed(log, limit)
    requires e == Joined <==> !Connected(log, limit)
    ensures WellFormed(log + [e], limit)
    ensures Trailing(log + [e]) == if e == TimedOut then Trailing(log) + 1 else 0
  {
    assert (log + [e])[..|log|] == log;
  }

  lemma {:induction false} StartsWithJoin(log: seq<Event>, limit: nat)
    requires WellFormed(log, limit)
    ensures log != [] ==> log[0] == Joined
    ensures Trailing(log) <= limit
  {
    if |log| > 1 { StartsWithJoin(log[..|log| - 1], limit); }
  }

  /** A slot is given up exactly by its limit-th uplink timeout in a row, and by nothing else. */
  lemma RecycledExactlyAtTheLimit(log: seq<Event>, limit: nat)
    requires limit > 0 && log != [] && WellFormed(log, limit)
    ensures Connected(log[..|log| - 1], limit) && !Connected(log, limit)
       <==> |log| > limit && forall k | |log| - limit <= k < |log| :: log[k] == TimedOut
  {
    StartsWithJoin(log, limit);
    StartsWithJoin(log[..|log| - 1], limit);
    if |log| > limit && forall k | |log| - limit <= k < |log| :: log[k] == TimedOut {
      var n := Trailing(log);
      assert n >= limit;
    }
  }

  // ---- one tick on the slots' histories ----

  datatype Answer = Reply(block: Block) | Silence

  function Noted(log: seq<Event>, answer: Answer, limit: nat): seq<Event> {
    if Connected(log, limit) then log + [if answer.Reply? then Answered else TimedOut] else log
  }

  /** `_gather_ul` after its first k slots: each connected one is asked, the answer or the timeout is noted. */
  function AskedUpTo(logs: seq<seq<Event>>, answers: seq<Answer>, limit: nat, k: nat): (r: seq<seq<Event>>)
    requires |answers| == |logs|
    ensures |r| == |logs|
  {
    seq(|logs|, i requires 0 <= i < |logs| => if i < k then Noted(logs[i], answers[i], limit) else logs[i])
  }

  function AfterUl(logs: seq<seq<Event>>, answers: seq<Answer>, limit: nat): (r: seq<seq<Event>>)
    requires |answers| == |logs|
    ensures |r| == |logs|
  {
    AskedUpTo(logs, answers, limit, |logs|)
  }

  lemma AskOneMore(logs: seq<seq<Event>>, answers: seq<Answer>, limit: nat, k: nat)
    requires |answers| == |logs| && k < |logs|
    ensures AskedUpTo(logs, answers, limit, k)[k] == logs[k]
    ensures AskedUpTo(logs, answers, limit, k + 1)
         == AskedUpTo(logs, answers, limit, k)[k := Noted(logs[k], answers[k], limit)]
  {
  }

  /** The blocks that reach the sum, of the first k slots. */
  function UlBlocks(logs: seq<seq<Event>>, answers: seq<Answer>, limit: nat, k: nat): seq<(nat, Block)>
    requires |answers| == |logs| && k <= |logs|
  {
    if k == 0 then [] else
    UlBlocks(logs, answers, limit, k - 1)
    + (if Connected(logs[k - 1], limit) && answers[k - 1].Reply? then [(k - 1, answers[k - 1].block)] else [])
  }

  /** Every connected slot that answered is in the sum once, and no other slot is. */
  lemma {:induction false} UlBlocksAre(logs: seq<seq<Event>>, answers: seq<Answer>, limit: nat, k: nat)
    requires |answers| == |logs| && k <= |logs|
    ensures HubCore.DistinctSlots(UlBlocks(logs, answers, limit, k))
    ensures forall b :: b in UlBlocks(logs, answers, limit, k) <==>
      b.0 < k && Connected(logs[b.0], limit) && answers[b.0] == Reply(b.1)
  {
    if k > 0 {
      UlBlocksAre(logs, answers, limit, k - 1);
      var before := UlBlocks(logs, answers, limit, k - 1);
      forall i | 0 <= i < |before| ensures before[i].0 < k - 1 {
        assert before[i] in before;
      }
    }
  }

  /** Of these slots, those a poll found asking. */
  function Asking(slots: seq<nat>, events: seq<nat>): set<nat> {
    set i | i in slots && i in events
  }

  lemma AskingOneMore(slots: seq<nat>, events: seq<nat>, j: nat)
    requires j < |slots| && forall k, l | 0 <= k < l < |slots| :: slots[k] < slots[l]
    ensures slots[j] !in Asking(slots[..j], events)
    ensures Asking(slots[..j + 1], events) == Asking(slots[..j], events) + if slots[j] in events then {slots[j]} else {}
  {
    assert slots[..j + 1] == slots[..j] + [slots[j]];
  }

  /** Of these slots, those that asked in some poll. */
  function AskedBy(slots: seq<nat>, polls: seq<seq<nat>>): set<nat> {
    set i | i in slots && Asks(polls, i)
  }

  lemma AskedByOneMore(slots: seq<nat>, polls: seq<seq<nat>>, k: nat)
    requires k < |polls|
    ensures AskedBy(slots, polls[..k + 1]) == AskedBy(slots, polls[..k]) + Asking(slots, polls[k])
  {
    forall i | i in slots ensures Asks(polls[..k + 1], i) <==> Asks(polls[..k], i) || i in polls[k] {
      if i in polls[k] { assert i in polls[..k + 1][k]; }
      if Asks(polls[..k], i) {
        var j :| 0 <= j < k && i in polls[..k][j];
        assert i in polls[..k + 1][j];
      }
    }
  }

  lemma AskedByAll(slots: seq<nat>, polls: seq<seq<nat>>, k: nat, served: set<nat>)
    requires k <= |polls| && served == AskedBy(slots, polls[..k])
    requires k == |polls| || forall i | i in slots :: i in served
    ensures served == AskedBy(slots, polls)
  {
    assert polls[..|polls|] == polls;
    forall i | i in served ensures Asks(polls, i) {
      var j :| 0 <= j < k && i in polls[..k][j];
      assert i in polls[j];
    }
  }

  predicate AnyConnected(logs: seq<seq<Event>>, limit: nat) {
    exists i :: 0 <= i < |logs| && Connected(logs[i], limit)
  }

  /** Slot i asks for a downlink block in some poll. */
  predicate Asks(polls: seq<seq<nat>>, i: nat) {
    exists k :: 0 <= k < |polls| && i in polls[k]
  }

  function FirstAsker(polls: seq<seq<nat>>): Option<nat> {
    if polls == [] then None
    else if polls[0] != [] then Some(polls[0][0])
    else FirstAsker(polls[1..])
  }

  /** `_serve_dl`: the connected slots that ask; with none connected, the first to ask. */
  predicate Serves(logs: seq<seq<Event>>, polls: seq<seq<nat>>, limit: nat, i: nat)
    requires i < |logs|
  {
    if AnyConnected(logs, limit) then Connected(logs[i], limit) && Asks(polls, i)
    else FirstAsker(polls) == Some(i)
  }

  function Heard(log: seq<Event>, limit: nat): seq<Event> {
    if Connected(log, limit) then log else log + [Joined]
  }

  /** The histories after some slots were given the block. */
  function AfterDl(logs: seq<seq<Event>>, given: set<nat>, limit: nat): (r: seq<seq<Event>>)
    ensures |r| == |logs|
  {
    seq(|logs|, i requires 0 <= i < |logs| => if i in given then Heard(logs[i], limit) else logs[i])
  }

  /** How many blocks each slot has been given, after some were. */
  function Given(got: seq<nat>, given: set<nat>): (r: seq<nat>)
    ensures |r| == |got|
  {
    seq(|got|, i requires 0 <= i < |got| => got[i] + if i in given then 1 else 0)
  }

  lemma GiveOneMore(logs: seq<seq<Event>>, got: seq<nat>, given: set<nat>, i: nat, limit: nat)
    requires i < |logs| == |got| && i !in given
    ensures AfterDl(logs, given, limit)[i] == logs[i] && Given(got, given)[i] == got[i]
    ensures AfterDl(logs, given + {i}, limit) == AfterDl(logs, given, limit)[i := Heard(logs[i], limit)]
    ensures Given(got, given + {i}) == Given(got, given)[i := got[i] + 1]
  {
  }

  lemma JoinOneMore(logs: seq<seq<Event>>, got: seq<nat>, slots: seq<nat>, ready: seq<nat>, j: nat, limit: nat)
    requires |logs| == |got| && j < |slots| && slots[j] < |logs|
    requires forall k, l | 0 <= k < l < |slots| :: slots[k] < slots[l]
    ensures slots[j] in ready ==>
      && AfterDl(logs, Asking(slots[..j], ready), limit)[slots[j]] == logs[slots[j]]
      && Given(got, Asking(slots[..j], ready))[slots[j]] == got[slots[j]]
      && AfterDl(logs, Asking(slots[..j + 1], ready), limit)
         == AfterDl(logs, Asking(slots[..j], ready), limit)[slots[j] := Heard(logs[slots[j]], limit)]
      && Given(got, Asking(slots[..j + 1], ready))
         == Given(got, Asking(slots[..j], ready))[slots[j] := got[slots[j]] + 1]
    ensures slots[j] !in ready ==> Asking(slots[..j + 1], ready) == Asking(slots[..j], ready)
  {
    AskingOneMore(slots, ready, j);
    if slots[j] in ready {
      GiveOneMore(logs, got, Asking(slots[..j], ready), slots[j], limit);
    } else {
      assert Asking(slots[..j], ready) + {} == Asking(slots[..j], ready);
    }
  }

  lemma AllJoined(logs: seq<seq<Event>>, slots: seq<nat>, ready: seq<nat>, limit: nat)
    requires forall i: nat :: i in slots <==> i < |logs| && !Connected(logs[i], limit)
    ensures Asking(slots[..|slots|], ready) == JoinSet(logs, ready, limit)
  {
    assert slots[..|slots|] == slots;
  }

  function ServedSet(logs: seq<seq<Event>>, polls: seq<seq<nat>>, limit: nat): set<nat> {
    set i | 0 <= i < |logs| && Serves(logs, polls, limit, i)
  }

  /** `_pickup_joins`: every free slot that is asking. */
  function JoinSet(logs: seq<seq<Event>>, ready: seq<nat>, limit: nat): set<nat> {
    set i | 0 <= i < |logs| && i in ready && !Connected(logs[i], limit)
  }

  /** No slot is given the same block twice: whoever was served is connected by then. */
  lemma NobodyTwice(logs: seq<seq<Event>>, polls: seq<seq<nat>>, ready: seq<nat>, limit: nat)
    requires limit > 0
    ensures ServedSet(logs, polls, limit) !! JoinSet(AfterDl(logs, ServedSet(logs, polls, limit), limit), ready, limit)
  {
    var served := ServedSet(logs, polls, limit);
    forall i | i in served ensures Connected(AfterDl(logs, served, limit)[i], limit) {
      assert Trailing(logs[i] + [Joined]) == 0;
    }
  }

  /** Everyone given a downlink block: served first, then joining. */
  function DownGiven(logs: seq<seq<Event>>, polls: seq<seq<nat>>, ready: seq<nat>, limit: nat): set<nat> {
    var served := ServedSet(logs, polls, limit);
    served + JoinSet(AfterDl(logs, served, limit), ready, limit)
  }

  /** The gNB's and the UEs' part in one tick. */
  datatype Tick = Tick(answers: seq<Answer>, dl: Option<nat>, polls: seq<seq<nat>>, ready: seq<nat>)

  predicate TickFits(t: Tick, n: nat) {
    && |t.answers| == n
    && (forall k, i | 0 <= k < |t.polls| && i in t.polls[k] :: i < n)
    && (forall i | i in t.ready :: i < n)
  }

  /** Everyone given the tick's downlink block. */
  function TickGiven(logs: seq<seq<Event>>, t: Tick, limit: nat): set<nat>
    requires |t.answers| == |logs|
  {
    if t.dl.None? then {} else DownGiven(AfterUl(logs, t.answers, limit), t.polls, t.ready, limit)
  }

  /**
   Who gets a tick's block. Among the slots still connected after the uplink, those that ask
   in some poll; with none connected, the first that asks at all; and in the end every slot
   that is free and has asked by then.
   */
  lemma GivenIff(logs: seq<seq<Event>>, t: Tick, limit: nat, i: nat)
    requires limit > 0 && |t.answers| == |logs| && i < |logs|
    ensures var up := AfterUl(logs, t.answers, limit);
      var free := forall j | 0 <= j < |up| :: !Connected(up[j], limit);
      i in TickGiven(logs, t, limit)
      <==> && t.dl.Some?
           && (if Connected(up[i], limit) then exists k :: 0 <= k < |t.polls| && i in t.polls[k]
               else i in t.ready || (free && FirstAsker(t.polls) == Some(i)))
  {
    var up := AfterUl(logs, t.answers, limit);
    var served := ServedSet(up, t.polls, limit);
    if i in served && !Connected(up[i], limit) {
      assert Trailing(up[i] + [Joined]) == 0;
    }
  }

  /** The first asker is the first slot of the first poll that found any. */
  lemma {:induction false} FirstAskerIs(polls: seq<seq<nat>>)
    ensures match FirstAsker(polls)
      case None => forall k | 0 <= k < |polls| :: polls[k] == []
      case Some(i) =>
        exists k :: 0 <= k < |polls| && polls[k] != [] && polls[k][0] == i && forall j | 0 <= j < k :: polls[j] == []
  {
    if polls != [] {
      if polls[0] != [] {
        assert polls[0][0] == FirstAsker(polls).value;
      } else {
        FirstAskerIs(polls[1..]);
        assert forall k | 0 < k < |polls| :: polls[k] == polls[1..][k - 1];
        if FirstAsker(polls).Some? {
          var k :| 0 <= k < |polls[1..]| && polls[1..][k] != [] && polls[1..][k][0] == FirstAsker(polls).value
            && forall j | 0 <= j < k :: polls[1..][j] == [];
          assert polls[k + 1] == polls[1..][k];
        }
      }
    }
  }

  /** Every slot's history after the tick. */
  function AfterTick(logs: seq<seq<Event>>, t: Tick, limit: nat): (r: seq<seq<Event>>)
    requires |t.answers| == |logs|
    ensures |r| == |logs|
  {
    AfterDl(AfterUl(logs, t.answers, limit), TickGiven(logs, t, limit), limit)
  }

  /**
   A connected slot is lost in a tick exactly when it stays silent for the limit-th time
   in a row and does not ask to join again. Not being served by the barrier never matters.
   */
  lemma SlotLostIff(logs: seq<seq<Event>>, t: Tick, limit: nat, i: nat)
    requires limit > 0 && |t.answers| == |logs| && i < |logs|
    requires WellFormed(logs[i], limit) && Connected(logs[i], limit)
    ensures !Connected(AfterTick(logs, t, limit)[i], limit)
       <==> t.answers[i] == Silence && Trailing(logs[i]) + 1 == limit && i !in TickGiven(logs, t, limit)
  {
    var e := if t.answers[i].Reply? then Answered else TimedOut;
    Grow(logs[i], e, limit);
    var up := AfterUl(logs, t.answers, limit)[i];
    assert up == logs[i] + [e];
    if !Connected(up, limit) { Grow(up, Joined, limit); }
  }

  /** What the gNB receives: the sum of the answering slots' blocks, each through its channel. */
  function UplinkOf(settings: map<nat, HubCore.Params>, streams: map<nat, Block>, fill: int,
                    logs: seq<seq<Event>>, answers: seq<Answer>, limit: nat): Block
    requires |answers| == |logs|
  {
    HubCore.Superposed(HubCore.AllReceived(settings, streams, UlBlocks(logs, answers, limit, |logs|)), fill)
  }

  /** Serving and then picking up joins comes to giving the block once to everyone in either. */
  lemma GiveInTwoSteps(logs: seq<seq<Event>>, got: seq<nat>, a: set<nat>, b: set<nat>, limit: nat)
    requires a !! b && |got| == |logs|
    ensures AfterDl(AfterDl(logs, a, limit), b, limit) == AfterDl(logs, a + b, limit)
    ensures Given(Given(got, a), b) == Given(got, a + b)
  {
  }

  predicate RoundsFit(rounds: seq<Option<Tick>>, n: nat) {
    forall k | 0 <= k < |rounds| :: rounds[k].Some? ==> TickFits(rounds[k].value, n)
  }

  /** Over a run, in which the gNB's uplink request may also fail to come (None). */
  function AfterRun(logs: seq<seq<Event>>, rounds: seq<Option<Tick>>, limit: nat): (r: seq<seq<Event>>)
    requires RoundsFit(rounds, |logs|)
    ensures |r| == |logs|
  {
    if rounds == [] then logs else
    var last := |rounds| - 1;
    var before := AfterRun(logs, rounds[..last], limit);
    if rounds[last].Some? then AfterTick(before, rounds[last].value, limit) else before
  }

  lemma RunOneMore(logs: seq<seq<Event>>, rounds: seq<Option<Tick>>, limit: nat, k: nat)
    requires k < |rounds|
    requires RoundsFit(rounds, |logs|)
    ensures AfterRun(logs, rounds[..k + 1], limit)
         == var before := AfterRun(logs, rounds[..k], limit);
            if rounds[k].Some? then AfterTick(before, rounds[k].value, limit) else before
  {
    assert rounds[..k + 1][..k] == rounds[..k];
  }

  /** The size of the last downlink block pulled in these rounds, or else `first`. */
  function LastSize(rounds: seq<Option<Tick>>, first: int): int {
    if rounds == [] then first else
    var last := rounds[|rounds| - 1];
    if last.Some? && last.value.dl.Some? then last.value.dl.value else LastSize(rounds[..|rounds| - 1], first)
  }

  /**
   What the mixer is given over a run, round by round: the blocks of the slots that are
   connected by then and answer, and the size of the last downlink block pulled before.
   */
  function Mixed(logs: seq<seq<Event>>, rounds: seq<Option<Tick>>, limit: nat, first: int): seq<HubCore.Round>
    requires RoundsFit(rounds, |logs|)
  {
    if rounds == [] then [] else
    var init, last := rounds[..|rounds| - 1], rounds[|rounds| - 1];
    Mixed(logs, init, limit, first)
    + if last.Some? then
        [HubCore.Round(UlBlocks(AfterRun(logs, init, limit), last.value.answers, limit, |logs|), LastSize(init, first))]
      else []
  }

  lemma {:induction false} MixedSoFar(
    logs: seq<seq<Event>>, rounds: seq<Option<Tick>>, limit: nat, first: int, k: nat)
    requires RoundsFit(rounds, |logs|) && k <= |rounds|
    ensures Mixed(logs, rounds[..k], limit, first) <= Mixed(logs, rounds, limit, first)
    decreases |rounds|
  {
    if k < |rounds| {
      MixedSoFar(logs, rounds[..|rounds| - 1], limit, first, k);
      assert rounds[..|rounds| - 1][..k] == rounds[..k];
    } else {
      assert rounds[..k] == rounds;
    }
  }

  lemma MixedOneMore(logs: seq<seq<Event>>, rounds: seq<Option<Tick>>, limit: nat, first: int, k: nat)
    requires RoundsFit(rounds, |logs|) && k < |rounds|
    ensures var before, all := Mixed(logs, rounds[..k], limit, first), Mixed(logs, rounds, limit, first);
      && before <= all && Mixed(logs, rounds[..k + 1], limit, first) <= all
      && (rounds[k].None? ==> Mixed(logs, rounds[..k + 1], limit, first) == before)
      && (rounds[k].Some? ==>
            var t := rounds[k].value;
            && |before| < |all| && Mixed(logs, rounds[..k + 1], limit, first) == all[..|before| + 1]
            && all[|before|].blocks == UlBlocks(AfterRun(logs, rounds[..k], limit), t.answers, limit, |logs|)
            && all[|before|].fill == LastSize(rounds[..k], first))
    ensures LastSize(rounds[..k + 1], first)
         == if rounds[k].Some? && rounds[k].value.dl.Some? then rounds[k].value.dl.value
            else LastSize(rounds[..k], first)
  {
    MixedSoFar(logs, rounds, limit, first, k);
    MixedSoFar(logs, rounds, limit, first, k + 1);
    assert rounds[..k + 1][..k] == rounds[..k];
  }

  /** These blocks are what the formula over all rounds gives for the first of them. */
  ghost predicate AreUplinks(settings: map<nat, HubCore.Params>, all: seq<HubCore.Round>, sent: seq<Block>) {
    |sent| <= |all| && forall m | 0 <= m < |sent| :: sent[m] == HubCore.Uplink(settings, all, m)
  }

  lemma UplinksSnoc(settings: map<nat, HubCore.Params>, all: seq<HubCore.Round>, sent: seq<Block>, ul: Block)
    requires AreUplinks(settings, all, sent) && |sent| < |all| && ul == HubCore.Uplink(settings, all, |sent|)
    ensures AreUplinks(settings, all, sent + [ul])
  {
  }

  /** With no answer from a connected slot the gNB gets silence of the length asked for. */
  lemma {:induction false} NoAnswerNoBlock(logs: seq<seq<Event>>, answers: seq<Answer>, limit: nat, k: nat)
    requires |answers| == |logs| && k <= |logs|
    requires forall i | 0 <= i < |logs| :: Connected(logs[i], limit) ==> answers[i] == Silence
    ensures UlBlocks(logs, answers, limit, k) == []
  {
    if k > 0 { NoAnswerNoBlock(logs, answers, limit, k - 1); }
  }

  lemma SilentTick(settings: map<nat, HubCore.Params>, streams: map<nat, Block>, fill: int,
                   logs: seq<seq<Event>>, answers: seq<Answer>, limit: nat)
    requires |answers| == |logs|
    requires forall i | 0 <= i < |logs| :: Connected(logs[i], limit) ==> answers[i] == Silence
    ensures UplinkOf(settings, streams, fill, logs, answers, limit) == seq(Max(0, fill), _ => HubCore.Zero)
  {
    NoAnswerNoBlock(logs, answers, limit, |logs|);
    assert HubCore.AllReceived(settings, streams, []) == [];
  }

  lemma NobodyGiven(logs: seq<seq<Event>>, got: seq<nat>, limit: nat)
    ensures AfterDl(logs, {}, limit) == logs && Given(got, {}) == got
  {
  }

  // ---- the hub ----

  class Slot {
    const idx: nat
    var connected: bool
    var miss: int

    constructor (idx: nat)
      ensures this.idx == idx && !connected && miss == 0
    {
      this.idx := idx;
      connected, miss := false, 0;
    }
  }

  class Hub {
    const slots: seq<Slot>
    const ulMissLimit: int
    const mixer: HubCore.Mixer
    var dlBlocks: nat
    var ulBlocks: nat
    var lastDlSize: int
    /** Each slot's history, and how many downlink blocks it was given. */
    ghost var logs: seq<seq<Event>>
    ghost var got: seq<nat>

    /** A limit below one gives a slot up at its first timeout, as a limit of one does. */
    ghost function Limit(): nat {
      Max(1, ulMissLimit)
    }

    ghost predicate SlotOk(i: nat)
      requires i < |slots| == |logs|
      reads this`logs, slots[i]
    {
      && slots[i].idx == i
      && WellFormed(logs[i], Limit())
      && slots[i].connected == Connected(logs[i], Limit())
      && slots[i].miss == (if slots[i].connected then Trailing(logs[i]) else 0)
    }

    ghost predicate SlotsOk()
      reads this`logs, this`got, slots
    {
      && |logs| == |got| == |slots|
      && forall i | 0 <= i < |slots| :: SlotOk(i)
    }

    /**
     Between ticks: every slot's fields are what its history says, no more downlink than
     uplink blocks were relayed, and no slot was given more blocks than were relayed.
     */
    ghost predicate Valid()
      reads this, slots, mixer, mixer.channels.Values
    {
      && SlotsOk() && mixer.Valid()
      && dlBlocks <= ulBlocks
      && (forall i | 0 <= i < |slots| :: got[i] <= dlBlocks)
    }

    constructor (slots: seq<Slot>, ulMissLimit: int, mixer: HubCore.Mixer, defaultSlotSize: int)
      requires forall i | 0 <= i < |slots| :: slots[i].idx == i && !slots[i].connected && slots[i].miss == 0
      requires mixer.Valid()
      ensures Valid() && this.slots == slots && this.mixer == mixer && ulBlocks == 0
      ensures lastDlSize == defaultSlotSize && logs == seq(|slots|, _ => []) && got == seq(|slots|, _ => 0)
    {
      this.slots, this.ulMissLimit, this.mixer := slots, ulMissLimit, mixer;
      dlBlocks, ulBlocks, lastDlSize := 0, 0, defaultSlotSize;
      logs := seq(|slots|, _ => []);
      got := seq(|slots|, _ => 0);
      new;
      forall i | 0 <= i < |slots| ensures SlotOk(i) {
      }
    }

    /** One slot's turn in `_gather_ul`. */
    method AskUl(i: nat, answer: Answer) returns (blocks: seq<(nat, Block)>)
      requires i < |slots| && SlotsOk() && slots[i].connected
      modifies this`logs, slots[i]
      ensures SlotsOk()
      ensures logs == old(logs)[i := old(logs[i]) + [if answer.Reply? then Answered else TimedOut]]
      ensures blocks == if answer.Reply? then [(i, answer.block)] else []
    {
      var s := slots[i];
      assert SlotOk(i);
      Grow(logs[i], if answer.Reply? then Answered else TimedOut, Limit());
      logs := logs[i := logs[i] + [if answer.Reply? then Answered else TimedOut]];
      if answer.Reply? {
        blocks := [(s.idx, answer.block)];
        s.miss := 0;
      } else {
        blocks := [];
        s.miss := s.miss + 1;
        if s.miss >= ulMissLimit {
          s.connected := false;
          s.miss := 0;
        }
      }
      forall k | 0 <= k < |slots| ensures SlotOk(k) {
        assert old(SlotOk(k));
      }
    }

    /** The loop of `_gather_ul`: ask every connected slot, collect the blocks. */
    method GatherUl(answers: seq<Answer>) returns (blocks: seq<(nat, Block)>)
      requires SlotsOk() && |answers| == |slots|
      modifies this`logs, slots
      ensures SlotsOk()
      ensures logs == AfterUl(old(logs), answers, Limit())
      ensures blocks == UlBlocks(old(logs), answers, Limit(), |slots|)
    {
      ghost var before := logs;
      blocks := [];
      for i := 0 to |slots|
        invariant SlotsOk()
        invariant logs == AskedUpTo(before, answers, Limit(), i)
        invariant blocks == UlBlocks(before, answers, Limit(), i)
      {
        AskOneMore(before, answers, Limit(), i);
        assert SlotOk(i);
        if slots[i].connected {
          var more := AskUl(i, answers[i]);
          blocks := blocks + more;
        }
      }
    }

    /** A free slot is taken by the UE that asks for its first block. */
    method Join(i: nat)
      requires i < |slots| && SlotsOk() && !slots[i].connected
      modifies this`logs, slots[i]
      ensures SlotsOk()
      ensures logs == old(logs)[i := old(logs[i]) + [Joined]]
    {
      assert SlotOk(i);
      Grow(logs[i], Joined, Limit());
      slots[i].connected := true;
      logs := logs[i := logs[i] + [Joined]];
      forall k | 0 <= k < |slots| ensures SlotOk(k) {
        assert old(SlotOk(k));
      }
    }

    /** Hands the block to slot i; a free slot joins by it. */
    method Give(i: nat)
      requires i < |slots| && SlotsOk()
      modifies this`logs, this`got, slots[i]
      ensures SlotsOk()
      ensures logs == old(logs)[i := Heard(old(logs[i]), Limit())]
      ensures got == old(got)[i := old(got[i]) + 1]
    {
      assert SlotOk(i);
      if !slots[i].connected {
        Join(i);
      }
      got := got[i := got[i] + 1];
    }

    /** `[s for s in self.slots if s.connected]`, or the free ones. */
    method Select(wanted: bool) returns (chosen: seq<nat>)
      requires SlotsOk()
      ensures forall i: nat :: i in chosen <==> i < |slots| && Connected(logs[i], Limit()) == wanted
      ensures forall j, k | 0 <= j < k < |chosen| :: chosen[j] < chosen[k]
    {
      chosen := [];
      for i := 0 to |slots|
        invariant forall k: nat :: k in chosen <==> k < i && Connected(logs[k], Limit()) == wanted
        invariant forall j, k | 0 <= j < k < |chosen| :: chosen[j] < chosen[k]
        invariant forall j | 0 <= j < |chosen| :: chosen[j] < i
      {
        assert SlotOk(i);
        if slots[i].connected == wanted {
          chosen := chosen + [i];
        }
      }
    }

    /** The single connected slot: wait until it asks, or until the hub is stopped. */
    method ServeOne(s: nat, polls: seq<seq<nat>>)
      requires s < |slots| && SlotsOk() && Connected(logs[s], Limit())
      modifies this`logs, this`got, slots[s]
      ensures SlotsOk() && logs == old(logs)
      ensures got == Given(old(got), if Asks(polls, s) then {s} else {})
    {
      for k := 0 to |polls|
        invariant SlotsOk() && logs == old(logs) && got == old(got)
        invariant forall j | 0 <= j < k :: s !in polls[j]
      {
        if s in polls[k] {
          Give(s);
          return;
        }
      }
    }

    /** One poll of the barrier: the slots that ask and were not served yet. */
    method BarrierRound(active: seq<nat>, events: seq<nat>, served: set<nat>) returns (now: set<nat>)
      requires SlotsOk() && forall i | i in active :: i < |slots| && Connected(logs[i], Limit())
      requires forall i | i in served :: i < |slots|
      modifies this`logs, this`got, slots
      ensures SlotsOk() && logs == old(logs)
      ensures now == served + Asking(active, events)
      ensures got == Given(old(got), now - served)
    {
      now := served;
      for j := 0 to |active|
        invariant SlotsOk() && logs == old(logs)
        invariant now == served + Asking(active[..j], events)
        invariant got == Given(old(got), now - served)
      {
        assert active[..j + 1] == active[..j] + [active[j]];
        var s := active[j];
        assert s in active;
        if s !in now && s in events {
          Give(s);
          now := now + {s};
        }
      }
      assert active[..|active|] == active;
    }

    /** Two or more connected slots: serve each once, until all are served or the deadline passes. */
    method Barrier(active: seq<nat>, polls: seq<seq<nat>>) returns (served: set<nat>)
      requires SlotsOk() && forall i | i in active :: i < |slots| && Connected(logs[i], Limit())
      modifies this`logs, this`got, slots
      ensures SlotsOk() && logs == old(logs)
      ensures served == set i | i in active && Asks(polls, i)
      ensures got == Given(old(got), served)
    {
      served := {};
      var k := 0;
      while k < |polls| && exists i :: i in active && i !in served
        invariant 0 <= k <= |polls| && SlotsOk() && logs == old(logs)
        invariant served == AskedBy(active, polls[..k])
        invariant got == Given(old(got), served)
        decreases |polls| - k
      {
        AskedByOneMore(active, polls, k);
        ghost var had, counts := served, got;
        served := BarrierRound(active, polls[k], served);
        k := k + 1;
      }
      AskedByAll(active, polls, k, served);
    }

    /** No connected slot: wait for the first UE to ask; it joins. */
    method FirstJoin(polls: seq<seq<nat>>)
      requires SlotsOk() && !AnyConnected(logs, Limit())
      requires forall k, i | 0 <= k < |polls| && i in polls[k] :: i < |slots|
      modifies this`logs, this`got, slots
      ensures SlotsOk()
      ensures var given := set i | 0 <= i < |slots| && FirstAsker(polls) == Some(i);
        logs == AfterDl(old(logs), given, Limit()) && got == Given(old(got), given)
    {
      for k := 0 to |polls|
        invariant SlotsOk() && logs == old(logs) && got == old(got)
        invariant FirstAsker(polls) == FirstAsker(polls[k..])
      {
        if polls[k] != [] {
          assert polls[k][0] in polls[k];
          Give(polls[k][0]);
          return;
        }
      }
    }

    /** `_serve_dl` */
    method ServeDl(polls: seq<seq<nat>>)
      requires SlotsOk()
      requires forall k, i | 0 <= k < |polls| && i in polls[k] :: i < |slots|
      modifies this`logs, this`got, slots
      ensures SlotsOk()
      ensures logs == AfterDl(old(logs), ServedSet(old(logs), polls, Limit()), Limit())
      ensures got == Given(old(got), ServedSet(old(logs), polls, Limit()))
    {
      var active := Select(true);
      ghost var served := ServedSet(logs, polls, Limit());
      if |active| == 1 {
        assert active[0] in active;
        assert served == if Asks(polls, active[0]) then {active[0]} else {};
        ServeOne(active[0], polls);
      } else if |active| > 1 {
        assert active[0] in active;
        assert served == set i | i in active && Asks(polls, i);
        var _ := Barrier(active, polls);
      } else {
        FirstJoin(polls);
      }
    }

    /** `_pickup_joins`: free slots with a pending request join now. */
    method PickupJoins(ready: seq<nat>)
      requires SlotsOk()
      modifies this`logs, this`got, slots
      ensures SlotsOk()
      ensures logs == AfterDl(old(logs), JoinSet(old(logs), ready, Limit()), Limit())
      ensures got == Given(old(got), JoinSet(old(logs), ready, Limit()))
    {
      var disc := Select(false);
      ghost var before, counts := logs, got;
      for j := 0 to |disc|
        invariant SlotsOk()
        invariant logs == AfterDl(before, Asking(disc[..j], ready), Limit())
        invariant got == Given(counts, Asking(disc[..j], ready))
      {
        assert disc[j] in disc;
        JoinOneMore(before, counts, disc, ready, j, Limit());
        if disc[j] in ready {
          Give(disc[j]);
        }
      }
      AllJoined(before, disc, ready, Limit());
    }

    /** `_pull_dl`: the block's size is remembered; a timeout leaves it. */
    method PullDl(dl: Option<nat>)
      modifies this`lastDlSize
      ensures lastDlSize == if dl.Some? then dl.value else old(lastDlSize)
    {
      if dl.Some? {
        lastDlSize := dl.value;
      }
    }

    /** The downlink half of a round. */
    method SendDown(polls: seq<seq<nat>>, ready: seq<nat>)
      requires SlotsOk()
      requires forall k, i | 0 <= k < |polls| && i in polls[k] :: i < |slots|
      modifies this`logs, this`got, slots
      ensures SlotsOk()
      ensures logs == AfterDl(old(logs), DownGiven(old(logs), polls, ready, Limit()), Limit())
      ensures got == Given(old(got), DownGiven(old(logs), polls, ready, Limit()))
    {
      ghost var served := ServedSet(logs, polls, Limit());
      ghost var joins := JoinSet(AfterDl(logs, served, Limit()), ready, Limit());
      ServeDl(polls);
      PickupJoins(ready);
      NobodyTwice(old(logs), polls, ready, Limit());
      GiveInTwoSteps(old(logs), old(got), served, joins, Limit());
    }

    /** `sum_ul` on the collected blocks; the slots have no part in it. */
    method Sum(blocks: seq<(nat, Block)>) returns (ul: Block)
      requires SlotsOk() && mixer.Valid() && HubCore.DistinctSlots(blocks)
      modifies mixer`streams, mixer.channels.Values
      ensures SlotsOk() && mixer.Valid()
      ensures ul == HubCore.Superposed(HubCore.AllReceived(mixer.settings, old(mixer.streams), blocks), lastDlSize)
      ensures mixer.streams == HubCore.HeardAfter(old(mixer.streams), blocks)
    {
      ul := mixer.SumUl(blocks, lastDlSize);
    }

    /** The uplink half of a round: ask and sum. */
    method SendUp(answers: seq<Answer>) returns (ul: Block)
      requires SlotsOk() && mixer.Valid() && |answers| == |slots|
      modifies this`logs, slots, mixer`streams, mixer.channels.Values
      ensures SlotsOk() && mixer.Valid()
      ensures logs == AfterUl(old(logs), answers, Limit())
      ensures ul == UplinkOf(mixer.settings, old(mixer.streams), old(lastDlSize), old(logs), answers, Limit())
      ensures mixer.streams == HubCore.HeardAfter(old(mixer.streams), UlBlocks(old(logs), answers, Limit(), |slots|))
    {
      UlBlocksAre(logs, answers, Limit(), |slots|);
      ghost var mixing := mixer.Valid();
      var blocks := GatherUl(answers);
      assert mixing == mixer.Valid();
      ul := Sum(blocks);
    }

    /** The rest of a round: pull a block from the gNB and hand it on. */
    method RelayDown(t: Tick)
      requires SlotsOk() && TickFits(t, |slots|)
      requires dlBlocks < ulBlocks && forall i | 0 <= i < |got| :: got[i] <= dlBlocks
      modifies this`logs, this`got, this`dlBlocks, this`lastDlSize, slots
      ensures SlotsOk()
      ensures lastDlSize == if t.dl.Some? then t.dl.value else old(lastDlSize)
      ensures dlBlocks == old(dlBlocks) + if t.dl.Some? then 1 else 0
      ensures dlBlocks <= ulBlocks && forall i | 0 <= i < |got| :: got[i] <= dlBlocks
      ensures t.dl.None? ==> logs == AfterDl(old(logs), {}, Limit()) && got == Given(old(got), {})
      ensures t.dl.Some? ==> var given := DownGiven(old(logs), t.polls, t.ready, Limit());
        logs == AfterDl(old(logs), given, Limit()) && got == Given(old(got), given)
    {
      PullDl(t.dl);
      if t.dl.Some? {
        SendDown(t.polls, t.ready);
        dlBlocks := dlBlocks + 1;
      } else {
        NobodyGiven(logs, got, Limit());
      }
    }

    /** One round of `run` after the gNB asked for an uplink block. */
    method RunTick(t: Tick) returns (ul: Block)
      requires Valid() && TickFits(t, |slots|)
      modifies this`logs, this`got, this`ulBlocks, this`dlBlocks, this`lastDlSize, slots
      modifies mixer`streams, mixer.channels.Values
      ensures Valid()
      ensures ulBlocks == old(ulBlocks) + 1
      ensures dlBlocks == old(dlBlocks) + if t.dl.Some? then 1 else 0
      ensures ul == UplinkOf(mixer.settings, old(mixer.streams), old(lastDlSize), old(logs), t.answers, Limit())
      ensures mixer.streams == HubCore.HeardAfter(old(mixer.streams), UlBlocks(old(logs), t.answers, Limit(), |slots|))
      ensures lastDlSize == if t.dl.Some? then t.dl.value else old(lastDlSize)
      ensures logs == AfterTick(old(logs), t, Limit())
      ensures got == Given(old(got), TickGiven(old(logs), t, Limit()))
    {
      ul := SendUp(t.answers);
      ulBlocks := ulBlocks + 1;
      ghost var mixing := mixer.Valid();
      RelayDown(t);
      assert mixing == mixer.Valid();
    }

    /** The m-th round of a run that the gNB asked for, against the formula over the whole run. */
    method RunNext(t: Tick, ghost all: seq<HubCore.Round>, ghost m: nat) returns (ul: Block)
      requires Valid() && TickFits(t, |slots|) && m < |all|
      requires all[m] == HubCore.Round(UlBlocks(logs, t.answers, Limit(), |slots|), lastDlSize)
      modifies this`logs, this`got, this`ulBlocks, this`dlBlocks, this`lastDlSize, slots
      modifies mixer`streams, mixer.channels.Values
      ensures Valid()
      ensures logs == AfterTick(old(logs), t, Limit())
      ensures lastDlSize == if t.dl.Some? then t.dl.value else old(lastDlSize)
      ensures HubCore.HeardSent(old(mixer.streams), all[..m]) ==>
        ul == HubCore.Uplink(mixer.settings, all, m) && HubCore.HeardSent(mixer.streams, all[..m + 1])
    {
      UlBlocksAre(logs, t.answers, Limit(), |slots|);
      if HubCore.HeardSent(mixer.streams, all[..m]) {
        HubCore.RoundIsUplink(mixer.settings, mixer.streams, all, m);
        HubCore.RoundHeard(mixer.streams, all, m);
      }
      ul := RunTick(t);
    }

    /**
     `run`: what the gNB is sent over a whole run, block by block. Each is one formula over
     everything the slots have answered, filled to the last downlink block pulled before.
     */
    method Run(rounds: seq<Option<Tick>>) returns (sent: seq<Block>)
      requires Valid() && RoundsFit(rounds, |slots|)
      modifies this`logs, this`got, this`ulBlocks, this`dlBlocks, this`lastDlSize, slots
      modifies mixer`streams, mixer.channels.Values
      ensures Valid()
      ensures logs == AfterRun(old(logs), rounds, Limit())
      ensures lastDlSize == LastSize(rounds, old(lastDlSize))
      ensures |sent| == |Mixed(old(logs), rounds, Limit(), old(lastDlSize))|
      ensures HubCore.HeardSent(old(mixer.streams), []) ==>
        AreUplinks(mixer.settings, Mixed(old(logs), rounds, Limit(), old(lastDlSize)), sent)
    {
      ghost var before, first, silent := logs, lastDlSize, HubCore.HeardSent(mixer.streams, []);
      ghost var all := Mixed(before, rounds, Limit(), first);
      sent := [];
      for k := 0 to |rounds|
        invariant Valid()
        invariant logs == AfterRun(before, rounds[..k], Limit()) && lastDlSize == LastSize(rounds[..k], first)
        invariant |sent| <= |all| && Mixed(before, rounds[..k], Limit(), first) == all[..|sent|]
        invariant silent ==> HubCore.HeardSent(mixer.streams, all[..|sent|])
        invariant silent ==> AreUplinks(mixer.settings, all, sent)
      {
        RunOneMore(before, rounds, Limit(), k);
        MixedOneMore(before, rounds, Limit(), first, k);
        if rounds[k].Some? {
          var ul := RunNext(rounds[k].value, all, |sent|);
          if silent { UplinksSnoc(mixer.settings, all, sent, ul); }
          sent := sent + [ul];
        }
      }
      assert rounds[..|rounds|] == rounds;
    }
  }
}
