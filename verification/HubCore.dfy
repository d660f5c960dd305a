/**
 Per-UE uplink channels and their superposition (srsTwin/integration/hub/hub_core.py).
 Samples are pairs of reals where the program has float32 pairs; the fading tap is the
 constant 1 of an unfaded channel; the carrier-offset phase is an arbitrary function of
 the sample number.
 */
module HubCore {
  import opened Collections

  datatype Sample = Sample(re: real, im: real)

  const Zero := Sample(0.0, 0.0)
  const One := Sample(1.0, 0.0)

  function Plus(a: Sample, b: Sample): Sample {
    Sample(a.re + b.re, a.im + b.im)
  }

  function Times(a: Sample, b: Sample): Sample {
    Sample(a.re * b.re - a.im * b.im, a.re * b.im + a.im * b.re)
  }

  function Scale(g: real, a: Sample): Sample {
    Sample(g * a.re, g * a.im)
  }

  /**
   `offset` is cfo_hz != 0; only then does the phase apply. `noisy` is dl_snr_db != 0: it has
   no part in the uplink, but keeps the channel from being an identity.
   */
  datatype Params = Params(gain: real, delay: nat, offset: bool, phase: nat -> Sample, noisy: bool)

  const Identity := Params(1.0, 0, false, _ => One, false)

  // ---- the channel as one formula over a whole stream ----

  /** The n-th sample of a stream, silence before its start. */
  function At(x: seq<Sample>, n: int): Sample
    requires n < |x|
  {
    if n < 0 then Zero else x[n]
  }

  function Phase(p: Params, n: nat): Sample {
    if p.offset then p.phase(n) else One
  }

  /** Sample n of the channel's output for input stream x. */
  function Out(p: Params, x: seq<Sample>, n: nat): Sample
    requires n < |x|
  {
    var delayed := Scale(p.gain, At(x, n - p.delay));
    if p.offset then Times(delayed, Phase(p, n)) else delayed
  }

  /** The output samples from position `from` on. */
  function Filtered(p: Params, x: seq<Sample>, from: nat): (r: seq<Sample>)
    requires from <= |x|
    ensures |r| == |x| - from
  {
    seq(|x| - from, i requires 0 <= i < |x| - from => Out(p, x, from + i))
  }

  /** What was heard later does not change what was put out before. */
  lemma Causal(p: Params, x: seq<Sample>, more: seq<Sample>, n: nat)
    requires n < |x|
    ensures Out(p, x + more, n) == Out(p, x, n)
  {
  }

  /** `is_identity`, for an unfaded uplink */
  predicate IsIdentity(p: Params) {
    p.gain == 1.0 && !p.offset && p.delay == 0 && !p.noisy
  }

  /** A channel that configure leaves out would have passed the stream unchanged. */
  lemma IdentityPasses(p: Params, x: seq<Sample>, from: nat)
    requires from <= |x| && IsIdentity(p)
    ensures Filtered(p, x, from) == x[from..]
  {
    forall i | 0 <= i < |x| - from ensures Filtered(p, x, from)[i] == x[from..][i] {
      assert Out(p, x, from + i) == x[from + i];
    }
  }

  // ---- the channel as the program runs it, block by block ----

  class Channel {
    const p: Params
    /** The slot this channel is registered for. */
    ghost const slot: nat
    var delayBuf: seq<Sample>
    var cfoN: nat
    /** Everything this channel was ever given. */
    ghost var heard: seq<Sample>

    ghost predicate Valid()
      reads this
    {
      && |delayBuf| == p.delay
      && (forall i | 0 <= i < p.delay :: delayBuf[i] == At(heard, |heard| - p.delay + i))
      && (p.offset ==> cfoN == |heard|)
    }

    constructor (p: Params, ghost slot: nat)
      ensures Valid() && this.p == p && this.slot == slot && heard == []
    {
      this.p := p;
      this.slot := slot;
      delayBuf := seq(p.delay, _ => Zero);
      cfoN := 0;
      heard := [];
    }

    /** `_apply_delay`: a FIFO delay line carried across blocks. */
    method ApplyDelay(c: seq<Sample>) returns (out: seq<Sample>)
      requires |delayBuf| == p.delay
      modifies this`delayBuf
      ensures |out| == |c| && out + delayBuf == old(delayBuf) + c
    {
      if p.delay == 0 {
        return c;
      }
      var joined := delayBuf + c;
      out := joined[..|c|];
      delayBuf := joined[|c|..];
    }

    /** `_apply_cfo`: a phase ramp that continues where the last block stopped. */
    method ApplyCfo(c: seq<Sample>) returns (out: seq<Sample>)
      modifies this`cfoN
      ensures |out| == |c|
      ensures forall i | 0 <= i < |c| :: out[i] == if p.offset then Times(c[i], p.phase(old(cfoN) + i)) else c[i]
      ensures cfoN == if p.offset then old(cfoN) + |c| else old(cfoN)
    {
      if !p.offset {
        return c;
      }
      var n := cfoN;
      out := seq(|c|, i requires 0 <= i < |c| => Times(c[i], p.phase(n + i)));
      cfoN := cfoN + |c|;
    }

    method Uplink(c: seq<Sample>) returns (out: seq<Sample>)
      requires Valid()
      modifies this
      ensures Valid() && heard == old(heard) + c
      ensures out == Filtered(p, heard, |old(heard)|)
    {
      ghost var before, buf := heard, delayBuf;
      var delayed := ApplyDelay(c);
      DelayLine(p.delay, before, buf, c, delayed, delayBuf);
      var scaled := seq(|delayed|, i requires 0 <= i < |delayed| => Scale(p.gain, delayed[i]));
      out := ApplyCfo(scaled);
      heard := heard + c;
      assert forall i | 0 <= i < |c| :: out[i] == Out(p, heard, |before| + i);
    }
  }

  /** One step of the delay line in terms of the stream. */
  lemma DelayLine(d: nat, heard: seq<Sample>, buf: seq<Sample>, c: seq<Sample>, out: seq<Sample>, buf': seq<Sample>)
    requires |buf| == d && forall i | 0 <= i < d :: buf[i] == At(heard, |heard| - d + i)
    requires |out| == |c| && out + buf' == buf + c
    ensures |buf'| == d
    ensures forall i | 0 <= i < |c| :: out[i] == At(heard + c, |heard| + i - d)
    ensures forall i | 0 <= i < d :: buf'[i] == At(heard + c, |heard| + |c| - d + i)
  {
    var joined := buf + c;
    assert |out + buf'| == |joined|;
    forall i | 0 <= i < |joined| ensures joined[i] == At(heard + c, |heard| - d + i) {
    }
    forall i | 0 <= i < |c| ensures out[i] == joined[i] {
      assert (out + buf')[i] == out[i];
    }
    forall i | 0 <= i < d ensures buf'[i] == joined[|c| + i] {
      assert (out + buf')[|c| + i] == buf'[i];
    }
  }

  // ---- superposition ----

  /** `_fit_block` */
  function FitBlock(data: seq<Sample>, n: int, truncate: bool): seq<Sample> {
    if n <= 0 || |data| == n then data
    else if |data| < n then data + seq(n - |data|, _ => Zero)
    else if truncate then data[..n]
    else data
  }

  /** Sample j of the sum of the first k blocks; a short block is silent on its tail. */
  function SumAt(arrs: seq<seq<Sample>>, k: nat, j: nat): Sample
    requires k <= |arrs|
  {
    if k == 0 then Zero
    else Plus(SumAt(arrs, k - 1, j), if j < |arrs[k - 1]| then arrs[k - 1][j] else Zero)
  }

  function Longest(arrs: seq<seq<Sample>>): nat {
    if arrs == [] then 0 else Max(Longest(arrs[..|arrs|-1]), |arrs[|arrs|-1]|)
  }

  lemma {:induction false} LongestBounds(arrs: seq<seq<Sample>>, i: nat)
    requires i < |arrs|
    ensures |arrs[i]| <= Longest(arrs)
    ensures exists k :: 0 <= k < |arrs| && |arrs[k]| == Longest(arrs)
    decreases |arrs|
  {
    var last := |arrs| - 1;
    var rest := arrs[..last];
    if last > 0 {
      LongestBounds(rest, if i < last then i else 0);
      var k :| 0 <= k < |rest| && |rest[k]| == Longest(rest);
      assert |arrs[k]| == Longest(rest);
      assert |arrs[last]| == Longest(arrs) || |arrs[k]| == Longest(arrs);
    } else {
      assert |arrs[last]| == Longest(arrs);
    }
  }

  /** What the gNB receives for a tick: the position-wise sum, padded up to the fill length, never cut. */
  function Superposed(arrs: seq<seq<Sample>>, fill: int): seq<Sample> {
    FitBlock(Summed(arrs), fill, false)
  }

  function Summed(arrs: seq<seq<Sample>>): seq<Sample> {
    seq(Longest(arrs), j requires 0 <= j => SumAt(arrs, |arrs|, j))
  }

  lemma {:induction false} SilentBeyond(arrs: seq<seq<Sample>>, k: nat, j: nat)
    requires k <= |arrs| && forall i | 0 <= i < |arrs| :: |arrs[i]| <= j
    ensures SumAt(arrs, k, j) == Zero
  {
    if k > 0 { SilentBeyond(arrs, k - 1, j); }
  }

  /**
   Every sample of every block reaches the sum: the result is as long as the longest block
   or the fill, and silent padding apart it is the full sum.
   */
  lemma SuperposedIsExact(arrs: seq<seq<Sample>>, fill: int, j: nat)
    ensures |Superposed(arrs, fill)| == Max(Longest(arrs), fill)
    ensures j < |Superposed(arrs, fill)| ==> Superposed(arrs, fill)[j] == SumAt(arrs, |arrs|, j)
    ensures forall i | 0 <= i < |arrs| :: |arrs[i]| <= |Superposed(arrs, fill)|
  {
    forall i | 0 <= i < |arrs| ensures |arrs[i]| <= Longest(arrs) {
      LongestBounds(arrs, i);
    }
    if Longest(arrs) <= j {
      SilentBeyond(arrs, |arrs|, j);
    }
  }

  /** `_CHANNELS` and the operations over it. */
  class Mixer {
    const channels: map<nat, Channel>
    ghost const settings: map<nat, Params>
    /** What each slot's channel has heard so far. */
    ghost var streams: map<nat, seq<Sample>>

    ghost predicate ChannelOk(s: nat)
      requires s in channels
      reads this, channels[s]
    {
      && channels[s].Valid() && channels[s].slot == s
      && s in settings && channels[s].p == settings[s]
      && s in streams && channels[s].heard == streams[s]
    }

    ghost predicate Valid()
      reads this, channels.Values
    {
      && streams.Keys == settings.Keys == channels.Keys
      && forall s | s in channels :: ChannelOk(s)
    }

    /** `configure`: all-default channels are not registered. */
    constructor (specs: map<nat, Channel>)
      requires forall s | s in specs :: specs[s].Valid() && specs[s].slot == s && specs[s].heard == []
      ensures Valid()
      ensures forall s | s in streams :: streams[s] == []
      ensures settings.Keys == set s | s in specs && !IsIdentity(specs[s].p)
      ensures forall s | s in settings :: settings[s] == specs[s].p
    {
      channels := map s | s in specs && !IsIdentity(specs[s].p) :: specs[s];
      settings := map s | s in specs && !IsIdentity(specs[s].p) :: specs[s].p;
      streams := map s | s in specs && !IsIdentity(specs[s].p) :: [];
      new;
      forall s | s in channels ensures ChannelOk(s) {
      }
    }

    /** `apply_ul` */
    method ApplyUl(block: seq<Sample>, slot: nat) returns (out: seq<Sample>)
      requires Valid()
      modifies this`streams, channels.Values
      ensures Valid()
      ensures out == Received(settings, old(streams), slot, block)
      ensures streams == HeardOne(old(streams), slot, block)
    {
      if slot !in channels {
        return block;
      }
      assert ChannelOk(slot);
      out := channels[slot].Uplink(block);
      streams := HeardOne(streams, slot, block);
      forall s | s in channels ensures ChannelOk(s) {
        assert old(ChannelOk(s));
      }
    }

    /** The first half of sum_ul: every block through its channel, in order. */
    method ProcessAll(blocks: seq<(nat, seq<Sample>)>) returns (processed: seq<seq<Sample>>)
      requires Valid() && DistinctSlots(blocks)
      modifies this`streams, channels.Values
      ensures Valid()
      ensures processed == AllReceived(settings, old(streams), blocks)
      ensures streams == HeardAfter(old(streams), blocks)
    {
      ghost var before := streams;
      processed := [];
      for k := 0 to |blocks|
        invariant Valid()
        invariant processed == AllReceived(settings, before, blocks[..k])
        invariant streams == HeardAfter(before, blocks[..k])
      {
        var (slot, block) := blocks[k];
        OneMoreBlock(settings, before, blocks, k);
        var a := ApplyUl(block, slot);
        processed := processed + [a];
      }
      assert blocks[..|blocks|] == blocks;
    }

    /** `sum_ul` for the blocks of distinct slots. */
    method SumUl(blocks: seq<(nat, seq<Sample>)>, fill: int) returns (out: seq<Sample>)
      requires Valid() && DistinctSlots(blocks)
      modifies this`streams, channels.Values
      ensures Valid()
      ensures out == Superposed(AllReceived(settings, old(streams), blocks), fill)
      ensures streams == HeardAfter(old(streams), blocks)
    {
      if |blocks| == 0 {
        return FitBlock([], fill, true);
      }
      var processed := ProcessAll(blocks);
      var length := LongestOf(processed);
      var acc := Accumulate(processed, length);
      assert acc == Summed(processed);
      out := FitBlock(acc, fill, false);
    }

    /**
     The hub's uplink is a stream filter: over ticks of any lengths, with every slot
     sending its next block in each, what the gNB receives is one formula over the whole
     streams. Where the ticks fall does not show.
     */
    method Relay(sent: seq<seq<Sample>>, ticks: seq<(nat, int)>) returns (out: seq<Sample>)
      requires Valid() && |sent| > 0 && Cover(sent, Total(ticks))
      requires forall t | 0 <= t < |ticks| :: ticks[t].1 <= ticks[t].0
      requires forall s | s in streams :: streams[s] == []
      modifies this`streams, channels.Values
      ensures Valid()
      ensures out == Mix(SlotParams(settings, |sent|), sent, 0, Total(ticks))
    {
      ghost var ps := SlotParams(settings, |sent|);
      var from := 0;
      out := [];
      for t := 0 to |ticks|
        invariant Valid() && from == Total(ticks[..t]) && Cover(sent, from)
        invariant AllHeard(streams, sent, from)
        invariant out == Mix(ps, sent, 0, from)
      {
        TotalSplits(ticks, t);
        var to := from + ticks[t].0;
        var blocks := seq(|sent|, i requires 0 <= i < |sent| => (i, sent[i][from..to]));
        TickReceived(settings, streams, sent, from, to, blocks);
        TickHeard(settings, streams, sent, from, to, blocks);
        var tick := SumUl(blocks, ticks[t].1);
        TickIsMix(ps, sent, from, to, ticks[t].1);
        MixSplits(ps, sent, 0, from, to);
        out := out + tick;
        from := to;
      }
      assert ticks[..|ticks|] == ticks;
    }

    /**
     The same for slots that come and go: in each round whichever slots have a block send
     it, of whatever length. What the gNB receives is still one formula over what each slot
     has sent in all; a slot that was away goes on where its stream stopped.
     */
    method RelayRounds(rounds: seq<Round>) returns (out: seq<Sample>)
      requires Valid() && forall t | 0 <= t < |rounds| :: DistinctSlots(rounds[t].blocks)
      requires forall s | s in streams :: streams[s] == []
      modifies this`streams, channels.Values
      ensures Valid()
      ensures out == Uplinks(settings, rounds, |rounds|)
      ensures HeardSent(streams, rounds)
    {
      out := [];
      for t := 0 to |rounds|
        invariant Valid() && HeardSent(streams, rounds[..t])
        invariant out == Uplinks(settings, rounds, t)
      {
        OneMoreRound(settings, streams, rounds, t);
        var tick := SumUl(rounds[t].blocks, rounds[t].fill);
        out := out + tick;
      }
      assert rounds[..|rounds|] == rounds;
    }
  }

  predicate DistinctSlots(blocks: seq<(nat, seq<Sample>)>) {
    forall i, k | 0 <= i < k < |blocks| :: blocks[i].0 != blocks[k].0
  }

  /** What apply_ul makes of one slot's block, given what the slots' channels have heard. */
  function Received(ps: map<nat, Params>, heard: map<nat, seq<Sample>>, slot: nat, block: seq<Sample>): seq<Sample> {
    if slot in ps && slot in heard then Filtered(ps[slot], heard[slot] + block, |heard[slot]|) else block
  }

  function AllReceived(ps: map<nat, Params>, heard: map<nat, seq<Sample>>,
                       blocks: seq<(nat, seq<Sample>)>): seq<seq<Sample>> {
    seq(|blocks|, i requires 0 <= i < |blocks| => Received(ps, heard, blocks[i].0, blocks[i].1))
  }

  function HeardOne(heard: map<nat, seq<Sample>>, slot: nat, block: seq<Sample>): map<nat, seq<Sample>> {
    if slot in heard then heard[slot := heard[slot] + block] else heard
  }

  /** The streams after a tick: every slot with a block has heard it. */
  function HeardAfter(heard: map<nat, seq<Sample>>, blocks: seq<(nat, seq<Sample>)>): map<nat, seq<Sample>> {
    if blocks == [] then heard
    else
      var last := blocks[|blocks| - 1];
      HeardOne(HeardAfter(heard, blocks[..|blocks| - 1]), last.0, last.1)
  }

  lemma {:induction false} HeardAfterAt(heard: map<nat, seq<Sample>>, blocks: seq<(nat, seq<Sample>)>, s: nat)
    requires DistinctSlots(blocks)
    ensures HeardAfter(heard, blocks).Keys == heard.Keys
    ensures s in heard && (forall i | 0 <= i < |blocks| :: blocks[i].0 != s) ==>
      HeardAfter(heard, blocks)[s] == heard[s]
    ensures s in heard ==>
      forall i | 0 <= i < |blocks| && blocks[i].0 == s :: HeardAfter(heard, blocks)[s] == heard[s] + blocks[i].1
    decreases |blocks|
  {
    if blocks != [] {
      HeardAfterAt(heard, blocks[..|blocks| - 1], s);
    }
  }

  /** The k-th block meets its channel as it stood before the tick. */
  lemma OneMoreBlock(ps: map<nat, Params>, heard: map<nat, seq<Sample>>, blocks: seq<(nat, seq<Sample>)>, k: nat)
    requires DistinctSlots(blocks) && k < |blocks|
    ensures AllReceived(ps, heard, blocks[..k + 1])
         == AllReceived(ps, heard, blocks[..k])
          + [Received(ps, HeardAfter(heard, blocks[..k]), blocks[k].0, blocks[k].1)]
    ensures HeardAfter(heard, blocks[..k + 1]) == HeardOne(HeardAfter(heard, blocks[..k]), blocks[k].0, blocks[k].1)
  {
    assert blocks[..k + 1][..k] == blocks[..k];
    HeardAfterAt(heard, blocks[..k], blocks[k].0);
  }

  lemma LongestSnoc(arrs: seq<seq<Sample>>, a: seq<Sample>)
    ensures Longest(arrs + [a]) == Max(Longest(arrs), |a|)
  {
    assert (arrs + [a])[..|arrs|] == arrs;
  }

  method LongestOf(arrs: seq<seq<Sample>>) returns (length: nat)
    ensures length == Longest(arrs)
  {
    length := 0;
    for k := 0 to |arrs|
      invariant length == Longest(arrs[..k])
    {
      LongestSnoc(arrs[..k], arrs[k]);
      assert arrs[..k] + [arrs[k]] == arrs[..k + 1];
      length := Max(length, |arrs[k]|);
    }
    assert arrs[..|arrs|] == arrs;
  }

  /** `acc[: a.size] += a` */
  method AddInto(acc: array<Sample>, a: seq<Sample>)
    requires |a| <= acc.Length
    modifies acc
    ensures forall i | 0 <= i < acc.Length :: acc[i] == Plus(old(acc[i]), if i < |a| then a[i] else Zero)
  {
    for j := 0 to |a|
      invariant forall i | 0 <= i < j :: acc[i] == Plus(old(acc[i]), a[i])
      invariant forall i | j <= i < acc.Length :: acc[i] == old(acc[i])
    {
      acc[j] := Plus(acc[j], a[j]);
    }
  }

  /** The accumulation loop of sum_ul. */
  method Accumulate(arrs: seq<seq<Sample>>, length: nat) returns (out: seq<Sample>)
    requires length == Longest(arrs)
    ensures |out| == length && forall j | 0 <= j < length :: out[j] == SumAt(arrs, |arrs|, j)
  {
    var acc := new Sample[length](_ => Zero);
    for k := 0 to |arrs|
      invariant forall j | 0 <= j < length :: acc[j] == SumAt(arrs, k, j)
    {
      LongestBounds(arrs, k);
      AddInto(acc, arrs[k]);
    }
    out := acc[..];
  }

  // ---- any division into ticks ----

  /** Every stream reaches position n. */
  predicate Cover(streams: seq<seq<Sample>>, n: nat) {
    forall i | 0 <= i < |streams| :: n <= |streams[i]|
  }

  /** Slot i's part of sample n of the cell's uplink, summed over the first k slots. */
  function MixAt(ps: seq<Params>, streams: seq<seq<Sample>>, k: nat, n: nat): Sample
    requires k <= |ps| == |streams| && Cover(streams, n + 1)
  {
    if k == 0 then Zero else Plus(MixAt(ps, streams, k - 1, n), Out(ps[k - 1], streams[k - 1], n))
  }

  /** The whole uplink as one formula: sum over slots of gain, phase(n) and x[n - delay]. */
  function Mix(ps: seq<Params>, streams: seq<seq<Sample>>, from: nat, to: nat): (r: seq<Sample>)
    requires |ps| == |streams| && Cover(streams, to) && from <= to
    ensures |r| == to - from
  {
    seq(to - from, j requires 0 <= j < to - from => MixAt(ps, streams, |ps|, from + j))
  }

  /** The block that slot i's channel puts out for positions from..to of its stream. */
  function TickBlocks(ps: seq<Params>, streams: seq<seq<Sample>>, from: nat, to: nat): (r: seq<seq<Sample>>)
    requires |ps| == |streams| && Cover(streams, to) && from <= to
    ensures |r| == |ps|
    ensures forall i | 0 <= i < |r| :: r[i] == Filtered(ps[i], streams[i][..from] + streams[i][from..to], from)
  {
    seq(|ps|, i requires 0 <= i < |ps| => Filtered(ps[i], streams[i][..from] + streams[i][from..to], from))
  }

  /** How many samples a run of ticks (length, fill length) takes from every stream. */
  function Total(ticks: seq<(nat, int)>): nat {
    if ticks == [] then 0 else ticks[0].0 + Total(ticks[1..])
  }

  lemma TickBlockAt(ps: seq<Params>, streams: seq<seq<Sample>>, from: nat, to: nat, i: nat, j: nat)
    requires |ps| == |streams| && Cover(streams, to) && from <= to
    requires i < |ps| && j < to - from
    ensures |TickBlocks(ps, streams, from, to)[i]| == to - from
    ensures TickBlocks(ps, streams, from, to)[i][j] == Out(ps[i], streams[i], from + j)
  {
    var x := streams[i];
    assert x[..from] + x[from..to] == x[..to];
    assert x == x[..to] + x[to..];
    Causal(ps[i], x[..to], x[to..], from + j);
  }

  lemma {:induction false} TickSum(ps: seq<Params>, streams: seq<seq<Sample>>, from: nat, to: nat, k: nat, j: nat)
    requires |ps| == |streams| && Cover(streams, to) && from <= to
    requires k <= |ps| && j < to - from
    ensures SumAt(TickBlocks(ps, streams, from, to), k, j) == MixAt(ps, streams, k, from + j)
    decreases k
  {
    if k > 0 {
      TickSum(ps, streams, from, to, k - 1, j);
      TickBlockAt(ps, streams, from, to, k - 1, j);
    }
  }

  lemma TickIsMix(ps: seq<Params>, streams: seq<seq<Sample>>, from: nat, to: nat, fill: int)
    requires |ps| == |streams| > 0 && Cover(streams, to) && from <= to
    requires fill <= to - from
    ensures Superposed(TickBlocks(ps, streams, from, to), fill) == Mix(ps, streams, from, to)
  {
    var blocks := TickBlocks(ps, streams, from, to);
    LongestBounds(blocks, 0);
    var s := Superposed(blocks, fill);
    SuperposedIsExact(blocks, fill, 0);
    forall j | 0 <= j < to - from ensures s[j] == Mix(ps, streams, from, to)[j] {
      SuperposedIsExact(blocks, fill, j);
      TickSum(ps, streams, from, to, |ps|, j);
    }
  }

  lemma MixSplits(ps: seq<Params>, streams: seq<seq<Sample>>, from: nat, mid: nat, to: nat)
    requires |ps| == |streams| && Cover(streams, to) && from <= mid <= to
    ensures Mix(ps, streams, from, mid) + Mix(ps, streams, mid, to) == Mix(ps, streams, from, to)
  {
  }

  // ---- the program's state along such a run ----

  /** The channel each of n slots goes through; a slot without one is passed unchanged. */
  function SlotParams(settings: map<nat, Params>, n: nat): (ps: seq<Params>)
    ensures |ps| == n
  {
    seq(n, i requires 0 <= i < n => if i in settings then settings[i] else Identity)
  }

  /** Every registered slot's channel has heard exactly the first `from` samples of its stream. */
  predicate AllHeard(streams: map<nat, seq<Sample>>, sent: seq<seq<Sample>>, from: nat)
    requires Cover(sent, from)
  {
    forall s | s in streams && s < |sent| :: streams[s] == sent[s][..from]
  }

  lemma {:induction false} TotalSplits(ticks: seq<(nat, int)>, t: nat)
    requires t < |ticks|
    ensures Total(ticks[..t + 1]) == Total(ticks[..t]) + ticks[t].0
    ensures Total(ticks[..t + 1]) <= Total(ticks)
    decreases t
  {
    if t > 0 {
      TotalSplits(ticks[1..], t - 1);
      assert ticks[..t + 1][1..] == ticks[1..][..t];
      assert ticks[..t][1..] == ticks[1..][..t - 1];
    }
  }

  /** One slot's part of TickReceived. */
  lemma SlotReceived(settings: map<nat, Params>, streams: map<nat, seq<Sample>>, x: seq<Sample>,
                     from: nat, to: nat, s: nat)
    requires from <= to <= |x| && streams.Keys == settings.Keys
    requires s in streams ==> streams[s] == x[..from]
    ensures Received(settings, streams, s, x[from..to])
         == Filtered(if s in settings then settings[s] else Identity, x[..from] + x[from..to], from)
  {
    if s !in settings {
      IdentityPasses(Identity, x[..from] + x[from..to], from);
      assert (x[..from] + x[from..to])[from..] == x[from..to];
    }
  }

  lemma TickReceived(settings: map<nat, Params>, streams: map<nat, seq<Sample>>, sent: seq<seq<Sample>>,
                     from: nat, to: nat, blocks: seq<(nat, seq<Sample>)>)
    requires streams.Keys == settings.Keys && from <= to && Cover(sent, from) && Cover(sent, to)
    requires AllHeard(streams, sent, from)
    requires |blocks| == |sent| && forall i | 0 <= i < |sent| :: blocks[i] == (i, sent[i][from..to])
    ensures AllReceived(settings, streams, blocks) == TickBlocks(SlotParams(settings, |sent|), sent, from, to)
  {
    var r, t := AllReceived(settings, streams, blocks), TickBlocks(SlotParams(settings, |sent|), sent, from, to);
    forall i | 0 <= i < |sent| ensures r[i] == t[i] {
      SlotReceived(settings, streams, sent[i], from, to, i);
    }
  }

  lemma TickHeard(settings: map<nat, Params>, streams: map<nat, seq<Sample>>, sent: seq<seq<Sample>>,
                     from: nat, to: nat, blocks: seq<(nat, seq<Sample>)>)
    requires streams.Keys == settings.Keys && from <= to && Cover(sent, from) && Cover(sent, to)
    requires AllHeard(streams, sent, from)
    requires |blocks| == |sent| && forall i | 0 <= i < |sent| :: blocks[i] == (i, sent[i][from..to])
    ensures AllHeard(HeardAfter(streams, blocks), sent, to)
  {
    forall s | s in HeardAfter(streams, blocks) && s < |sent|
      ensures HeardAfter(streams, blocks)[s] == sent[s][..to]
    {
      HeardAfterAt(streams, blocks, s);
      assert blocks[s].0 == s;
      assert sent[s][..from] + sent[s][from..to] == sent[s][..to];
    }
  }

  // ---- slots that come and go ----

  /** One tick: the blocks of the slots that sent one, and the length to fill up to. */
  datatype Round = Round(blocks: seq<(nat, seq<Sample>)>, fill: int)

  function BlockOf(blocks: seq<(nat, seq<Sample>)>, s: nat): seq<Sample> {
    if blocks == [] then []
    else if blocks[|blocks| - 1].0 == s then blocks[|blocks| - 1].1
    else BlockOf(blocks[..|blocks| - 1], s)
  }

  /** Everything slot s has sent over these rounds. */
  function Sent(rounds: seq<Round>, s: nat): seq<Sample> {
    if rounds == [] then [] else Sent(rounds[..|rounds| - 1], s) + BlockOf(rounds[|rounds| - 1].blocks, s)
  }

  /** Every registered slot's channel has heard exactly what its slot has sent. */
  predicate HeardSent(streams: map<nat, seq<Sample>>, rounds: seq<Round>) {
    forall s | s in streams :: streams[s] == Sent(rounds, s)
  }

  function ParamsOf(settings: map<nat, Params>, s: nat): Params {
    if s in settings then settings[s] else Identity
  }

  /** Sample j of block k of round t, through its slot's channel; a short block is silent on its tail. */
  function PartAt(settings: map<nat, Params>, rounds: seq<Round>, t: nat, k: nat, j: nat): Sample
    requires t < |rounds| && k < |rounds[t].blocks|
  {
    var slot := rounds[t].blocks[k].0;
    var n := |Sent(rounds[..t], slot)| + j;
    if j < |rounds[t].blocks[k].1| && n < |Sent(rounds, slot)|
    then Out(ParamsOf(settings, slot), Sent(rounds, slot), n) else Zero
  }

  function UplinkAt(settings: map<nat, Params>, rounds: seq<Round>, t: nat, k: nat, j: nat): Sample
    requires t < |rounds| && k <= |rounds[t].blocks|
  {
    if k == 0 then Zero
    else Plus(UplinkAt(settings, rounds, t, k - 1, j), PartAt(settings, rounds, t, k - 1, j))
  }

  function Data(blocks: seq<(nat, seq<Sample>)>): (r: seq<seq<Sample>>)
    ensures |r| == |blocks|
  {
    seq(|blocks|, i requires 0 <= i < |blocks| => blocks[i].1)
  }

  /** The uplink of round t: as long as its longest block or the fill, at each position the sum of the slots' parts. */
  function Uplink(settings: map<nat, Params>, rounds: seq<Round>, t: nat): seq<Sample>
    requires t < |rounds|
  {
    var blocks := rounds[t].blocks;
    seq(Max(Longest(Data(blocks)), rounds[t].fill), j requires 0 <= j => UplinkAt(settings, rounds, t, |blocks|, j))
  }

  function Uplinks(settings: map<nat, Params>, rounds: seq<Round>, n: nat): seq<Sample>
    requires n <= |rounds|
  {
    if n == 0 then [] else Uplinks(settings, rounds, n - 1) + Uplink(settings, rounds, n - 1)
  }

  lemma {:induction false} BlockOfAt(blocks: seq<(nat, seq<Sample>)>, k: nat)
    requires DistinctSlots(blocks) && k < |blocks|
    ensures BlockOf(blocks, blocks[k].0) == blocks[k].1
    decreases |blocks|
  {
    if k < |blocks| - 1 { BlockOfAt(blocks[..|blocks| - 1], k); }
  }

  lemma {:induction false} NoBlock(blocks: seq<(nat, seq<Sample>)>, s: nat)
    requires forall i | 0 <= i < |blocks| :: blocks[i].0 != s
    ensures BlockOf(blocks, s) == []
  {
    if blocks != [] { NoBlock(blocks[..|blocks| - 1], s); }
  }

  /** What is sent later comes behind what was sent before. */
  lemma {:induction false} SentGrows(rounds: seq<Round>, t: nat, s: nat) returns (more: seq<Sample>)
    requires t <= |rounds|
    ensures Sent(rounds, s) == Sent(rounds[..t], s) + more
    decreases |rounds|
  {
    if t == |rounds| {
      assert rounds[..t] == rounds;
      more := [];
    } else {
      var last := |rounds| - 1;
      more := SentGrows(rounds[..last], t, s);
      assert rounds[..last][..t] == rounds[..t];
      more := more + BlockOf(rounds[last].blocks, s);
    }
  }

  lemma SentStep(rounds: seq<Round>, t: nat, s: nat)
    requires t < |rounds|
    ensures Sent(rounds[..t + 1], s) == Sent(rounds[..t], s) + BlockOf(rounds[t].blocks, s)
  {
    assert rounds[..t + 1][..t] == rounds[..t];
  }

  /** What a slot's channel puts out for a block, within the slot's whole stream. */
  lemma ReceivedAt(settings: map<nat, Params>, streams: map<nat, seq<Sample>>, s: nat, block: seq<Sample>,
                   before: seq<Sample>, more: seq<Sample>, j: nat)
    requires streams.Keys == settings.Keys && (s in streams ==> streams[s] == before) && j < |block|
    ensures |Received(settings, streams, s, block)| == |block|
    ensures Received(settings, streams, s, block)[j]
         == Out(ParamsOf(settings, s), before + block + more, |before| + j)
  {
    var p := ParamsOf(settings, s);
    Causal(p, before + block, more, |before| + j);
  }

  lemma PartReceived(settings: map<nat, Params>, streams: map<nat, seq<Sample>>, rounds: seq<Round>,
                     t: nat, k: nat, j: nat)
    requires t < |rounds| && k < |rounds[t].blocks| && DistinctSlots(rounds[t].blocks)
    requires streams.Keys == settings.Keys && HeardSent(streams, rounds[..t])
    ensures var slot, block := rounds[t].blocks[k].0, rounds[t].blocks[k].1;
      var r := Received(settings, streams, slot, block);
      |r| == |block| && PartAt(settings, rounds, t, k, j) == if j < |r| then r[j] else Zero
  {
    var slot, block := rounds[t].blocks[k].0, rounds[t].blocks[k].1;
    if j < |block| {
      BlockOfAt(rounds[t].blocks, k);
      SentStep(rounds, t, slot);
      var more := SentGrows(rounds, t + 1, slot);
      ReceivedAt(settings, streams, slot, block, Sent(rounds[..t], slot), more, j);
    }
  }

  lemma {:induction false} PartsSum(settings: map<nat, Params>, rounds: seq<Round>, t: nat, arrs: seq<seq<Sample>>,
                                    k: nat, j: nat)
    requires t < |rounds| && k <= |arrs| == |rounds[t].blocks|
    requires forall i | 0 <= i < |arrs| ::
      PartAt(settings, rounds, t, i, j) == if j < |arrs[i]| then arrs[i][j] else Zero
    ensures SumAt(arrs, k, j) == UplinkAt(settings, rounds, t, k, j)
    decreases k
  {
    if k > 0 { PartsSum(settings, rounds, t, arrs, k - 1, j); }
  }

  lemma {:induction false} LongestByLengths(a: seq<seq<Sample>>, b: seq<seq<Sample>>)
    requires |a| == |b| && forall i | 0 <= i < |a| :: |a[i]| == |b[i]|
    ensures Longest(a) == Longest(b)
  {
    if a != [] { LongestByLengths(a[..|a| - 1], b[..|b| - 1]); }
  }

  lemma RoundIsUplink(settings: map<nat, Params>, streams: map<nat, seq<Sample>>, rounds: seq<Round>, t: nat)
    requires t < |rounds| && DistinctSlots(rounds[t].blocks)
    requires streams.Keys == settings.Keys && HeardSent(streams, rounds[..t])
    ensures Superposed(AllReceived(settings, streams, rounds[t].blocks), rounds[t].fill) == Uplink(settings, rounds, t)
  {
    var blocks, fill := rounds[t].blocks, rounds[t].fill;
    var arrs := AllReceived(settings, streams, blocks);
    LongestByLengths(arrs, Data(blocks));
    SuperposedIsExact(arrs, fill, 0);
    forall j | 0 <= j < |Superposed(arrs, fill)|
      ensures Superposed(arrs, fill)[j] == Uplink(settings, rounds, t)[j]
    {
      SuperposedIsExact(arrs, fill, j);
      forall k | 0 <= k < |blocks|
        ensures PartAt(settings, rounds, t, k, j) == if j < |arrs[k]| then arrs[k][j] else Zero
      {
        PartReceived(settings, streams, rounds, t, k, j);
      }
      PartsSum(settings, rounds, t, arrs, |blocks|, j);
    }
  }

  lemma RoundHeard(streams: map<nat, seq<Sample>>, rounds: seq<Round>, t: nat)
    requires t < |rounds| && DistinctSlots(rounds[t].blocks)
    requires HeardSent(streams, rounds[..t])
    ensures HeardSent(HeardAfter(streams, rounds[t].blocks), rounds[..t + 1])
  {
    var blocks := rounds[t].blocks;
    HeardAfterAt(streams, blocks, 0);
    forall s | s in streams ensures HeardAfter(streams, blocks)[s] == Sent(rounds[..t + 1], s) {
      HeardAfterAt(streams, blocks, s);
      SentStep(rounds, t, s);
      if k :| 0 <= k < |blocks| && blocks[k].0 == s {
        BlockOfAt(blocks, k);
      } else {
        NoBlock(blocks, s);
      }
    }
  }

  lemma OneMoreRound(settings: map<nat, Params>, streams: map<nat, seq<Sample>>, rounds: seq<Round>, t: nat)
    requires t < |rounds| && DistinctSlots(rounds[t].blocks)
    requires streams.Keys == settings.Keys && HeardSent(streams, rounds[..t])
    ensures var tick := Superposed(AllReceived(settings, streams, rounds[t].blocks), rounds[t].fill);
      Uplinks(settings, rounds, t + 1) == Uplinks(settings, rounds, t) + tick
    ensures HeardSent(HeardAfter(streams, rounds[t].blocks), rounds[..t + 1])
  {
    RoundIsUplink(settings, streams, rounds, t);
    RoundHeard(streams, rounds, t);
  }

  // ---- what a channel and the sum do to samples ----

  function Power(a: Sample): real {
    a.re * a.re + a.im * a.im
  }

  lemma TimesKeepsPower(a: Sample, b: Sample)
    ensures Power(Times(a, b)) == Power(a) * Power(b)
  {
    var p, q, r, s := a.re * b.re, a.im * b.im, a.re * b.im, a.im * b.re;
    assert Power(Times(a, b)) == p * p - 2.0 * (p * q) + q * q + r * r + 2.0 * (r * s) + s * s by {
      SquareOfDifference(p, q);
      SquareOfSum(r, s);
    }
    assert p * q == r * s by { Swap(a.re, b.re, a.im, b.im); }
    Products(a.re, b.re);
    Products(a.im, b.im);
    Products(a.re, b.im);
    Products(a.im, b.re);
    Expand(a.re * a.re, a.im * a.im, b.re * b.re, b.im * b.im);
  }

  lemma SquareOfDifference(p: real, q: real)
    ensures (p - q) * (p - q) == p * p - 2.0 * (p * q) + q * q
  {
  }

  lemma SquareOfSum(p: real, q: real)
    ensures (p + q) * (p + q) == p * p + 2.0 * (p * q) + q * q
  {
  }

  lemma Swap(a: real, b: real, c: real, d: real)
    ensures (a * b) * (c * d) == (a * d) * (c * b)
  {
  }

  lemma Products(a: real, b: real)
    ensures (a * b) * (a * b) == (a * a) * (b * b)
  {
  }

  lemma Expand(a: real, b: real, c: real, d: real)
    ensures (a + b) * (c + d) == a * c + b * d + a * d + b * c
  {
  }

  lemma ScaleKeepsPower(g: real, a: Sample)
    ensures Power(Scale(g, a)) == (g * g) * Power(a)
  {
    Products(g, a.re);
    Products(g, a.im);
  }

  /** What a channel makes of the sample that comes out of its delay line at n. */
  function Turned(p: Params, n: nat, a: Sample): Sample {
    if p.offset then Times(Scale(p.gain, a), p.phase(n)) else Scale(p.gain, a)
  }

  lemma OutIsTurned(p: Params, x: seq<Sample>, n: nat)
    requires n < |x|
    ensures Out(p, x, n) == Turned(p, n, if n < p.delay then Zero else x[n - p.delay])
  {
  }

  lemma TurnedPower(p: Params, n: nat, a: Sample)
    requires p.offset ==> Power(p.phase(n)) == 1.0
    ensures Power(Turned(p, n, a)) == Power(Scale(p.gain, a))
  {
    if p.offset { TimesKeepsPower(Scale(p.gain, a), p.phase(n)); }
  }

  /** A channel whose phase only turns puts out, `delay` samples later, the power of the scaled sample. */
  lemma ChannelKeepsPower(p: Params, x: seq<Sample>, n: nat)
    requires n < |x| && (p.offset ==> Power(p.phase(n)) == 1.0)
    ensures Power(Out(p, x, n)) == Power(Scale(p.gain, if n < p.delay then Zero else x[n - p.delay]))
  {
    OutIsTurned(p, x, n);
    TurnedPower(p, n, if n < p.delay then Zero else x[n - p.delay]);
  }

  function Added(x: seq<Sample>, y: seq<Sample>): (r: seq<Sample>)
    requires |x| == |y|
    ensures |r| == |x|
  {
    seq(|x|, i requires 0 <= i < |x| => Plus(x[i], y[i]))
  }

  lemma ScaleAdds(g: real, a: Sample, b: Sample)
    ensures Scale(g, Plus(a, b)) == Plus(Scale(g, a), Scale(g, b))
  {
  }

  lemma TimesAdds(a: Sample, b: Sample, c: Sample)
    ensures Times(Plus(a, b), c) == Plus(Times(a, c), Times(b, c))
  {
  }

  lemma TurnedAdds(p: Params, n: nat, a: Sample, b: Sample)
    ensures Turned(p, n, Plus(a, b)) == Plus(Turned(p, n, a), Turned(p, n, b))
  {
    ScaleAdds(p.gain, a, b);
    if p.offset { TimesAdds(Scale(p.gain, a), Scale(p.gain, b), p.phase(n)); }
  }

  lemma SilenceAdds()
    ensures Plus(Zero, Zero) == Zero
  {
  }

  /** A channel treats a sum of streams as it treats each of them. */
  lemma ChannelIsLinear(p: Params, x: seq<Sample>, y: seq<Sample>, n: nat)
    requires n < |x| == |y|
    ensures Out(p, Added(x, y), n) == Plus(Out(p, x, n), Out(p, y, n))
  {
    OutIsTurned(p, x, n);
    OutIsTurned(p, y, n);
    OutIsTurned(p, Added(x, y), n);
    SilenceAdds();
    TurnedAdds(p, n, if n < p.delay then Zero else x[n - p.delay], if n < p.delay then Zero else y[n - p.delay]);
  }

  /** One sample of a silent stream comes out once: after the delay, with the gain, turned by the phase of then. */
  lemma ImpulseResponse(p: Params, x: seq<Sample>, m: nat, n: nat)
    requires m < |x| && n < |x| && x[m] == One && forall i | 0 <= i < |x| && i != m :: x[i] == Zero
    ensures var turn := if p.offset then p.phase(n) else One;
      Out(p, x, n) == if n == m + p.delay then Sample(p.gain * turn.re, p.gain * turn.im) else Zero
  {
  }

  /** The slots' blocks are added component by component, a block that has ended giving nothing. */
  lemma {:induction false} SumAddsUp(arrs: seq<seq<Sample>>, more: seq<Sample>, j: nat)
    ensures var sum, all := SumAt(arrs, |arrs|, j), SumAt(arrs + [more], |arrs| + 1, j);
      && all.re == sum.re + (if j < |more| then more[j].re else 0.0)
      && all.im == sum.im + (if j < |more| then more[j].im else 0.0)
    ensures SumAt([], 0, j) == Sample(0.0, 0.0)
  {
    SumOfPrefix(arrs, more, |arrs|, j);
  }

  lemma {:induction false} SumOfPrefix(arrs: seq<seq<Sample>>, more: seq<Sample>, k: nat, j: nat)
    requires k <= |arrs|
    ensures SumAt(arrs + [more], k, j) == SumAt(arrs, k, j)
    decreases k
  {
    if k > 0 { SumOfPrefix(arrs, more, k - 1, j); }
  }

  /** A channel is left out exactly when everything but its unused phase is at its default. */
  lemma IdentityIff(p: Params)
    ensures IsIdentity(p) <==> p == Identity.(phase := p.phase)
  {
  }
}
