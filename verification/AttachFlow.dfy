/**
 Attach procedures in a merged 4G log: splitting, ordering, delays and phase latencies
 (srsTwin/integration/dashboard/parse_4g.py). What the program reads off an event's label
 is given with the event: its flow rank and phase, whether it starts or ends a procedure,
 whether it is queued early or carries a queued message.
 */
module AttachFlow {
  import opened Collections
  import opened Slices

  /** `stamp` orders as the timestamp's text does; `time` is its parsed value in seconds. */
  datatype Event = Event(
    stamp: int, time: real, rank: int, phase: string, starts: bool, ends: bool, queued: bool, carrier: bool,
    eff: Option<real>, delay: Option<real>)

  const SPLIT_GAP := 15.0
  const DEFAULT_RANK := 8000

  // ---- splitting into procedures ----

  predicate Earlier(a: Event, b: Event) {
    a.stamp <= b.stamp
  }

  /** The time of the last start event among these. */
  function LastStart(s: seq<Event>): Option<real> {
    if s == [] then None
    else if s[|s| - 1].starts then Some(s[|s| - 1].time)
    else LastStart(s[..|s| - 1])
  }

  /** A procedure begins at k: a start event after an ended procedure, or long enough after the last start. */
  predicate Cut(s: seq<Event>, k: nat)
    requires 0 < k < |s|
  {
    && s[k].starts
    && (s[k - 1].ends || LastStart(s[..k]) == None || s[k].time - LastStart(s[..k]).value >= SPLIT_GAP)
  }

  function Cuts(s: seq<Event>): nat -> bool {
    k => 0 < k < |s| && Cut(s, k)
  }

  function Groups(s: seq<Event>): seq<seq<Event>> {
    Chop(s, Cuts(s))
  }

  /** The last start event before k. */
  ghost predicate LastStartAt(s: seq<Event>, k: nat, j: nat) {
    j < k <= |s| && s[j].starts && forall i | j < i < k :: !s[i].starts
  }

  /**
   A start event that follows an event ending a procedure, or no start event at all, or the
   last start event by at least fifteen seconds.
   */
  ghost predicate OpensProcedure(s: seq<Event>, k: nat) {
    && 0 < k < |s| && s[k].starts
    && (s[k - 1].ends || (forall j | 0 <= j < k :: !s[j].starts)
        || exists j: nat :: LastStartAt(s, k, j) && s[k].time - s[j].time >= 15.0)
  }

  lemma {:induction false} LastStartIs(s: seq<Event>)
    ensures LastStart(s).None? <==> forall j | 0 <= j < |s| :: !s[j].starts
    ensures LastStart(s).Some? ==> exists j: nat :: LastStartAt(s, |s|, j) && s[j].time == LastStart(s).value
  {
    if s != [] {
      var init := s[..|s| - 1];
      LastStartIs(init);
      if s[|s| - 1].starts {
        assert LastStartAt(s, |s|, |s| - 1);
      } else if LastStart(init).Some? {
        var j: nat :| LastStartAt(init, |init|, j) && init[j].time == LastStart(init).value;
        assert LastStartAt(s, |s|, j);
      }
    }
  }

  lemma OneLastStart(s: seq<Event>, k: nat, i: nat, j: nat)
    requires LastStartAt(s, k, i) && LastStartAt(s, k, j)
    ensures i == j
  {
  }

  lemma CutIff(s: seq<Event>, k: nat)
    requires 0 < k < |s|
    ensures Cut(s, k) <==> OpensProcedure(s, k)
  {
    LastStartIs(s[..k]);
    if LastStart(s[..k]).Some? {
      var j: nat :| LastStartAt(s[..k], k, j) && s[..k][j].time == LastStart(s[..k]).value;
      assert LastStartAt(s, k, j);
      forall i: nat | LastStartAt(s, k, i) ensures i == j {
        OneLastStart(s, k, i, j);
      }
    }
  }

  /**
   The procedures are the events in stable time order, cut up without loss; none is empty,
   and one starts exactly at the beginning and wherever the splitting rule says.
   */
  lemma ProceduresAreExact(events: seq<Event>)
    ensures var s, groups := StableSort(Earlier, events), Groups(StableSort(Earlier, events));
      && Flat(groups) == s && Ordered(Earlier, s) && multiset(s) == multiset(events)
      && (forall y :: Ties(Earlier, s, y) == Ties(Earlier, events, y))
      && (forall g | 0 <= g < |groups| :: groups[g] != [])
      && (forall k: nat | k < |s| :: StartsSlice(groups, k) <==> k == 0 || OpensProcedure(s, k))
  {
    var s := StableSort(Earlier, events);
    Orders();
    StableSortLaws(Earlier, events);
    ChopCovers(s, Cuts(s));
    NoEmptySlice(s, Cuts(s));
    forall k: nat | k < |s| ensures StartsSlice(Groups(s), k) <==> k == 0 || OpensProcedure(s, k) {
      SlicesStartAtCuts(s, Cuts(s), k);
      if k > 0 { CutIff(s, k); }
    }
  }

  /** `split_attach_procedures` */
  method SplitAttachProcedures(events: seq<Event>) returns (groups: seq<seq<Event>>)
    ensures groups == Groups(StableSort(Earlier, events))
  {
    var byTime := StableSort(Earlier, events);
    groups := [];
    if |events| == 0 {
      return;
    }
    var current: seq<Event> := [];
    var lastSib: Option<real> := None;
    for k := 0 to |byTime|
      invariant if k == 0 then groups == [] && current == []
                else current != [] && current[|current| - 1] == byTime[k - 1]
      invariant k > 0 ==> groups + [current] == Chop(byTime[..k], Cuts(byTime))
      invariant lastSib == LastStart(byTime[..k])
    {
      var ev := byTime[k];
      assert byTime[..k + 1][..k] == byTime[..k];
      if k > 0 {
        ChopStep(byTime, Cuts(byTime), k, groups, current);
      } else {
        assert byTime[..1] == [ev];
        ChopOne(ev, Cuts(byTime));
      }
      if ev.starts && |current| > 0 {
        var ended := current[|current| - 1].ends;
        var gap := if lastSib.Some? then ev.time - lastSib.value else 999.0;
        if ended || gap >= SPLIT_GAP {
          groups := groups + [current];
          current := [];
        }
      }
      current := current + [ev];
      assert k == 0 || Cuts(byTime)(k) ==> current == [ev];
      if ev.starts {
        lastSib := Some(ev.time);
      }
    }
    assert byTime[..|byTime|] == byTime;
    groups := groups + [current];
  }

  // ---- order and delays within a procedure ----

  /** `(flow_rank, ts)` */
  predicate FlowsBefore(a: Event, b: Event) {
    a.rank < b.rank || (a.rank == b.rank && a.stamp <= b.stamp)
  }

  lemma Orders()
    ensures TotalPreorder(FlowsBefore) && TotalPreorder(Earlier)
  {
  }

  /** The first event of the group that carries queued messages. */
  function Carrier(group: seq<Event>): (i: nat)
    ensures i <= |group|
    ensures i < |group| ==> group[i].carrier
    ensures forall j | 0 <= j < i :: !group[j].carrier
  {
    if group == [] || group[0].carrier then 0 else 1 + Carrier(group[1..])
  }

  /** When event i was really sent: with its carrier, if it was queued and there is one. */
  function SentAt(group: seq<Event>, i: nat): real
    requires i < |group|
  {
    if group[i].queued && Carrier(group) < |group| then group[Carrier(group)].time else group[i].time
  }

  function Positive(x: real): real {
    if x < 0.0 then 0.0 else x
  }

  function DelayMs(group: seq<Event>, i: nat): Option<real>
    requires i < |group|
  {
    if i == 0 then None else Some(Positive(SentAt(group, i) - SentAt(group, i - 1)) * 1000.0)
  }

  /** `_annotate_delays` */
  function Annotated(group: seq<Event>): (r: seq<Event>)
    ensures |r| == |group|
  {
    seq(|group|, i requires 0 <= i < |group| =>
      group[i].(eff := Some(SentAt(group, i)), delay := DelayMs(group, i)))
  }

  /** An event without what the ordering writes into it. */
  function Bare(e: Event): Event {
    e.(eff := None, delay := None)
  }

  function BareAll(s: seq<Event>): (r: seq<Event>)
    ensures |r| == |s|
  {
    Mapped(Bare, s)
  }

  /** One procedure in its final order. */
  function OrderedGroup(group: seq<Event>): seq<Event> {
    Annotated(StableSort(FlowsBefore, group))
  }

  function OrderedGroups(groups: seq<seq<Event>>): (r: seq<seq<Event>>)
    ensures |r| == |groups|
  {
    seq(|groups|, g requires 0 <= g < |groups| => OrderedGroup(groups[g]))
  }

  /** `order_attach_flow` */
  function AttachOrder(events: seq<Event>): seq<Event> {
    Flat(OrderedGroups(Groups(StableSort(Earlier, events))))
  }

  // ---- what the order keeps ----

  /** Inside a procedure: the same events, by rank and then time, ties as they were. */
  lemma GroupIsExact(group: seq<Event>)
    ensures multiset(BareAll(OrderedGroup(group))) == multiset(BareAll(group))
    ensures Ordered(FlowsBefore, OrderedGroup(group))
    ensures forall i | 0 <= i < |group| :: OrderedGroup(group)[i].delay.None? <==> i == 0
    ensures forall i | 0 <= i < |group| && OrderedGroup(group)[i].delay.Some? ::
      OrderedGroup(group)[i].delay.value >= 0.0
  {
    var sorted := StableSort(FlowsBefore, group);
    Orders();
    StableSortLaws(FlowsBefore, group);
    MappedKeeps(Bare, sorted, group);
    forall i | 0 <= i < |group| ensures BareAll(OrderedGroup(group))[i] == BareAll(sorted)[i] {
      var e := OrderedGroup(group)[i];
      assert e == sorted[i].(eff := e.eff, delay := e.delay);
      assert BareAll(OrderedGroup(group))[i] == Bare(e);
      assert BareAll(sorted)[i] == Bare(sorted[i]);
    }
    assert BareAll(OrderedGroup(group)) == BareAll(sorted);
    forall i, j | 0 <= i < j < |group| ensures FlowsBefore(OrderedGroup(group)[i], OrderedGroup(group)[j]) {
      assert FlowsBefore(sorted[i], sorted[j]);
    }
  }

  /** An event stands before another only at a lower rank, or at the same rank and not later. */
  lemma GroupRises(group: seq<Event>, i: nat, j: nat)
    requires i < j < |group|
    ensures var a, b := OrderedGroup(group)[i], OrderedGroup(group)[j];
      a.rank <= b.rank && (a.rank == b.rank ==> a.stamp <= b.stamp)
  {
    GroupIsExact(group);
    assert FlowsBefore(OrderedGroup(group)[i], OrderedGroup(group)[j]);
  }

  /** An event of a procedure in its order, but for what the order writes into it. */
  lemma OrderedEvent(group: seq<Event>, i: nat)
    requires i < |group|
    ensures var sorted := StableSort(FlowsBefore, group);
      OrderedGroup(group)[i] == sorted[i].(eff := Some(SentAt(sorted, i)), delay := DelayMs(sorted, i))
  {
  }

  /**
   The time shown for an event is its own; for one queued early it is that of the first event
   that carries such messages, if there is one.
   */
  lemma TimesShown(group: seq<Event>, i: nat, j: nat)
    requires i < |group| && j < |group|
    ensures var og := OrderedGroup(group);
      && (!og[i].queued || (forall h | 0 <= h < |og| :: !og[h].carrier) ==> og[i].eff == Some(og[i].time))
      && (og[i].queued && og[j].carrier && (forall h | 0 <= h < j :: !og[h].carrier) ==> og[i].eff == Some(og[j].time))
  {
    var sorted := StableSort(FlowsBefore, group);
    OrderedEvent(group, i);
    OrderedEvent(group, j);
    var c := Carrier(sorted);
    if c < |sorted| {
      OrderedEvent(group, c);
    }
  }

  /** Its delay is what passed since the time shown above it, or nothing if that is later, in milliseconds. */
  lemma DelaysShown(group: seq<Event>, i: nat)
    requires i < |group|
    ensures var og := OrderedGroup(group);
      && og[i].eff.Some? && (i == 0 ==> og[i].delay.None?)
      && (i > 0 ==>
            og[i - 1].eff.Some?
            && var before, now := og[i - 1].eff.value, og[i].eff.value;
               og[i].delay == Some(if now < before then 0.0 else (now - before) * 1000.0))
  {
    OrderedEvent(group, i);
    if i > 0 { OrderedEvent(group, i - 1); }
  }

  lemma BareConcat(a: seq<Event>, b: seq<Event>)
    ensures BareAll(a + b) == BareAll(a) + BareAll(b)
  {
  }

  lemma {:induction false} FlatKeeps(groups: seq<seq<Event>>)
    ensures multiset(BareAll(Flat(OrderedGroups(groups)))) == multiset(BareAll(Flat(groups)))
  {
    if groups != [] {
      var init, last := groups[..|groups| - 1], groups[|groups| - 1];
      FlatKeeps(init);
      assert OrderedGroups(groups)[..|init|] == OrderedGroups(init);
      GroupIsExact(last);
      BareConcat(Flat(init), last);
      BareConcat(Flat(OrderedGroups(init)), OrderedGroup(last));
    }
  }

  /** The ordered flow is a rearrangement of the log, delays and effective times aside. */
  lemma AttachOrderIsPermutation(events: seq<Event>)
    ensures multiset(BareAll(AttachOrder(events))) == multiset(BareAll(events))
  {
    ProceduresAreExact(events);
    FlatKeeps(Groups(StableSort(Earlier, events)));
    MappedKeeps(Bare, StableSort(Earlier, events), events);
  }

  /** The delays of the first n events of a procedure added up. */
  function TotalDelay(group: seq<Event>, n: nat): real
    requires n <= |group|
  {
    if n <= 1 then 0.0 else TotalDelay(group, n - 1) + DelayMs(group, n - 1).value
  }

  predicate NeverBack(group: seq<Event>, n: nat)
    requires n <= |group|
  {
    forall i | 0 < i < n :: SentAt(group, i - 1) <= SentAt(group, i)
  }

  /**
   The delays shown down a procedure add up to at least the time from its first event to
   the n-th; to exactly that time when no event was sent before the one shown above it,
   and only then.
   */
  lemma {:induction false} DelaysCoverTheSpan(group: seq<Event>, n: nat)
    requires 0 < n <= |group|
    ensures TotalDelay(group, n) >= (SentAt(group, n - 1) - SentAt(group, 0)) * 1000.0
    ensures TotalDelay(group, n) == (SentAt(group, n - 1) - SentAt(group, 0)) * 1000.0 <==> NeverBack(group, n)
  {
    if n > 1 {
      DelaysCoverTheSpan(group, n - 1);
      assert NeverBack(group, n) <==> NeverBack(group, n - 1) && SentAt(group, n - 2) <= SentAt(group, n - 1);
    }
  }

  // ---- the program's loops ----

  method AnnotateDelays(group: seq<Event>) returns (r: seq<Event>)
    ensures r == Annotated(group)
  {
    var effTs: seq<real> := [];
    for i := 0 to |group|
      invariant |effTs| == i && forall j | 0 <= j < i :: effTs[j] == SentAt(group, j)
    {
      var t := group[i].time;
      if group[i].queued && Carrier(group) < |group| {
        t := group[Carrier(group)].time;
      }
      effTs := effTs + [t];
    }
    r := [];
    var prev: Option<real> := None;
    for i := 0 to |group|
      invariant |r| == i
      invariant forall j | 0 <= j < i :: r[j] == group[j].(eff := Some(SentAt(group, j)), delay := DelayMs(group, j))
      invariant prev == if i == 0 then None else Some(SentAt(group, i - 1))
    {
      var delay := if prev.None? then None else Some(Positive(effTs[i] - prev.value) * 1000.0);
      r := r + [group[i].(eff := Some(effTs[i]), delay := delay)];
      prev := Some(effTs[i]);
    }
  }

  method OrderAttachFlow(events: seq<Event>) returns (ordered: seq<Event>)
    ensures ordered == AttachOrder(events)
  {
    var groups := SplitAttachProcedures(events);
    ordered := [];
    for g := 0 to |groups|
      invariant ordered == Flat(OrderedGroups(groups[..g]))
    {
      var sorted := StableSort(FlowsBefore, groups[g]);
      var annotated := AnnotateDelays(sorted);
      assert OrderedGroups(groups[..g + 1]) == OrderedGroups(groups[..g]) + [annotated];
      FlatSnoc(OrderedGroups(groups[..g]), annotated);
      ordered := ordered + annotated;
    }
    assert groups[..|groups|] == groups;
  }
}
