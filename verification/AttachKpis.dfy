/**
 Phase latencies of the latest attach procedure (`compute_attach_kpis` in
 srsTwin/integration/dashboard/parse_4g.py). Durations are exact where the program rounds
 them to a tenth of a millisecond.
 */
module AttachKpis {
  import opened Collections
  import opened Slices
  import opened AttachFlow

  // ---- positive steps and the way they cover ----

  /** The positive steps of a series added up. */
  function Climb(ts: seq<real>): real {
    if |ts| <= 1 then 0.0
    else Climb(ts[..|ts| - 1]) + Positive(ts[|ts| - 1] - ts[|ts| - 2])
  }

  predicate Rising(ts: seq<real>) {
    forall i | 0 < i < |ts| :: ts[i - 1] <= ts[i]
  }

  predicate Falling(ts: seq<real>) {
    forall i | 0 < i < |ts| :: ts[i] <= ts[i - 1]
  }

  lemma {:induction false} ClimbBounds(ts: seq<real>)
    requires ts != []
    ensures Climb(ts) >= ts[|ts| - 1] - ts[0] && (Climb(ts) == ts[|ts| - 1] - ts[0] <==> Rising(ts))
    ensures Climb(ts) >= 0.0 && (Climb(ts) == 0.0 <==> Falling(ts))
  {
    var last := |ts| - 1;
    if last > 0 {
      var init := ts[..last];
      ClimbBounds(init);
      assert Rising(ts) <==> Rising(init) && ts[last - 1] <= ts[last] by {
        assert forall i | 0 <= i < last :: init[i] == ts[i];
      }
      assert Falling(ts) <==> Falling(init) && ts[last] <= ts[last - 1] by {
        assert forall i | 0 <= i < last :: init[i] == ts[i];
      }
    }
  }

  lemma {:induction false} RisingOrder(ts: seq<real>)
    requires ts != []
    ensures Rising(ts) ==> ts[0] <= ts[|ts| - 1]
    ensures Falling(ts) ==> ts[|ts| - 1] <= ts[0]
    ensures Falling(ts) && ts[0] == ts[|ts| - 1] ==> Rising(ts)
  {
    ClimbBounds(ts);
  }

  /** The positive steps cover the way from first to last; exactly when the series only rises or only falls. */
  lemma ClimbIsSpanIff(ts: seq<real>)
    requires ts != []
    ensures Climb(ts) >= Positive(ts[|ts| - 1] - ts[0])
    ensures Climb(ts) == Positive(ts[|ts| - 1] - ts[0]) <==> Rising(ts) || Falling(ts)
  {
    ClimbBounds(ts);
    RisingOrder(ts);
  }

  // ---- the phases of a procedure ----

  function Eff(e: Event): real {
    if e.eff.Some? then e.eff.value else e.time
  }

  /** Each phase with the effective time of its first event, in order of first appearance. */
  function PhaseStarts(events: seq<Event>): seq<(string, real)> {
    if events == [] then []
    else
      var init, last := PhaseStarts(events[..|events| - 1]), events[|events| - 1];
      if exists i :: 0 <= i < |init| && init[i].0 == last.phase then init else init + [(last.phase, Eff(last))]
  }

  function Times(starts: seq<(string, real)>): (r: seq<real>)
    ensures |r| == |starts|
  {
    Mapped((s: (string, real)) => s.1, starts)
  }

  /** The times between which the phases run: their starts, then the end of the attach. */
  function Boundaries(events: seq<Event>): (r: seq<real>)
    requires events != []
    ensures r != []
  {
    Times(PhaseStarts(events)) + [Eff(events[|events| - 1])]
  }

  lemma {:induction false} FirstPhaseFirst(events: seq<Event>)
    requires events != []
    ensures PhaseStarts(events) != [] && PhaseStarts(events)[0] == (events[0].phase, Eff(events[0]))
  {
    if |events| > 1 { FirstPhaseFirst(events[..|events| - 1]); }
  }

  function DurationMs(starts: seq<(string, real)>, end: real, i: nat): real
    requires i < |starts|
  {
    Positive((if i + 1 < |starts| then starts[i + 1].1 else end) - starts[i].1) * 1000.0
  }

  /** The durations of the first k phases added up. */
  function TotalMs(starts: seq<(string, real)>, end: real, k: nat): real
    requires k <= |starts|
  {
    if k == 0 then 0.0 else TotalMs(starts, end, k - 1) + DurationMs(starts, end, k - 1)
  }

  lemma {:induction false} TotalIsClimb(starts: seq<(string, real)>, end: real, k: nat)
    requires k <= |starts|
    ensures TotalMs(starts, end, k) == Climb((Times(starts) + [end])[..k + 1]) * 1000.0
  {
    var ts := Times(starts) + [end];
    if k > 0 {
      TotalIsClimb(starts, end, k - 1);
      assert ts[..k + 1][..k] == ts[..k];
    }
  }

  function AttachMs(attach: seq<Event>): real
    requires attach != []
  {
    Positive(Eff(attach[|attach| - 1]) - Eff(attach[0])) * 1000.0
  }

  /**
   The phase durations add up to at least the attach time; to exactly the attach time when
   the phase boundaries only go forward or only go back, and only then.
   */
  lemma PhasesAddUpIff(attach: seq<Event>)
    requires attach != []
    ensures var starts, end := PhaseStarts(attach), Eff(attach[|attach| - 1]);
      && TotalMs(starts, end, |starts|) >= AttachMs(attach)
      && (TotalMs(starts, end, |starts|) == AttachMs(attach)
          <==> Rising(Boundaries(attach)) || Falling(Boundaries(attach)))
  {
    var starts, end := PhaseStarts(attach), Eff(attach[|attach| - 1]);
    var ts := Boundaries(attach);
    FirstPhaseFirst(attach);
    TotalIsClimb(starts, end, |starts|);
    assert ts[..|starts| + 1] == ts;
    assert ts[0] == Eff(attach[0]) && ts[|ts| - 1] == end;
    ClimbIsSpanIff(ts);
  }

  // ---- the whole report ----

  function Where(events: seq<Event>, keep: Event -> bool): (r: seq<Event>)
    ensures forall e :: e in r <==> e in events && keep(e)
  {
    if events == [] then []
    else
      Snoc(events);
      Where(events[..|events| - 1], keep) + if keep(events[|events| - 1]) then [events[|events| - 1]] else []
  }

  function OrElse(a: seq<Event>, b: seq<Event>): seq<Event> {
    if a == [] then b else a
  }

  /** The events of a named phase; with none, all. */
  function Named(ordered: seq<Event>): seq<Event> {
    OrElse(Where(ordered, (e: Event) => e.rank < DEFAULT_RANK), ordered)
  }

  function AttachEvents(ordered: seq<Event>): seq<Event> {
    OrElse(Where(Named(ordered), (e: Event) => e.phase != "Release"), Named(ordered))
  }

  function ReleaseEvents(ordered: seq<Event>): seq<Event> {
    Where(Named(ordered), (e: Event) => e.phase == "Release")
  }

  datatype Outcome = Rejected | Attached | Released | InProgress

  datatype Kpis = NoKpis | Kpis(
    phases: seq<(string, real)>, attachMs: real, sessionMs: Option<real>, totalMs: real, outcome: Outcome,
    eventCount: nat)

  /** Which events' labels hold the words the outcome is read from. */
  datatype Words = Words(reject: Event -> bool, complete: Event -> bool, release: Event -> bool)

  ghost predicate Shows(events: seq<Event>, f: Event -> bool) {
    exists e :: e in events && f(e)
  }

  /** A reject decides, then a completed attach, then a release. */
  ghost predicate OutcomeIs(o: Outcome, w: Words, ordered: seq<Event>) {
    && (o == Rejected <==> Shows(ordered, w.reject))
    && (o == Attached <==> Shows(ordered, w.complete) && !Shows(ordered, w.reject))
    && (o == Released <==> Shows(ordered, w.release) && !Shows(ordered, w.complete) && !Shows(ordered, w.reject))
  }

  /** `any(...)` over the events' labels */
  method Any(events: seq<Event>, f: Event -> bool) returns (found: bool)
    ensures found <==> Shows(events, f)
  {
    for k := 0 to |events|
      invariant forall i | 0 <= i < k :: !f(events[i])
    {
      if f(events[k]) {
        assert events[k] in events;
        return true;
      }
    }
    found := false;
  }

  method ReadOutcome(w: Words, ordered: seq<Event>) returns (o: Outcome)
    ensures OutcomeIs(o, w, ordered)
  {
    var rejected := Any(ordered, w.reject);
    var completed := Any(ordered, w.complete);
    var released := Any(ordered, w.release);
    o := if rejected then Rejected else if completed then Attached else if released then Released else InProgress;
  }

  function Latest(events: seq<Event>): seq<Event> {
    var groups := Groups(StableSort(Earlier, events));
    if groups == [] then [] else StableSort(FlowsBefore, groups[|groups| - 1])
  }

  lemma AttachEventsAre(ordered: seq<Event>)
    requires ordered != []
    ensures AttachEvents(ordered) != [] && forall e :: e in AttachEvents(ordered) ==> e in ordered
    ensures forall e :: e in Named(ordered) ==> e in AttachEvents(ordered) || e in ReleaseEvents(ordered)
  {
    assert ordered[0] in ordered;
    assert Named(ordered) != [] && Named(ordered)[0] in Named(ordered);
  }

  lemma LatestIsThere(events: seq<Event>)
    ensures Latest(events) == [] <==> events == []
  {
    var s := StableSort(Earlier, events);
    NoEmptySlice(s, Cuts(s));
  }

  method PhaseTable(attach: seq<Event>) returns (order: seq<string>, starts: map<string, real>)
    ensures |order| == |PhaseStarts(attach)|
    ensures forall i | 0 <= i < |order| :: order[i] in starts && PhaseStarts(attach)[i] == (order[i], starts[order[i]])
  {
    order, starts := [], map[];
    for k := 0 to |attach|
      invariant |order| == |PhaseStarts(attach[..k])|
      invariant forall i | 0 <= i < |order| ::
        order[i] in starts && PhaseStarts(attach[..k])[i] == (order[i], starts[order[i]])
      invariant forall p :: p in starts ==> p in order
    {
      assert attach[..k + 1][..k] == attach[..k];
      var phase := attach[k].phase;
      if phase !in starts {
        starts := starts[phase := Eff(attach[k])];
        order := order + [phase];
      }
    }
    assert attach[..|attach|] == attach;
  }

  method Durations(order: seq<string>, starts: map<string, real>, attachEnd: real, ghost first: seq<(string, real)>)
    returns (phases: seq<(string, real)>)
    requires |order| == |first|
    requires forall i | 0 <= i < |order| :: order[i] in starts && first[i] == (order[i], starts[order[i]])
    ensures |phases| == |first|
    ensures forall i | 0 <= i < |first| :: phases[i] == (first[i].0, DurationMs(first, attachEnd, i))
  {
    phases := [];
    for i := 0 to |order|
      invariant |phases| == i
      invariant forall j | 0 <= j < i :: phases[j] == (first[j].0, DurationMs(first, attachEnd, j))
    {
      var start := starts[order[i]];
      var end := if i + 1 < |order| then starts[order[i + 1]] else attachEnd;
      phases := phases + [(order[i], Positive(end - start) * 1000.0)];
    }
  }

  /** The per-phase durations, in order. */
  method PhaseDurations(attach: seq<Event>) returns (phases: seq<(string, real)>)
    requires attach != []
    ensures |phases| == |PhaseStarts(attach)|
    ensures forall i | 0 <= i < |PhaseStarts(attach)| ::
      phases[i] == (PhaseStarts(attach)[i].0, DurationMs(PhaseStarts(attach), Eff(attach[|attach| - 1]), i))
  {
    var order, starts := PhaseTable(attach);
    phases := Durations(order, starts, Eff(attach[|attach| - 1]), PhaseStarts(attach));
  }

  /** `max(eff(e) for e in ordered)` */
  method LatestTime(ordered: seq<Event>) returns (t: real)
    requires ordered != []
    ensures exists e :: e in ordered && Eff(e) == t
    ensures forall e :: e in ordered ==> Eff(e) <= t
  {
    t := Eff(ordered[0]);
    for k := 1 to |ordered|
      invariant exists e :: e in ordered && Eff(e) == t
      invariant forall i | 0 <= i < k :: Eff(ordered[i]) <= t
    {
      t := MaxReal(t, Eff(ordered[k]));
    }
  }

  /** One duration for every phase of the attach, then the release; the attach time within the total; the outcome. */
  ghost predicate Reports(r: Kpis, w: Words, attach: seq<Event>, release: seq<Event>, ordered: seq<Event>) {
    && r.Kpis? && attach != [] && r.eventCount == |ordered| && OutcomeIs(r.outcome, w, ordered)
    && r.attachMs == AttachMs(attach) <= r.totalMs
    && (exists e :: e in ordered && r.totalMs == Positive(Eff(e) - Eff(attach[0])) * 1000.0)
    && (forall e :: e in ordered ==> Positive(Eff(e) - Eff(attach[0])) * 1000.0 <= r.totalMs)
    && PhasesReported(r.phases, attach, release)
    && r.sessionMs == if release == [] then None
                      else Some(Positive(Eff(release[0]) - Eff(attach[|attach| - 1])) * 1000.0)
  }

  ghost predicate PhasesReported(phases: seq<(string, real)>, attach: seq<Event>, release: seq<Event>)
    requires attach != []
  {
    var starts := PhaseStarts(attach);
    && |phases| == |starts| + (if release == [] then 0 else 1)
    && (forall i | 0 <= i < |starts| ::
          phases[i] == (starts[i].0, DurationMs(starts, Eff(attach[|attach| - 1]), i)))
    && (release != [] ==>
         phases[|starts|] == ("Release", Positive(Eff(release[|release| - 1]) - Eff(release[0])) * 1000.0))
  }

  method AllPhases(attach: seq<Event>, release: seq<Event>) returns (phases: seq<(string, real)>)
    requires attach != []
    ensures PhasesReported(phases, attach, release)
  {
    phases := PhaseDurations(attach);
    if |release| > 0 {
      phases := phases + [("Release", Positive(Eff(release[|release| - 1]) - Eff(release[0])) * 1000.0)];
    }
  }

  method Report(w: Words, attach: seq<Event>, release: seq<Event>, ordered: seq<Event>) returns (r: Kpis)
    requires attach != [] && forall e :: e in attach ==> e in ordered
    ensures Reports(r, w, attach, release, ordered)
  {
    var t0, attachEnd := Eff(attach[0]), Eff(attach[|attach| - 1]);
    assert attach[0] in attach && attach[|attach| - 1] in attach;
    var tMax := LatestTime(ordered);
    var totalMs := Positive(tMax - t0) * 1000.0;
    assert AttachMs(attach) <= totalMs;
    var sessionMs := None;
    if |release| > 0 {
      sessionMs := Some(Positive(Eff(release[0]) - attachEnd) * 1000.0);
    }
    var phases := AllPhases(attach, release);
    var outcome := ReadOutcome(w, ordered);
    r := Kpis(phases, AttachMs(attach), sessionMs, totalMs, outcome, |ordered|);
  }

  /** The report of the latest procedure; none without events. */
  method ComputeAttachKpis(w: Words, events: seq<Event>) returns (r: Kpis)
    ensures events == [] ==> r == NoKpis
    ensures events != [] ==>
      Reports(r, w, AttachEvents(Latest(events)), ReleaseEvents(Latest(events)), Latest(events))
  {
    LatestIsThere(events);
    var groups := SplitAttachProcedures(events);
    if |groups| == 0 {
      return NoKpis;
    }
    var ordered := StableSort(FlowsBefore, groups[|groups| - 1]);
    AttachEventsAre(ordered);
    r := Report(w, AttachEvents(ordered), ReleaseEvents(ordered), ordered);
  }

  // ---- which events the report is about ----

  /** An event that counts: one of a named phase, or any if there is none of a named phase. */
  ghost predicate Counts(ordered: seq<Event>, e: Event) {
    e in ordered && (e.rank < 8000 || forall x :: x in ordered ==> x.rank >= 8000)
  }

  /**
   The attach is timed over the events that count and are not of the release, or over all
   that count if the release is all there is; the release over those of the release.
   */
  lemma WhatIsTimed(ordered: seq<Event>, e: Event)
    ensures e in ReleaseEvents(ordered) <==> Counts(ordered, e) && e.phase == "Release"
    ensures e in AttachEvents(ordered)
       <==> Counts(ordered, e) && (e.phase != "Release" || forall x :: Counts(ordered, x) ==> x.phase == "Release")
  {
    NamedCount(ordered);
    var named := Named(ordered);
    var attach := Where(named, (x: Event) => x.phase != "Release");
    if attach == [] {
      forall x | x in named ensures x.phase == "Release" {
        assert x in attach <==> x in named && x.phase != "Release";
      }
    } else {
      assert attach[0] in attach;
    }
  }

  lemma NamedCount(ordered: seq<Event>)
    ensures forall e :: e in Named(ordered) <==> Counts(ordered, e)
  {
    var named := Where(ordered, (e: Event) => e.rank < DEFAULT_RANK);
    if named == [] {
      forall x | x in ordered ensures x.rank >= 8000 {
        assert x in named <==> x in ordered && x.rank < DEFAULT_RANK;
      }
    } else {
      assert named[0] in named;
    }
  }

  /** Picking events keeps their order. */
  lemma {:induction false} WhereKeepsOrder(a: seq<Event>, b: seq<Event>, keep: Event -> bool)
    ensures Where(a + b, keep) == Where(a, keep) + Where(b, keep)
  {
    if b == [] {
      assert a + b == a;
    } else {
      assert (a + b)[..|a + b| - 1] == a + b[..|b| - 1];
      WhereKeepsOrder(a, b[..|b| - 1], keep);
    }
  }

  lemma {:induction false} LastSliceIsRest<T>(groups: seq<seq<T>>)
    requires groups != []
    ensures Offset(groups, |groups| - 1) <= |Flat(groups)|
    ensures groups[|groups| - 1] == Flat(groups)[Offset(groups, |groups| - 1)..]
  {
  }

  lemma LastSliceStartsLast<T>(groups: seq<seq<T>>, k: nat)
    requires groups != [] && StartsSlice(groups, k)
    ensures k <= Offset(groups, |groups| - 1)
  {
    var g :| 0 <= g < |groups| && Offset(groups, g) == k;
    if g < |groups| - 1 {
      assert groups[..|groups| - 1][..g] == groups[..g];
      FlatRises(groups[..|groups| - 1], g);
    }
  }

  lemma {:induction false} FlatRises<T>(groups: seq<seq<T>>, g: nat)
    requires g <= |groups|
    ensures |Flat(groups[..g])| <= |Flat(groups)|
    decreases |groups|
  {
    if g < |groups| {
      assert groups[..|groups| - 1][..g] == groups[..g];
      FlatRises(groups[..|groups| - 1], g);
    } else {
      assert groups[..g] == groups;
    }
  }

  /** The report is about everything from the last place on where a procedure opens. */
  lemma LatestIsLastProcedure(events: seq<Event>)
    requires events != []
    ensures var s := StableSort(Earlier, events);
      exists k: nat :: k < |s| && (k == 0 || OpensProcedure(s, k))
        && (forall j: nat | k < j < |s| :: !OpensProcedure(s, j))
        && multiset(Latest(events)) == multiset(s[k..])
  {
    var s, groups := StableSort(Earlier, events), Groups(StableSort(Earlier, events));
    ProceduresAreExact(events);
    var k := Offset(groups, |groups| - 1);
    LastSliceIsRest(groups);
    assert StartsSlice(groups, k);
    assert groups[|groups| - 1] != [];
    forall j: nat | k < j < |s| ensures !OpensProcedure(s, j) {
      if StartsSlice(groups, j) { LastSliceStartsLast(groups, j); }
    }
    Orders();
    StableSortLaws(FlowsBefore, groups[|groups| - 1]);
  }

  /** Once the flow is ordered every event has the time that is shown for it, and the report goes by that. */
  lemma ShownTimesCount(group: seq<Event>, i: nat)
    requires i < |group|
    ensures OrderedGroup(group)[i].eff == Some(Eff(OrderedGroup(group)[i]))
    ensures Eff(group[i]) != group[i].time ==> group[i].eff.Some?
  {
  }
}
