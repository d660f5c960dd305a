/**
 The single-UE call-flow recorder behind the dashboard's ladder
 (poc_StressTest/du/du_server.py, _trace_record and its two calls in serve_f1).
 */
module LadderTrace {
  import opened Collections
  import opened Signalling
  import opened Du

  datatype Direction = Up | Down

  datatype Entry = Entry(dir: Direction, ue: UeId, step: Option<Step>, reject: bool)

  /** `reset` is set by the HTTP thread at any moment and honoured at the next message. */
  datatype Trace = Trace(ue: Option<UeId>, events: seq<Entry>, complete: bool, reset: bool)

  const Blank := Trace(None, [], false, false)

  function OfRequest(q: Request): Entry {
    Entry(Up, q.ue, StepOf(q), q.name == Known(ConnectionReject))
  }

  function OfReply(p: Reply): Entry {
    Entry(Down, p.ue, Classify(Known(p.logical), p.sidecar), IsReject(p))
  }

  /** `_trace_record` */
  function Record(t0: Trace, e: Entry, max: int): Trace {
    var t := if t0.reset then Blank else t0;
    if t.complete || e.ue == "" then t
    else if t.ue.None? && !(e.dir == Up && e.step == Some(RrcSetup)) then t
    else
      var locked := if t.ue.None? then Trace(Some(e.ue), [], false, false) else t;
      if locked.ue != Some(e.ue) || |locked.events| >= max then locked
      else if e.dir == Down && e.reject then locked.(ue := None, events := [])
      else locked.(events := locked.events + [e],
                   complete := e.dir == Down && e.step == Some(ReleaseComplete))
  }

  /** The recorder's fields, updated in place. */
  class Recorder {
    var ue: Option<UeId>
    var events: seq<Entry>
    var complete: bool
    var reset: bool
    const max: int

    ghost function View(): Trace
      reads this
    {
      Trace(ue, events, complete, reset)
    }

    constructor (max: int)
      ensures View() == Blank && this.max == max
    {
      ue, events, complete, reset := None, [], false, false;
      this.max := max;
    }

    method RequestReset()
      modifies this`reset
      ensures reset
    {
      reset := true;
    }

    method TraceRecord(e: Entry)
      modifies this
      ensures View() == Record(old(View()), e, max)
    {
      if reset {
        ue, events, complete, reset := None, [], false, false;
      }
      if complete || e.ue == "" {
        return;
      }
      if ue.None? {
        if e.dir == Up && e.step == Some(RrcSetup) {
          ue, events := Some(e.ue), [];
        } else {
          return;
        }
      }
      if ue != Some(e.ue) || |events| >= max {
        return;
      }
      events := events + [e];
      if e.dir == Down && e.reject {
        ue, events := None, [];
        return;
      }
      if e.dir == Down && e.step == Some(ReleaseComplete) {
        complete := true;
      }
    }
  }

  // ---- runs ----

  /**
   One turn of serve_f1 with the DU in some state; the HTTP thread may ask for a reset
   before and between its two records.
   */
  datatype Turn = Turn(q: Request, cells: Cells, resetBefore: bool, resetBetween: bool)

  function AfterUp(t: Trace, turn: Turn, max: int): Trace {
    Record(t.(reset := t.reset || turn.resetBefore), OfRequest(turn.q), max)
  }

  function AfterTurn(cfg: Config, t: Trace, turn: Turn, max: int): Trace
    requires cfg.Valid()
  {
    var up := AfterUp(t, turn, max);
    Record(up.(reset := up.reset || turn.resetBetween), OfReply(Dispatch(cfg, turn.cells, turn.q).1), max)
  }

  function AfterTurns(cfg: Config, t: Trace, turns: seq<Turn>, max: int): Trace
    requires cfg.Valid()
  {
    if turns == [] then t else AfterTurn(cfg, AfterTurns(cfg, t, turns[..|turns|-1], max), turns[|turns|-1], max)
  }

  /** Uplinks and downlinks alternate, and each downlink answers the step before it without rejecting it. */
  ghost predicate Paired(events: seq<Entry>) {
    && (forall i | 0 <= i < |events| && i % 2 == 0 :: events[i].dir == Up)
    && (forall i | 0 <= i < |events| && i % 2 == 1 ::
          events[i].dir == Down && !events[i].reject && events[i].step == events[i - 1].step)
  }

  /** What the dashboard may rely on. */
  ghost predicate Sound(t: Trace, max: int) {
    && (t.ue.None? ==> t.events == [] && !t.complete)
    && (t.ue.Some? && max > 0 ==> t.events != [])
    && (forall i | 0 <= i < |t.events| :: Some(t.events[i].ue) == t.ue)
    && (t.events != [] ==> t.events[0] == Entry(Up, t.ue.value, Some(RrcSetup), t.events[0].reject))
    && Paired(t.events)
    && (t.events != [] ==> |t.events| <= max)
    && (t.complete ==> |t.events| >= 2 && |t.events| % 2 == 0
                       && t.events[|t.events| - 1].step == Some(ReleaseComplete))
  }

  /** Between turns the last uplink has its answer, unless the ladder is full. */
  ghost predicate Settled(t: Trace, max: int) {
    Sound(t, max) && (|t.events| % 2 == 0 || |t.events| >= max)
  }

  lemma PairedExtend(events: seq<Entry>, e: Entry)
    requires Paired(events)
    requires if |events| % 2 == 0 then e.dir == Up
             else e.dir == Down && !e.reject && e.step == events[|events| - 1].step
    ensures Paired(events + [e])
  {
  }

  /** The trace between the two records of one turn, u being the uplink just seen. */
  ghost predicate Awaits(up: Trace, u: Entry, max: int) {
    && Sound(up, max)
    && (up.complete || |up.events| >= max || up.ue != Some(u.ue) || u.ue == "" ||
          (|up.events| % 2 == 1 && up.events[|up.events| - 1] == u))
    && (|up.events| % 2 == 0 || |up.events| >= max || (up.ue == Some(u.ue) && u.ue != ""))
  }

  /** An uplink recorded on a settled trace. */
  lemma RecordAwaits(base: Trace, e: Entry, max: int)
    requires Settled(base, max) && !base.reset && e.dir == Up
    ensures Awaits(Record(base, e, max), e, max) && !Record(base, e, max).reset
  {
    if !base.complete && |base.events| % 2 == 0 {
      PairedExtend(base.events, e);
    }
  }

  lemma UpAwaits(t: Trace, turn: Turn, max: int)
    requires Settled(t, max)
    ensures Awaits(AfterUp(t, turn, max), OfRequest(turn.q), max) && !AfterUp(t, turn, max).reset
  {
    var base := if t.reset || turn.resetBefore then Blank else t;
    assert Settled(base, max);
    RecordAwaits(base, OfRequest(turn.q), max);
    assert AfterUp(t, turn, max) == Record(base, OfRequest(turn.q), max);
  }

  lemma DownSettles(up: Trace, u: Entry, d: Entry, max: int)
    requires Awaits(up, u, max) && d.dir == Down && d.ue == u.ue && d.step == u.step
    ensures Settled(Record(up, d, max), max)
  {
    if !up.reset && !up.complete && |up.events| < max && up.ue == Some(u.ue) && u.ue != "" && !d.reject {
      PairedExtend(up.events, d);
    }
  }

  lemma DownAnswersUp(cfg: Config, cells: Cells, q: Request)
    requires cfg.Valid()
    ensures var d := OfReply(Dispatch(cfg, cells, q).1);
      d.dir == Down && d.ue == q.ue && d.step == StepOf(q)
  {
    match StepOf(q)
    case None =>
    case Some(s) =>
      DownlinkRoundTrip(s, Downlink(s));
      DownlinkRoundTrip(s, ConnectionReject);
  }

  lemma TurnKeepsSettled(cfg: Config, t: Trace, turn: Turn, max: int)
    requires cfg.Valid() && Settled(t, max)
    ensures Settled(AfterTurn(cfg, t, turn, max), max)
  {
    var up := AfterUp(t, turn, max);
    UpAwaits(t, turn, max);
    DownAnswersUp(cfg, turn.cells, turn.q);
    DownSettles(up.(reset := up.reset || turn.resetBetween), OfRequest(turn.q),
                OfReply(Dispatch(cfg, turn.cells, turn.q).1), max);
  }

  /**
   What one undisturbed turn records: both messages of the traced UE, nothing of any other,
   and a rejection unlocks.
   */
  lemma TurnRecords(cfg: Config, t: Trace, turn: Turn, max: int)
    requires cfg.Valid() && Settled(t, max) && !t.reset && !turn.resetBefore && !turn.resetBetween
    requires !t.complete && |t.events| + 2 <= max && turn.q.ue != ""
    ensures var reply := Dispatch(cfg, turn.cells, turn.q).1;
      var t' := AfterTurn(cfg, t, turn, max);
      if t.ue == Some(turn.q.ue) || (t.ue.None? && StepOf(turn.q) == Some(RrcSetup)) then
        if IsReject(reply) then t' == Blank
        else t' == Trace(Some(turn.q.ue), t.events + [OfRequest(turn.q), OfReply(reply)],
                         StepOf(turn.q) == Some(ReleaseComplete), false)
      else t' == t
  {
    var up := AfterUp(t, turn, max);
    DownAnswersUp(cfg, turn.cells, turn.q);
    var d := OfReply(Dispatch(cfg, turn.cells, turn.q).1);
    assert t.events + [OfRequest(turn.q)] + [d] == t.events + [OfRequest(turn.q), d];
  }

  /**
   In every run, with resets at any moment, the recorded ladder is one UE's, starts with
   its connection request and pairs up.
   */
  lemma {:induction false} EveryLadderIsSound(cfg: Config, turns: seq<Turn>, max: int)
    requires cfg.Valid()
    ensures Settled(AfterTurns(cfg, Blank, turns, max), max)
  {
    if turns != [] {
      EveryLadderIsSound(cfg, turns[..|turns|-1], max);
      TurnKeepsSettled(cfg, AfterTurns(cfg, Blank, turns[..|turns|-1], max), turns[|turns|-1], max);
    }
  }

  /** A completed ladder changes only after a reset. */
  lemma {:induction false} CompleteIsFrozen(cfg: Config, t: Trace, turns: seq<Turn>, max: int)
    requires cfg.Valid() && t.complete && !t.reset
    requires forall i | 0 <= i < |turns| :: !turns[i].resetBefore && !turns[i].resetBetween
    ensures AfterTurns(cfg, t, turns, max) == t
  {
    if turns != [] {
      CompleteIsFrozen(cfg, t, turns[..|turns|-1], max);
    }
  }
}
