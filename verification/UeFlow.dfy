/**
 The UE side of one RU leg: what it sends, in what order, and that this is the discipline
 the system relies on (poc_StressTest/ue/ue_sim.py _attach, _release and one_session;
 poc_StressTest/common/signaling/procedures.py).
 */
module UeFlow {
  import opened Collections
  import opened RfModel
  import opened Signalling
  import opened Network

  const ATTACH_FLOW := [RrcSetup, SetupComplete, Security, ContextSetup, ReconfigComplete]
  const RELEASE_FLOW := [ReleaseRequest, ReleaseComplete]

  /**
   Where a leg is: which step of a flow it sends next, connected, dropped by a refused
   measurement, or closed by the UE.
   */
  datatype Leg = Attaching(k: nat) | Connected | Dropped | Releasing(k: nat) | Closing

  /**
   The steps the UE may send now. A connected UE may turn to its release at any moment. A
   cancel starts the release flow over when it hits one that is under way, and starts it
   after a refused measurement whose reply the UE had not yet taken.
   */
  predicate MaySend(leg: Leg, step: Step) {
    match leg
    case Attaching(k) => k < |ATTACH_FLOW| && step == ATTACH_FLOW[k]
    case Connected => step == Measurement || step == UserData || step == RELEASE_FLOW[0]
    case Dropped => step == RELEASE_FLOW[0]
    case Releasing(k) => step == RELEASE_FLOW[0] || (k < |RELEASE_FLOW| && step == RELEASE_FLOW[k])
    case Closing => false
  }

  /** After the reply: a refused admission ends the leg. */
  function AfterAnswer(leg: Leg, step: Step, rejected: bool): Leg {
    if step == RELEASE_FLOW[0] then Releasing(1) else
    match leg
    case Attaching(k) =>
      if ActionOf(step) == Admit && rejected then Closing
      else if k + 1 < |ATTACH_FLOW| then Attaching(k + 1) else Connected
    case Connected => if step == Measurement && rejected then Dropped else Connected
    case Dropped => Dropped
    case Releasing(k) => if k + 1 < |RELEASE_FLOW| then Releasing(k + 1) else Closing
    case Closing => Closing
  }

  /** An uplink as the RU forwards it: built for its step, stamped with the cell. */
  function Ask(ue: UeId, cell: CellId, step: Step, radio: Radio, demand: real): Request {
    Request(Known(Signalling.Uplink(step)), Some(step), ue, cell, radio, demand)
  }

  /** The RU's socket for this leg agrees with it on UE, cell and progress. */
  predicate Follows(s: Sock, leg: Leg, ue: UeId, cell: CellId) {
    && !s.closing
    && (s.ue != "" ==> s.ue == ue && s.cell == cell)
    && (leg == Releasing(1) ==> s.answered == Some(ReleaseRequest))
    && leg != Releasing(0)
  }

  /** A site's own cell is stamped unchanged, so a leg that names one cell stays on it. */
  lemma OwnCellIsStamped(sectors: set<CellId>, current: CellId, cell: CellId, best: Option<CellId>)
    requires cell in sectors
    ensures ServingCell(sectors, current, cell, best) == cell
  {
  }

  /** A UE that names a foreign cell, or none, gets the site's strongest sector for where it is, or keeps its last. */
  lemma ForeignCellIsReplaced(sectors: set<CellId>, current: CellId, chosen: CellId, best: Option<CellId>)
    requires chosen !in sectors && (best.Some? ==> best.value in sectors)
    ensures var cell := ServingCell(sectors, current, chosen, best);
      (best.Some? ==> best == Some(cell)) && (best.None? ==> cell == current)
    ensures current in sectors ==> ServingCell(sectors, current, chosen, best) in sectors
  {
  }

  /**
   An answer that cannot be delivered ends the socket like a UE that vanished: the task asks
   the DU to release the UE on the socket's last cell, whatever was answered, and closes once
   that is answered, delivered or not.
   */
  lemma LostAnswerIsReleased(s: Sock, q: Request, last: Request, delivered: bool)
    requires !s.closing && s.ue != ""
    ensures var w := AfterReply(s, q, false);
      && w.closing && w.phase.Calling? && w.ue == s.ue && w.cell == s.cell
      && StepOf(w.phase.q) == Some(ReleaseRequest) && w.phase.q.ue == s.ue && w.phase.q.cell == s.cell
      && AfterReply(w, last, delivered).phase == Closed
  {
    UplinkRoundTrip(ReleaseRequest, Some(ReleaseRequest));
  }

  /** Whatever the leg may send keeps to the discipline that leak freedom relies on. */
  lemma LegIsDisciplined(s: Sock, leg: Leg, ue: UeId, cell: CellId, step: Step, radio: Radio, demand: real)
    requires Follows(s, leg, ue, cell) && ue != "" && MaySend(leg, step)
    ensures Disciplined(s, Ask(ue, cell, step, radio, demand))
  {
    if leg.Attaching? {
      assert ATTACH_FLOW[leg.k] != ReleaseComplete;
    }
  }

  /** The socket once the step was sent and its answer delivered. */
  function Answered(s: Sock, q: Request): Sock {
    AfterReply(s.(ue := q.ue, cell := q.cell, phase := Calling(q)), q, true)
  }

  lemma LegGoesOn(s: Sock, leg: Leg, ue: UeId, cell: CellId, step: Step, radio: Radio, demand: real, rejected: bool)
    requires Follows(s, leg, ue, cell) && MaySend(leg, step)
    ensures Follows(Answered(s, Ask(ue, cell, step, radio, demand)), AfterAnswer(leg, step, rejected), ue, cell)
    ensures Answered(s, Ask(ue, cell, step, radio, demand)).phase
         == (if step == ReleaseComplete then Closed else Reading)
  {
    UplinkRoundTrip(step, Some(step));
  }

  /**
   One exchange of a leg: what the UE sends, which sector is strongest where it is, and
   whether the answer is a refusal.
   */
  datatype Exchange = Exchange(step: Step, radio: Radio, demand: real, best: Option<CellId>, rejected: bool)

  /** The leg can go through these exchanges, in this order. */
  predicate LegRun(leg: Leg, run: seq<Exchange>)
    decreases |run|
  {
    run == [] || (MaySend(leg, run[0].step) && LegRun(AfterAnswer(leg, run[0].step, run[0].rejected), run[1..]))
  }

  /** What the RU forwards for an exchange of a UE that names this cell. */
  function Stamped(sectors: set<CellId>, s: Sock, ue: UeId, cell: CellId, e: Exchange): Request {
    Ask(ue, ServingCell(sectors, s.cell, cell, e.best), e.step, e.radio, e.demand)
  }

  /** Each of these exchanges is one the socket may take in its turn. */
  predicate DisciplinedRun(sectors: set<CellId>, s: Sock, ue: UeId, cell: CellId, run: seq<Exchange>)
    decreases |run|
  {
    run == [] ||
    var q := Stamped(sectors, s, ue, cell, run[0]);
    Disciplined(s, q) && DisciplinedRun(sectors, Answered(s, q), ue, cell, run[1..])
  }

  /**
   From wherever it is, every leg the UE simulator can run on a site's own cell, with any
   answers and wherever the UE moves, is disciplined to its end.
   */
  lemma {:induction false} EveryLegIsDisciplined(
    sectors: set<CellId>, s: Sock, leg: Leg, ue: UeId, cell: CellId, run: seq<Exchange>)
    requires Follows(s, leg, ue, cell) && ue != "" && cell in sectors && LegRun(leg, run)
    ensures DisciplinedRun(sectors, s, ue, cell, run)
    decreases |run|
  {
    if run != [] {
      var e := run[0];
      OwnCellIsStamped(sectors, s.cell, cell, e.best);
      LegIsDisciplined(s, leg, ue, cell, e.step, e.radio, e.demand);
      LegGoesOn(s, leg, ue, cell, e.step, e.radio, e.demand, e.rejected);
      EveryLegIsDisciplined(sectors, Answered(s, Stamped(sectors, s, ue, cell, e)),
                            AfterAnswer(leg, e.step, e.rejected), ue, cell, run[1..]);
    }
  }

  /** A leg from a new socket on. */
  lemma NewLegIsDisciplined(sectors: set<CellId>, ru: RuId, first: CellId, ue: UeId, cell: CellId, run: seq<Exchange>)
    requires ue != "" && cell in sectors && LegRun(Attaching(0), run)
    ensures DisciplinedRun(sectors, Sock(ru, "", first, Reading, false, None), ue, cell, run)
  {
    EveryLegIsDisciplined(sectors, Sock(ru, "", first, Reading, false, None), Attaching(0), ue, cell, run);
  }

  // ---- what a leg looks like from outside ----

  predicate Serviced(e: Exchange) {
    e.step == UserData || (e.step == Measurement && !e.rejected)
  }

  predicate UsesService(e: Exchange) {
    e.step == UserData || e.step == Measurement
  }

  lemma {:induction false} ReleasingNeverUses(leg: Leg, run: seq<Exchange>, i: nat)
    requires leg.Releasing? || leg.Dropped? || leg.Closing?
    requires LegRun(leg, run) && i < |run|
    ensures !UsesService(run[i])
    decreases |run|
  {
    if i > 0 { ReleasingNeverUses(AfterAnswer(leg, run[0].step, run[0].rejected), run[1..], i - 1); }
  }

  lemma {:induction false} ConnectedUses(run: seq<Exchange>, i: nat)
    requires LegRun(Connected, run) && i < |run| && UsesService(run[i])
    ensures forall k | 0 <= k < i :: Serviced(run[k])
    decreases |run|
  {
    if i > 0 {
      var next := AfterAnswer(Connected, run[0].step, run[0].rejected);
      if next != Connected {
        ReleasingNeverUses(next, run[1..], i - 1);
        assert false;
      }
      ConnectedUses(run[1..], i - 1);
      assert forall k | 0 < k < i :: run[k] == run[1..][k - 1];
    }
  }

  lemma {:induction false} AttachesFirst(a: nat, run: seq<Exchange>, i: nat)
    requires a < |ATTACH_FLOW| && LegRun(Attaching(a), run) && i < |run| && UsesService(run[i])
    ensures i >= |ATTACH_FLOW| - a
    ensures forall k | 0 <= k < |ATTACH_FLOW| - a ::
      run[k].step == ATTACH_FLOW[a + k] && !(run[k].step == ContextSetup && run[k].rejected)
    ensures forall k | |ATTACH_FLOW| - a <= k < i :: Serviced(run[k])
    decreases |run|
  {
    var next := AfterAnswer(Attaching(a), run[0].step, run[0].rejected);
    if i > 0 {
      if next == Closing {
        ReleasingNeverUses(next, run[1..], i - 1);
        assert false;
      }
      if a + 1 < |ATTACH_FLOW| {
        AttachesFirst(a + 1, run[1..], i - 1);
      } else {
        ConnectedUses(run[1..], i - 1);
      }
      assert forall k | 0 < k <= i :: run[k] == run[1..][k - 1];
    }
  }

  /**
   A UE measures and sends data only after its whole attach flow, in order, with the setup
   accepted, and only until a release request or a refused measurement.
   */
  lemma ServiceFollowsAttach(run: seq<Exchange>, i: nat)
    requires LegRun(Attaching(0), run) && i < |run| && UsesService(run[i])
    ensures 5 <= i
    ensures run[0].step == RrcSetup && run[1].step == SetupComplete && run[2].step == Security
    ensures run[3].step == ContextSetup && !run[3].rejected && run[4].step == ReconfigComplete
    ensures forall k | 5 <= k < i :: Serviced(run[k])
  {
    AttachesFirst(0, run, i);
    AttachSteps();
  }

  lemma AttachSteps()
    ensures |ATTACH_FLOW| == 5 && ATTACH_FLOW[0] == RrcSetup && ATTACH_FLOW[1] == SetupComplete
    ensures ATTACH_FLOW[2] == Security && ATTACH_FLOW[3] == ContextSetup && ATTACH_FLOW[4] == ReconfigComplete
  {
  }

  /** The final uplink answers a release request, and nothing comes after it. */
  lemma {:induction false} ReleaseEndsTheLeg(leg: Leg, run: seq<Exchange>, i: nat)
    requires LegRun(leg, run) && i < |run| && run[i].step == ReleaseComplete && leg != Releasing(0)
    ensures i == |run| - 1 && (i == 0 ==> leg == Releasing(1)) && (i > 0 ==> run[i - 1].step == ReleaseRequest)
    decreases |run|
  {
    var next := AfterAnswer(leg, run[0].step, run[0].rejected);
    if i > 0 {
      ReleaseEndsTheLeg(next, run[1..], i - 1);
      assert i > 1 ==> run[i - 1] == run[1..][i - 2];
    }
  }
}
