/**
 The DU's admission handlers over the per-cell PRB pools, as functions on values
 (poc_StressTest/du/du_server.py, handle_setup to dispatch). DuServer.dfy runs the same
 handlers on objects updated in place and proves that they compute these functions.
 */
module Du {
  import opened Collections
  import opened RfModel
  import opened Signalling

  datatype Config = Config(totalPrbs: nat, scsKhz: nat, profile: Profile) {
    ghost predicate Valid() { scsKhz > 0 }
  }

  datatype Session = Session(prbs: int, demand: real, perPrb: real, congested: bool)

  datatype CellState = CellState(
    total: nat, used: int, sessions: map<UeId, Session>, admitted: nat, rejected: nat, released: nat)

  type Cells = map<CellId, CellState>

  // ---- handlers ----

  function Fresh(cfg: Config): CellState {
    CellState(cfg.totalPrbs, 0, map[], 0, 0, 0)
  }

  /** `_cell`: the cell, brought up empty when it is seen for the first time. */
  function BringUp(cfg: Config, cells: Cells, c: CellId): (r: Cells)
    ensures c in r
  {
    if c in cells then cells else cells[c := Fresh(cfg)]
  }

  function Drop(cell: CellState, ue: UeId): CellState {
    if ue in cell.sessions then
      cell.(used := cell.used - cell.sessions[ue].prbs,
            sessions := cell.sessions - {ue},
            released := cell.released + 1)
    else cell
  }

  function ReleaseUe(cells: Cells, ue: UeId, c: CellId): Cells {
    if c in cells then cells[c := Drop(cells[c], ue)] else cells
  }

  function ReleaseOthers(cells: Cells, ue: UeId, keep: CellId): Cells {
    map c | c in cells :: if c == keep then cells[c] else Drop(cells[c], ue)
  }

  function Place(cell: CellState, ue: UeId, s: Session): CellState {
    cell.(used := cell.used + s.prbs, sessions := cell.sessions[ue := s], admitted := cell.admitted + 1)
  }

  function Refuse(cell: CellState): CellState {
    cell.(rejected := cell.rejected + 1)
  }

  function Rejection(q: Request, step: Option<Step>, why: Cause): Reply {
    Reply(ConnectionReject, step, q.ue, q.cell, Refused(why))
  }

  /** The pools as handle_setup finds them once the UE's older sessions are gone. */
  function Cleared(cfg: Config, cells: Cells, q: Request): (r: Cells)
    ensures q.cell in r
  {
    ReleaseUe(ReleaseOthers(BringUp(cfg, cells, q.cell), q.ue, q.cell), q.ue, q.cell)
  }

  /** Admission control on cleared pools. */
  function Decide(cfg: Config, cleared: Cells, q: Request, step: Step): (Cells, Reply)
    requires cfg.Valid() && q.cell in cleared
  {
    var cell := cleared[q.cell];
    var required := PrbsForTraffic(q.demand, q.radio, cfg.scsKhz, cfg.profile);
    if required.None? then
      (cleared[q.cell := Refuse(cell)], Rejection(q, Some(step), NoCoverage))
    else if required.value > cell.total - cell.used then
      (cleared[q.cell := Refuse(cell)], Rejection(q, Some(step), InsufficientPrb))
    else
      var s := Session(required.value, q.demand, PerPrbMbps(q.radio.se, cfg.scsKhz), false);
      (cleared[q.cell := Place(cell, q.ue, s)],
       Reply(InitialContextSetupRequest, Some(step), q.ue, q.cell, Granted(required.value, false)))
  }

  function HandleSetup(cfg: Config, cells: Cells, q: Request, step: Step): (Cells, Reply)
    requires cfg.Valid()
  {
    Decide(cfg, Cleared(cfg, cells, q), q, step)
  }

  function Regranted(cell: CellState, ue: UeId, s: Session): CellState
    requires ue in cell.sessions
  {
    cell.(used := cell.used + (s.prbs - cell.sessions[ue].prbs), sessions := cell.sessions[ue := s])
  }

  /** The grant after a measurement: what is needed if it fits, else all that is free. */
  function NewGrant(cfg: Config, held: int, required: int, free: int): int {
    var want := if required > held then held + Min(required - held, free) else required;
    if cfg.profile == Voip then Min(want, VOIP_MAX_PRBS) else want
  }

  /** Re-evaluate the sender's grant on a cell that is up. */
  function Remeasure(cfg: Config, up: Cells, q: Request, step: Step): (Cells, Reply)
    requires cfg.Valid() && q.cell in up
  {
    var cell := up[q.cell];
    if q.ue !in cell.sessions then (up, Rejection(q, Some(step), UnknownUe)) else
    var s := cell.sessions[q.ue];
    var required := PrbsForTraffic(s.demand, q.radio, cfg.scsKhz, cfg.profile);
    if required.None? then (up[q.cell := Drop(cell, q.ue)], Rejection(q, Some(step), LostCoverage)) else
    var free := cell.total - cell.used;
    var congested := required.value > s.prbs && free < required.value - s.prbs;
    var prbs := NewGrant(cfg, s.prbs, required.value, free);
    var s' := Session(prbs, s.demand, PerPrbMbps(q.radio.se, cfg.scsKhz), congested);
    (up[q.cell := Regranted(cell, q.ue, s')],
     Reply(Reconfiguration, Some(step), q.ue, q.cell, Granted(prbs, congested)))
  }

  function HandleMeasurement(cfg: Config, cells: Cells, q: Request, step: Step): (Cells, Reply)
    requires cfg.Valid()
  {
    Remeasure(cfg, BringUp(cfg, cells, q.cell), q, step)
  }

  function Achievable(s: Session): real {
    s.prbs as real * s.perPrb
  }

  function HandleData(cfg: Config, cells: Cells, q: Request, step: Step): (Cells, Reply) {
    var up := BringUp(cfg, cells, q.cell);
    if q.ue !in up[q.cell].sessions then (up, Rejection(q, Some(step), UnknownUe)) else
    var s := up[q.cell].sessions[q.ue];
    (up, Reply(DataAck, Some(step), q.ue, q.cell, Carried(Achievable(s), s.demand)))
  }

  function HandleRelease(cfg: Config, cells: Cells, q: Request, step: Step): (Cells, Reply) {
    (ReleaseUe(BringUp(cfg, cells, q.cell), q.ue, q.cell),
     Reply(ContextReleaseCommand, Some(step), q.ue, q.cell, Plain))
  }

  function Dispatch(cfg: Config, cells: Cells, q: Request): (Cells, Reply)
    requires cfg.Valid()
  {
    match StepOf(q)
    case None => (cells, Rejection(q, None, BadMessage))
    case Some(s) =>
      match ActionOf(s)
      case Admit => HandleSetup(cfg, cells, q, s)
      case Reconfig => HandleMeasurement(cfg, cells, q, s)
      case Release => HandleRelease(cfg, cells, q, s)
      case Nothing =>
        if s == UserData then HandleData(cfg, cells, q, s)
        else (cells, Reply(Downlink(s), Some(s), q.ue, q.cell, Plain))
  }

  // ---- what the pools promise ----

  /** The PRBs granted to these UEs, added up. */
  ghost function GrantsOf(ues: set<UeId>, sessions: map<UeId, Session>): int
    requires ues <= sessions.Keys
  {
    if ues == {} then 0
    else var ue :| ue in ues; sessions[ue].prbs + GrantsOf(ues - {ue}, sessions)
  }

  /** The PRBs a cell has granted, added up over its sessions. */
  ghost function TotalGrant(sessions: map<UeId, Session>): int {
    GrantsOf(sessions.Keys, sessions)
  }

  ghost predicate GrantOk(cfg: Config, s: Session) {
    1 <= s.prbs && (cfg.profile != Data ==> s.prbs <= VOIP_MAX_PRBS)
  }

  /** Conservation on one cell: grants add up to `used`, within the pool, and every admission is accounted for. */
  ghost predicate CellOk(cfg: Config, cell: CellState) {
    && cell.total == cfg.totalPrbs
    && cell.used == TotalGrant(cell.sessions)
    && 0 <= cell.used <= cell.total
    && (forall ue | ue in cell.sessions :: GrantOk(cfg, cell.sessions[ue]))
    && cell.admitted == cell.released + |cell.sessions|
  }

  ghost predicate CellsOk(cfg: Config, cells: Cells) {
    forall c | c in cells :: CellOk(cfg, cells[c])
  }

  predicate Holds(cells: Cells, ue: UeId, c: CellId) {
    c in cells && ue in cells[c].sessions
  }

  /** No UE holds PRBs on two cells. */
  ghost predicate OneCellPerUe(cells: Cells) {
    forall ue, c, d | Holds(cells, ue, c) && Holds(cells, ue, d) :: c == d
  }

  lemma {:induction false} GrantsOfWithout(ues: set<UeId>, sessions: map<UeId, Session>, ue: UeId)
    requires ue in ues && ues <= sessions.Keys
    ensures GrantsOf(ues, sessions) == sessions[ue].prbs + GrantsOf(ues - {ue}, sessions)
  {
    var first :| first in ues && GrantsOf(ues, sessions) == sessions[first].prbs + GrantsOf(ues - {first}, sessions);
    if first != ue {
      GrantsOfWithout(ues - {first}, sessions, ue);
      GrantsOfWithout(ues - {ue}, sessions, first);
      assert ues - {first} - {ue} == ues - {ue} - {first};
    }
  }

  lemma {:induction false} GrantsOfAgree(ues: set<UeId>, a: map<UeId, Session>, b: map<UeId, Session>)
    requires ues <= a.Keys && ues <= b.Keys
    requires forall ue | ue in ues :: a[ue] == b[ue]
    ensures GrantsOf(ues, a) == GrantsOf(ues, b)
  {
    if ues != {} {
      var ue :| ue in ues;
      GrantsOfWithout(ues, a, ue);
      GrantsOfWithout(ues, b, ue);
      GrantsOfAgree(ues - {ue}, a, b);
    }
  }

  lemma GrantedWithout(sessions: map<UeId, Session>, ue: UeId)
    requires ue in sessions
    ensures TotalGrant(sessions) == sessions[ue].prbs + TotalGrant(sessions - {ue})
    ensures |sessions - {ue}| == |sessions| - 1
  {
    var rest := sessions - {ue};
    assert rest.Keys == sessions.Keys - {ue};
    GrantsOfWithout(sessions.Keys, sessions, ue);
    GrantsOfAgree(rest.Keys, sessions, rest);
  }

  lemma GrantedWith(sessions: map<UeId, Session>, ue: UeId, s: Session)
    requires ue !in sessions
    ensures TotalGrant(sessions[ue := s]) == TotalGrant(sessions) + s.prbs
    ensures |sessions[ue := s]| == |sessions| + 1
  {
    var more := sessions[ue := s];
    assert more.Keys - {ue} == sessions.Keys;
    GrantsOfWithout(more.Keys, more, ue);
    GrantsOfAgree(sessions.Keys, sessions, more);
  }

  /** Grants are at least 1, so a cell's total bounds both its head count and any one grant. */
  lemma {:induction false} GrantsBound(cfg: Config, ues: set<UeId>, sessions: map<UeId, Session>)
    requires ues <= sessions.Keys && forall ue | ue in ues :: GrantOk(cfg, sessions[ue])
    ensures GrantsOf(ues, sessions) >= |ues|
    ensures forall ue | ue in ues :: sessions[ue].prbs <= GrantsOf(ues, sessions)
  {
    forall ue | ue in ues ensures sessions[ue].prbs <= GrantsOf(ues, sessions) && GrantsOf(ues, sessions) >= |ues| {
      GrantsOfWithout(ues, sessions, ue);
      GrantsBound(cfg, ues - {ue}, sessions);
    }
    if ues != {} {
      var ue :| ue in ues;
      assert GrantsOf(ues, sessions) >= |ues|;
    }
  }

  lemma DropKeepsOk(cfg: Config, cell: CellState, ue: UeId)
    requires CellOk(cfg, cell)
    ensures CellOk(cfg, Drop(cell, ue))
    ensures ue !in Drop(cell, ue).sessions
  {
    if ue in cell.sessions {
      var rest := cell.sessions - {ue};
      GrantedWithout(cell.sessions, ue);
      GrantsBound(cfg, rest.Keys, rest);
    }
  }

  lemma BringUpKeepsOk(cfg: Config, cells: Cells, c: CellId)
    requires CellsOk(cfg, cells)
    ensures CellsOk(cfg, BringUp(cfg, cells, c))
  {
  }

  /** Releasing elsewhere and then here is one drop on every cell. */
  lemma ClearedDropsEverywhere(cfg: Config, cells: Cells, q: Request)
    ensures var up := BringUp(cfg, cells, q.cell);
      Cleared(cfg, cells, q) == map c | c in up :: Drop(up[c], q.ue)
  {
  }

  lemma ClearedKeepsOk(cfg: Config, cells: Cells, q: Request)
    requires CellsOk(cfg, cells)
    ensures CellsOk(cfg, Cleared(cfg, cells, q))
    ensures forall c | c in Cleared(cfg, cells, q) :: q.ue !in Cleared(cfg, cells, q)[c].sessions
  {
    var up := BringUp(cfg, cells, q.cell);
    BringUpKeepsOk(cfg, cells, q.cell);
    var cleared := Cleared(cfg, cells, q);
    ClearedDropsEverywhere(cfg, cells, q);
    forall c | c in cleared ensures CellOk(cfg, cleared[c]) && q.ue !in cleared[c].sessions {
      assert CellOk(cfg, up[c]);
      DropKeepsOk(cfg, up[c], q.ue);
    }
  }

  lemma PlaceKeepsOk(cfg: Config, cell: CellState, ue: UeId, s: Session)
    requires CellOk(cfg, cell) && ue !in cell.sessions && GrantOk(cfg, s)
    requires s.prbs <= cell.total - cell.used
    ensures CellOk(cfg, Place(cell, ue, s))
  {
    GrantedWith(cell.sessions, ue, s);
  }

  lemma UpdateKeepsOk(cfg: Config, cells: Cells, c: CellId, cell: CellState)
    requires CellsOk(cfg, cells) && CellOk(cfg, cell)
    ensures CellsOk(cfg, cells[c := cell])
  {
  }

  lemma SetupKeepsOk(cfg: Config, cells: Cells, q: Request, step: Step)
    requires cfg.Valid() && CellsOk(cfg, cells)
    ensures CellsOk(cfg, HandleSetup(cfg, cells, q, step).0)
  {
    var cleared := Cleared(cfg, cells, q);
    ClearedKeepsOk(cfg, cells, q);
    var cell := cleared[q.cell];
    assert CellOk(cfg, cell);
    var required := PrbsForTraffic(q.demand, q.radio, cfg.scsKhz, cfg.profile);
    if required.Some? && required.value <= cell.total - cell.used {
      var s := Session(required.value, q.demand, PerPrbMbps(q.radio.se, cfg.scsKhz), false);
      PlaceKeepsOk(cfg, cell, q.ue, s);
      UpdateKeepsOk(cfg, cleared, q.cell, Place(cell, q.ue, s));
    } else {
      UpdateKeepsOk(cfg, cleared, q.cell, Refuse(cell));
    }
  }

  lemma RegrantKeepsOk(cfg: Config, cell: CellState, ue: UeId, s: Session)
    requires CellOk(cfg, cell) && ue in cell.sessions && GrantOk(cfg, s)
    requires s.prbs - cell.sessions[ue].prbs <= cell.total - cell.used
    ensures CellOk(cfg, Regranted(cell, ue, s))
  {
    var rest := cell.sessions - {ue};
    GrantedWithout(cell.sessions, ue);
    assert cell.sessions[ue := s] == rest[ue := s];
    GrantedWith(rest, ue, s);
    GrantsBound(cfg, rest.Keys, rest);
  }

  lemma MeasurementKeepsOk(cfg: Config, cells: Cells, q: Request, step: Step)
    requires cfg.Valid() && CellsOk(cfg, cells)
    ensures CellsOk(cfg, HandleMeasurement(cfg, cells, q, step).0)
  {
    var up := BringUp(cfg, cells, q.cell);
    BringUpKeepsOk(cfg, cells, q.cell);
    var cell := up[q.cell];
    assert CellOk(cfg, cell);
    if q.ue in cell.sessions {
      var s := cell.sessions[q.ue];
      assert GrantOk(cfg, s);
      var required := PrbsForTraffic(s.demand, q.radio, cfg.scsKhz, cfg.profile);
      if required.None? {
        DropKeepsOk(cfg, cell, q.ue);
        UpdateKeepsOk(cfg, up, q.cell, Drop(cell, q.ue));
      } else {
        var after := HandleMeasurement(cfg, cells, q, step).0[q.cell];
        RegrantKeepsOk(cfg, cell, q.ue, after.sessions[q.ue]);
        UpdateKeepsOk(cfg, up, q.cell, after);
      }
    }
  }

  /** Every message keeps conservation on every cell. */
  lemma DispatchKeepsOk(cfg: Config, cells: Cells, q: Request)
    requires cfg.Valid() && CellsOk(cfg, cells)
    ensures CellsOk(cfg, Dispatch(cfg, cells, q).0)
  {
    match StepOf(q)
    case None =>
    case Some(s) =>
      match ActionOf(s) {
        case Admit => SetupKeepsOk(cfg, cells, q, s);
        case Reconfig => MeasurementKeepsOk(cfg, cells, q, s);
        case Release =>
          var up := BringUp(cfg, cells, q.cell);
          DropKeepsOk(cfg, up[q.cell], q.ue);
        case Nothing =>
      }
  }

  /** Nothing but the sender's own sessions differs between two states of the pools. */
  ghost predicate OthersKept(before: Cells, after: Cells, ue: UeId) {
    && (forall v, c | Holds(before, v, c) && v != ue ::
          Holds(after, v, c) && after[c].sessions[v] == before[c].sessions[v])
    && (forall v, c | Holds(after, v, c) && v != ue :: Holds(before, v, c))
  }

  lemma ClearedHolders(cfg: Config, cells: Cells, q: Request)
    ensures OthersKept(cells, Cleared(cfg, cells, q), q.ue)
    ensures forall c :: !Holds(Cleared(cfg, cells, q), q.ue, c)
  {
    ClearedDropsEverywhere(cfg, cells, q);
  }

  /** Replacing one cell by one that differs at most in the sender's session. */
  lemma UpdateHolders(cells: Cells, c: CellId, cell: CellState, ue: UeId)
    requires c in cells
    requires cell.sessions - {ue} == cells[c].sessions - {ue}
    ensures OthersKept(cells, cells[c := cell], ue)
    ensures forall d :: Holds(cells[c := cell], ue, d) <==> if d == c then ue in cell.sessions else Holds(cells, ue, d)
  {
    var after := cells[c := cell];
    forall v | v != ue
      ensures v in cell.sessions <==> v in cells[c].sessions
      ensures v in cell.sessions ==> cell.sessions[v] == cells[c].sessions[v]
    {
      assert v in cell.sessions <==> v in cell.sessions - {ue};
      assert v in cells[c].sessions <==> v in cells[c].sessions - {ue};
      if v in cell.sessions {
        assert cell.sessions[v] == (cell.sessions - {ue})[v];
      }
    }
  }

  lemma OthersKeptThrough(a: Cells, b: Cells, c: Cells, ue: UeId)
    requires OthersKept(a, b, ue) && OthersKept(b, c, ue)
    ensures OthersKept(a, c, ue)
  {
  }

  /** Admission touches one cell, and there at most the sender's session. */
  lemma DecideHolders(cfg: Config, cleared: Cells, q: Request, step: Step)
    requires cfg.Valid() && q.cell in cleared && q.ue !in cleared[q.cell].sessions
    ensures var (after, reply) := Decide(cfg, cleared, q, step);
      && q.cell in after && after == cleared[q.cell := after[q.cell]]
      && after[q.cell].sessions - {q.ue} == cleared[q.cell].sessions - {q.ue}
      && (q.ue in after[q.cell].sessions <==> !IsReject(reply))
  {
  }

  lemma SetupHolders(cfg: Config, cells: Cells, q: Request, step: Step)
    requires cfg.Valid()
    ensures OthersKept(cells, HandleSetup(cfg, cells, q, step).0, q.ue)
    ensures var (after, reply) := HandleSetup(cfg, cells, q, step);
      forall c :: Holds(after, q.ue, c) <==> c == q.cell && !IsReject(reply)
  {
    var cleared := Cleared(cfg, cells, q);
    ClearedHolders(cfg, cells, q);
    assert !Holds(cleared, q.ue, q.cell);
    DecideHolders(cfg, cleared, q, step);
    var after := HandleSetup(cfg, cells, q, step).0;
    UpdateHolders(cleared, q.cell, after[q.cell], q.ue);
    OthersKeptThrough(cells, cleared, after, q.ue);
  }

  lemma MeasurementHolders(cfg: Config, cells: Cells, q: Request, step: Step)
    requires cfg.Valid()
    ensures OthersKept(cells, HandleMeasurement(cfg, cells, q, step).0, q.ue)
    ensures forall c | Holds(HandleMeasurement(cfg, cells, q, step).0, q.ue, c) :: Holds(cells, q.ue, c)
  {
  }

  /** Who holds what after a message: only the sender's own sessions can change, and only an accepted setup adds one. */
  lemma DispatchHolders(cfg: Config, cells: Cells, q: Request)
    requires cfg.Valid()
    ensures OthersKept(cells, Dispatch(cfg, cells, q).0, q.ue)
    ensures StepOf(q) != Some(ContextSetup) ==>
      forall c | Holds(Dispatch(cfg, cells, q).0, q.ue, c) :: Holds(cells, q.ue, c)
    ensures StepOf(q) == Some(ContextSetup) ==>
      forall c :: Holds(Dispatch(cfg, cells, q).0, q.ue, c) <==> c == q.cell && !IsReject(Dispatch(cfg, cells, q).1)
    ensures StepOf(q) == Some(ReleaseRequest) ==> !Holds(Dispatch(cfg, cells, q).0, q.ue, q.cell)
  {
    match StepOf(q)
    case None =>
    case Some(s) =>
      match ActionOf(s) {
        case Admit => SetupHolders(cfg, cells, q, s);
        case Reconfig => MeasurementHolders(cfg, cells, q, s);
        case Release =>
        case Nothing =>
      }
  }

  lemma DispatchKeepsOneCell(cfg: Config, cells: Cells, q: Request)
    requires cfg.Valid() && OneCellPerUe(cells)
    ensures OneCellPerUe(Dispatch(cfg, cells, q).0)
  {
    DispatchHolders(cfg, cells, q);
  }

  // ---- admission and handover ----

  /** PRBs the cell would have free once the UE's own session there is gone. */
  function Room(cfg: Config, cells: Cells, ue: UeId, c: CellId): int {
    var cell := BringUp(cfg, cells, c)[c];
    cell.total - cell.used + if ue in cell.sessions then cell.sessions[ue].prbs else 0
  }

  /**
   Admission decides exactly by coverage and room; the UE then holds the asked grant on
   that cell and nothing elsewhere, and one counter says so.
   */
  lemma SetupIsExact(cfg: Config, cells: Cells, q: Request, step: Step)
    requires cfg.Valid()
    ensures var required := PrbsForTraffic(q.demand, q.radio, cfg.scsKhz, cfg.profile);
      var (after, reply) := HandleSetup(cfg, cells, q, step);
      var fits := required.Some? && required.value <= Room(cfg, cells, q.ue, q.cell);
      && (IsReject(reply) <==> !fits)
      && (fits ==> reply.body == Granted(required.value, false)
                   && Holds(after, q.ue, q.cell) && after[q.cell].sessions[q.ue].prbs == required.value)
      && (!fits ==> reply.body == Refused(if required.None? then NoCoverage else InsufficientPrb))
      && (forall c :: Holds(after, q.ue, c) <==> fits && c == q.cell)
    ensures var (after, reply) := HandleSetup(cfg, cells, q, step);
      var was, now := BringUp(cfg, cells, q.cell)[q.cell], after[q.cell];
      if IsReject(reply) then now.rejected == was.rejected + 1 && now.admitted == was.admitted
      else now.rejected == was.rejected && now.admitted == was.admitted + 1
  {
  }

  /**
   A measurement moves the grant to what is needed or as near as the free PRBs allow,
   never takes a grant from the UE to make room, and says so in `congested`.
   */
  lemma MeasurementIsExact(cfg: Config, cells: Cells, q: Request, step: Step)
    requires cfg.Valid() && CellsOk(cfg, cells) && Holds(cells, q.ue, q.cell)
    ensures var s := cells[q.cell].sessions[q.ue];
      var required := PrbsForTraffic(s.demand, q.radio, cfg.scsKhz, cfg.profile);
      var (after, reply) := HandleMeasurement(cfg, cells, q, step);
      && (required.None? <==> IsReject(reply))
      && (required.None? <==> !Holds(after, q.ue, q.cell))
      && (required.Some? ==>
           var g := after[q.cell].sessions[q.ue].prbs;
           && reply.body == Granted(g, required.value > Room(cfg, cells, q.ue, q.cell))
           && g == Min(required.value, Room(cfg, cells, q.ue, q.cell))
           && (required.value >= s.prbs ==> g >= s.prbs))
  {
    assert CellOk(cfg, cells[q.cell]);
    assert GrantOk(cfg, cells[q.cell].sessions[q.ue]);
  }

  /** What a session is after an exchange that granted it something. */
  ghost predicate BookedBy(cfg: Config, before: Cells, after: Cells, q: Request, reply: Reply)
    requires Holds(after, q.ue, q.cell) && reply.body.Granted?
  {
    var s := after[q.cell].sessions[q.ue];
    && s.prbs == reply.body.prbs && s.congested == reply.body.congested
    && s.perPrb == PerPrbMbps(q.radio.se, cfg.scsKhz)
    && (if StepOf(q) == Some(ContextSetup) then s.demand == q.demand
        else StepOf(q) == Some(Measurement) && Holds(before, q.ue, q.cell)
             && s.demand == before[q.cell].sessions[q.ue].demand)
  }

  lemma SetupBooks(cfg: Config, cells: Cells, q: Request, step: Step)
    requires cfg.Valid() && StepOf(q) == Some(ContextSetup)
    ensures var (after, reply) := HandleSetup(cfg, cells, q, step);
      reply.body.Granted? ==> Holds(after, q.ue, q.cell) && BookedBy(cfg, cells, after, q, reply)
    ensures var (after, reply) := HandleSetup(cfg, cells, q, step);
      !reply.body.Granted? ==> IsReject(reply)
  {
  }

  lemma MeasurementBooks(cfg: Config, cells: Cells, q: Request, step: Step)
    requires cfg.Valid() && StepOf(q) == Some(Measurement)
    ensures var (after, reply) := HandleMeasurement(cfg, cells, q, step);
      reply.body.Granted? ==> Holds(after, q.ue, q.cell) && BookedBy(cfg, cells, after, q, reply)
    ensures var (after, reply) := HandleMeasurement(cfg, cells, q, step);
      !reply.body.Granted? ==> !Holds(after, q.ue, q.cell)
    ensures var after := HandleMeasurement(cfg, cells, q, step).0;
      forall c | c != q.cell && Holds(after, q.ue, c) ::
        Holds(cells, q.ue, c) && after[c].sessions[q.ue] == cells[c].sessions[q.ue]
  {
  }

  /**
   Every session is what the exchange that last granted it something said: the granted PRBs
   and the congestion told in the reply, the throughput at the radio reported, the demand of
   the setup; and no other exchange touches it.
   */
  lemma DispatchBooks(cfg: Config, cells: Cells, q: Request, ue: UeId, c: CellId)
    requires cfg.Valid() && Holds(Dispatch(cfg, cells, q).0, ue, c)
    ensures var (after, reply) := Dispatch(cfg, cells, q);
      if ue == q.ue && c == q.cell && reply.body.Granted? then BookedBy(cfg, cells, after, q, reply)
      else Holds(cells, ue, c) && after[c].sessions[ue] == cells[c].sessions[ue]
  {
    DispatchHolders(cfg, cells, q);
    match StepOf(q)
    case None =>
    case Some(s) =>
      match ActionOf(s) {
        case Admit => SetupBooks(cfg, cells, q, s);
        case Reconfig => MeasurementBooks(cfg, cells, q, s);
        case Release =>
        case Nothing =>
      }
  }

  /** A session that already is what the report asks for stays as it is. */
  lemma RemeasuredAlike(cfg: Config, cells: Cells, q: Request, step: Step)
    requires cfg.Valid() && Holds(cells, q.ue, q.cell)
    requires var s := cells[q.cell].sessions[q.ue];
      && PrbsForTraffic(s.demand, q.radio, cfg.scsKhz, cfg.profile) == Some(s.prbs)
      && s.perPrb == PerPrbMbps(q.radio.se, cfg.scsKhz) && !s.congested
    ensures var (after, reply) := HandleMeasurement(cfg, cells, q, step);
      after == cells && reply.body == Granted(cells[q.cell].sessions[q.ue].prbs, false)
  {
    var cell := cells[q.cell];
    assert cell.sessions[q.ue := cell.sessions[q.ue]] == cell.sessions;
    assert Regranted(cell, q.ue, cell.sessions[q.ue]) == cell;
    assert cells[q.cell := cell] == cells;
  }

  /**
   A report at the radio of the setup confirms the grant, without congestion and at no cost
   to the pool.
   */
  lemma SameRadioSameGrant(cfg: Config, cells: Cells, setup: Request, report: Request)
    requires cfg.Valid() && StepOf(setup) == Some(ContextSetup) && StepOf(report) == Some(Measurement)
    requires report.ue == setup.ue && report.cell == setup.cell && report.radio == setup.radio
    requires !IsReject(Dispatch(cfg, cells, setup).1)
    ensures var (held, granted) := Dispatch(cfg, cells, setup);
      var (after, told) := Dispatch(cfg, held, report);
      && granted.body.Granted? && !granted.body.congested
      && told.body == granted.body
      && after == held
  {
    SetupIsExact(cfg, cells, setup, ContextSetup);
    SetupBooks(cfg, cells, setup, ContextSetup);
    RemeasuredAlike(cfg, Dispatch(cfg, cells, setup).0, report, Measurement);
  }

  /**
   Every reply names its request's UE, cell and step. It is the downlink the call flow has for
   that step, or the reject, and that exactly when something is refused; and it carries a grant,
   a throughput or nothing as the step has it.
   */
  lemma ReplyFollowsFlow(cfg: Config, cells: Cells, q: Request)
    requires cfg.Valid()
    ensures var reply := Dispatch(cfg, cells, q).1;
      && reply.ue == q.ue && reply.cell == q.cell && reply.sidecar == StepOf(q)
      && (reply.body.Refused? <==> IsReject(reply))
      && (StepOf(q).None? ==> reply.body == Refused(BadMessage))
      && (StepOf(q).Some? && !IsReject(reply) ==> reply.logical == Downlink(StepOf(q).value))
      && (reply.body.Granted? ==> StepOf(q) == Some(ContextSetup) || StepOf(q) == Some(Measurement))
      && (reply.body.Carried? ==> StepOf(q) == Some(UserData))
      && (reply.body.Plain? ==>
            StepOf(q) !in {Some(ContextSetup), Some(Measurement), Some(UserData), None})
      && (reply.body.Refused? && StepOf(q).Some? ==>
            StepOf(q) in {Some(ContextSetup), Some(Measurement), Some(UserData)})
  {
  }

  /** A data message is answered with what the session carries and what its setup asked for. */
  lemma DataIsToldTheTerms(cfg: Config, cells: Cells, q: Request)
    requires cfg.Valid() && StepOf(q) == Some(UserData)
    ensures var (after, reply) := Dispatch(cfg, cells, q);
      if Holds(cells, q.ue, q.cell) then
        var s := cells[q.cell].sessions[q.ue];
        after == cells && reply.body == Carried(s.prbs as real * s.perPrb, s.demand)
      else reply.body == Refused(UnknownUe)
  {
  }

  /** A release-shaped message for a UE that holds nothing on that cell. */
  lemma ReleaseOfNothing(cfg: Config, cells: Cells, q: Request)
    requires cfg.Valid() && q.cell in cells && !Holds(cells, q.ue, q.cell)
    requires StepOf(q) == Some(ReleaseRequest) || StepOf(q) == Some(ReleaseComplete)
    ensures Dispatch(cfg, cells, q).0 == cells
  {
  }

  /**
   Make-before-break: once the target has accepted, the release request and the release
   complete that follow on the source change no cell at all.
   */
  lemma AcceptedHandoverReleasesOnce(cfg: Config, cells: Cells, setup: Request, request: Request, complete: Request)
    requires cfg.Valid() && setup.ue == request.ue == complete.ue && request.cell == complete.cell
    requires Holds(cells, setup.ue, request.cell) && setup.cell != request.cell
    requires StepOf(setup) == Some(ContextSetup)
    requires StepOf(request) == Some(ReleaseRequest) && StepOf(complete) == Some(ReleaseComplete)
    requires !IsReject(Dispatch(cfg, cells, setup).1)
    ensures var target := Dispatch(cfg, cells, setup).0;
      && Dispatch(cfg, target, request).0 == target
      && Dispatch(cfg, target, complete).0 == target
      && Holds(target, setup.ue, setup.cell)
  {
    var target := Dispatch(cfg, cells, setup).0;
    DispatchHolders(cfg, cells, setup);
    assert request.cell in target;
    ReleaseOfNothing(cfg, target, request);
    ReleaseOfNothing(cfg, target, complete);
  }

  /**
   After a handover attempt the UE still has a session somewhere exactly when the target
   had coverage and room. The UE simulator stays on the source when the target refuses
   (poc_StressTest/ue/ue_sim.py:640-646), but its session there is already gone, and its
   next measurement on the source is answered unknown-ue.
   */
  lemma HandoverKeepsServiceIff(cfg: Config, cells: Cells, setup: Request, source: CellId)
    requires cfg.Valid() && OneCellPerUe(cells) && Holds(cells, setup.ue, source) && source != setup.cell
    requires StepOf(setup) == Some(ContextSetup)
    ensures var required := PrbsForTraffic(setup.demand, setup.radio, cfg.scsKhz, cfg.profile);
      var after := Dispatch(cfg, cells, setup).0;
      && ((exists c :: Holds(after, setup.ue, c)) <==>
            required.Some? && required.value <= Room(cfg, cells, setup.ue, setup.cell))
      && !Holds(after, setup.ue, source)
    ensures forall report: Request ::
      report.ue == setup.ue && report.cell == source && StepOf(report) == Some(Measurement) ==>
        Dispatch(cfg, Dispatch(cfg, cells, setup).0, report).1.body == Refused(UnknownUe)
  {
    SetupIsExact(cfg, cells, setup, ContextSetup);
    var after := Dispatch(cfg, cells, setup).0;
    assert forall c :: Holds(after, setup.ue, c) ==> c == setup.cell;
    if !IsReject(Dispatch(cfg, cells, setup).1) {
      assert Holds(after, setup.ue, setup.cell);
    }
  }

  /** Two one-block cells, each serving one UE. */
  function FullPair(s: Session): Cells {
    map["A" := CellState(1, 1, map["u" := s], 1, 0, 0), "B" := CellState(1, 1, map["v" := s], 1, 0, 0)]
  }

  lemma FullPairIsOk(cfg: Config, s: Session)
    requires cfg.totalPrbs == s.prbs == 1
    ensures CellsOk(cfg, FullPair(s)) && OneCellPerUe(FullPair(s)) && Holds(FullPair(s), "u", "A")
  {
    assert "A"[0] != "B"[0] && "u"[0] != "v"[0];
    OneSession(cfg, "u", s);
    OneSession(cfg, "v", s);
  }

  lemma OneSession(cfg: Config, ue: UeId, s: Session)
    requires cfg.totalPrbs == s.prbs == 1
    ensures CellOk(cfg, CellState(1, 1, map[ue := s], 1, 0, 0))
  {
    var none: map<UeId, Session> := map[];
    GrantedWith(none, ue, s);
    assert none[ue := s] == map[ue := s];
  }

  lemma FullPairHasNoRoom(cfg: Config, s: Session)
    ensures Room(cfg, FullPair(s), "u", "B") == 0
  {
    assert "A"[0] != "B"[0] && "u"[0] != "v"[0];
  }

  /** A concrete refused handover: UE u, served on A, tries the full cell B and is left with nothing. */
  lemma RefusedHandoverStrandsUe(s: Session, setup: Request)
    requires s == Session(1, 0.03, 1.08, false)
    requires setup == Request(Known(UeCapabilityInformation), None, "u", "B", Radio(20.0, 4.0), 0.03)
    ensures var cfg := Config(1, 30, Voip);
      && CellsOk(cfg, FullPair(s)) && Holds(FullPair(s), "u", "A")
      && forall c :: !Holds(Dispatch(cfg, FullPair(s), setup).0, "u", c)
  {
    var cfg := Config(1, 30, Voip);
    FullPairIsOk(cfg, s);
    FullPairHasNoRoom(cfg, s);
    RefusedSetupLeavesNothing(cfg, FullPair(s), setup);
  }

  lemma RefusedSetupLeavesNothing(cfg: Config, cells: Cells, setup: Request)
    requires cfg.Valid() && StepOf(setup) == Some(ContextSetup)
    requires var required := PrbsForTraffic(setup.demand, setup.radio, cfg.scsKhz, cfg.profile);
      required.None? || required.value > Room(cfg, cells, setup.ue, setup.cell)
    ensures forall c :: !Holds(Dispatch(cfg, cells, setup).0, setup.ue, c)
  {
    SetupIsExact(cfg, cells, setup, ContextSetup);
  }
}
