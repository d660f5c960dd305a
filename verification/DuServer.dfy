/**
 The DU as the program keeps it: cells are objects whose fields the handlers update in
 place (poc_StressTest/du/du_server.py). Each method is proved to compute the function of
 Du.dfy or DuRuns.dfy that carries the same name.
 */
module DuServer {
  import opened Collections
  import opened RfModel
  import opened Signalling
  import opened Du
  import opened DuRuns

  class Cell {
    const cellId: CellId
    const total: nat
    var used: int
    var sessions: map<UeId, Session>
    var admitted: nat
    var rejected: nat
    var released: nat

    ghost function View(): CellState
      reads this
    {
      CellState(total, used, sessions, admitted, rejected, released)
    }

    function FreePrbs(): int
      reads this
    {
      total - used
    }

    constructor (id: CellId, totalPrbs: nat)
      ensures cellId == id && View() == CellState(totalPrbs, 0, map[], 0, 0, 0)
    {
      cellId, total, used, sessions := id, totalPrbs, 0, map[];
      admitted, rejected, released := 0, 0, 0;
    }

    /** The body of `_release_ue` once the cell is found. */
    method DropSession(ue: UeId)
      modifies this
      ensures View() == Drop(old(View()), ue)
    {
      if ue in sessions {
        used := used - sessions[ue].prbs;
        sessions := sessions - {ue};
        released := released + 1;
      }
    }

    method CountRejection()
      modifies this
      ensures View() == Refuse(old(View()))
    {
      rejected := rejected + 1;
    }

    method Admit(ue: UeId, s: Session)
      modifies this
      ensures View() == Place(old(View()), ue, s)
    {
      used := used + s.prbs;
      admitted := admitted + 1;
      sessions := sessions[ue := s];
    }

    method Regrant(ue: UeId, s: Session)
      requires ue in sessions
      modifies this
      ensures View() == Regranted(old(View()), ue, s)
    {
      used := used + (s.prbs - sessions[ue].prbs);
      sessions := sessions[ue := s];
    }
  }

  class DU {
    const cfg: Config
    var cells: map<CellId, Cell>
    /** The pools as a value. */
    ghost var pools: Cells

    ghost predicate Valid()
      reads this, cells.Values
    {
      && cfg.Valid()
      && pools.Keys == cells.Keys
      && (forall c | c in cells :: cells[c].cellId == c && cells[c].View() == pools[c])
    }

    constructor (cfg: Config)
      requires cfg.Valid()
      ensures Valid() && this.cfg == cfg && pools == map[] && cells == map[]
    {
      this.cfg := cfg;
      cells, pools := map[], map[];
    }

    /** `_cell` */
    method GetCell(c: CellId) returns (cell: Cell)
      requires Valid()
      modifies this
      ensures Valid() && c in cells && cell == cells[c]
      ensures fresh(cells.Values - old(cells.Values))
      ensures pools == BringUp(cfg, old(pools), c)
    {
      if c !in cells {
        var up := new Cell(c, cfg.totalPrbs);
        cells := cells[c := up];
        pools := BringUp(cfg, pools, c);
      }
      cell := cells[c];
    }

    method ReleaseUe(ue: UeId, c: CellId)
      requires Valid()
      modifies cells.Values, this`pools
      ensures Valid() && pools == Du.ReleaseUe(old(pools), ue, c)
    {
      if c in cells {
        cells[c].DropSession(ue);
        pools := pools[c := Drop(pools[c], ue)];
      }
    }

    /** One more rejection on a cell. */
    method CountRejection(c: CellId)
      requires Valid() && c in cells
      modifies cells.Values, this`pools
      ensures Valid() && pools == old(pools)[c := Refuse(old(pools)[c])]
    {
      cells[c].CountRejection();
      pools := pools[c := Refuse(pools[c])];
    }

    /** Book a new session on a cell. */
    method Admit(c: CellId, ue: UeId, s: Session)
      requires Valid() && c in cells
      modifies cells.Values, this`pools
      ensures Valid() && pools == old(pools)[c := Place(old(pools)[c], ue, s)]
    {
      cells[c].Admit(ue, s);
      pools := pools[c := Place(pools[c], ue, s)];
    }

    /** Replace a session's grant on a cell. */
    method Regrant(c: CellId, ue: UeId, s: Session)
      requires Valid() && c in cells && ue in pools[c].sessions
      modifies cells.Values, this`pools
      ensures Valid() && pools == old(pools)[c := Regranted(old(pools)[c], ue, s)]
    {
      assert cells[c].View() == pools[c];
      cells[c].Regrant(ue, s);
      pools := pools[c := Regranted(pools[c], ue, s)];
    }

    method ReleaseUeOtherCells(ue: UeId, keep: CellId)
      requires Valid()
      modifies cells.Values, this`pools
      ensures Valid() && pools == ReleaseOthers(old(pools), ue, keep)
    {
      ghost var was := pools;
      var todo := cells.Keys;
      while todo != {}
        invariant Valid()
        invariant PartlyReleased(was, pools, todo, ue, keep)
        decreases todo
      {
        var c :| c in todo;
        PartlyReleasedStep(was, pools, todo, ue, keep, c);
        todo := todo - {c};
        if c != keep {
          ReleaseUe(ue, c);
        }
      }
      PartlyReleasedEnd(was, pools, ue, keep);
    }

    /** Bring the cell up and drop the UE's stale sessions, there and elsewhere. */
    method ClearForSetup(q: Request)
      requires Valid()
      modifies this, cells.Values
      ensures Valid() && fresh(cells.Values - old(cells.Values))
      ensures q.cell in cells && pools == Cleared(cfg, old(pools), q)
    {
      var _ := GetCell(q.cell);
      ReleaseUeOtherCells(q.ue, q.cell);
      ReleaseUe(q.ue, q.cell);
    }

    /** The admission decision itself. */
    method Decide(q: Request, step: Step) returns (reply: Reply)
      requires Valid() && q.cell in cells
      modifies cells.Values, this`pools
      ensures Valid()
      ensures pools == Du.Decide(cfg, old(pools), q, step).0 && reply == Du.Decide(cfg, old(pools), q, step).1
    {
      assert cells[q.cell].View() == pools[q.cell];
      var required := PrbsForTraffic(q.demand, q.radio, cfg.scsKhz, cfg.profile);
      if required.None? {
        CountRejection(q.cell);
        reply := Rejection(q, Some(step), NoCoverage);
      } else if required.value > cells[q.cell].FreePrbs() {
        CountRejection(q.cell);
        reply := Rejection(q, Some(step), InsufficientPrb);
      } else {
        Admit(q.cell, q.ue, Session(required.value, q.demand, PerPrbMbps(q.radio.se, cfg.scsKhz), false));
        reply := Reply(InitialContextSetupRequest, Some(step), q.ue, q.cell, Granted(required.value, false));
      }
    }

    method HandleSetup(q: Request, step: Step) returns (reply: Reply)
      requires Valid()
      modifies this, cells.Values
      ensures Valid() && fresh(cells.Values - old(cells.Values))
      ensures pools == Du.HandleSetup(cfg, old(pools), q, step).0 && reply == Du.HandleSetup(cfg, old(pools), q, step).1
    {
      ClearForSetup(q);
      reply := Decide(q, step);
    }

    /** Re-evaluate the sender's grant on a cell that is up. */
    method Remeasure(q: Request, step: Step) returns (reply: Reply)
      requires Valid() && q.cell in cells
      modifies cells.Values, this`pools
      ensures Valid()
      ensures pools == Du.Remeasure(cfg, old(pools), q, step).0 && reply == Du.Remeasure(cfg, old(pools), q, step).1
    {
      var cell := cells[q.cell];
      assert cell.View() == pools[q.cell];
      if q.ue !in cell.sessions {
        reply := Rejection(q, Some(step), UnknownUe);
        return;
      }
      var s := cell.sessions[q.ue];
      var required := PrbsForTraffic(s.demand, q.radio, cfg.scsKhz, cfg.profile);
      if required.None? {
        ReleaseUe(q.ue, q.cell);
        reply := Rejection(q, Some(step), LostCoverage);
        return;
      }
      var delta := required.value - s.prbs;
      var prbs, congested := required.value, false;
      if delta > 0 {
        var grant := Min(delta, cell.FreePrbs());
        prbs, congested := s.prbs + grant, grant < delta;
      }
      if cfg.profile == Voip {
        prbs := Min(prbs, VOIP_MAX_PRBS);
      }
      Regrant(q.cell, q.ue, Session(prbs, s.demand, PerPrbMbps(q.radio.se, cfg.scsKhz), congested));
      reply := Reply(Reconfiguration, Some(step), q.ue, q.cell, Granted(prbs, congested));
    }

    method HandleMeasurement(q: Request, step: Step) returns (reply: Reply)
      requires Valid()
      modifies this, cells.Values
      ensures Valid() && fresh(cells.Values - old(cells.Values))
      ensures pools == Du.HandleMeasurement(cfg, old(pools), q, step).0
      ensures reply == Du.HandleMeasurement(cfg, old(pools), q, step).1
    {
      var _ := GetCell(q.cell);
      reply := Remeasure(q, step);
    }

    method HandleData(q: Request, step: Step) returns (reply: Reply)
      requires Valid()
      modifies this
      ensures Valid() && fresh(cells.Values - old(cells.Values))
      ensures pools == Du.HandleData(cfg, old(pools), q, step).0 && reply == Du.HandleData(cfg, old(pools), q, step).1
    {
      var cell := GetCell(q.cell);
      assert cell.View() == pools[q.cell];
      if q.ue in cell.sessions {
        var s := cell.sessions[q.ue];
        reply := Reply(DataAck, Some(step), q.ue, q.cell, Carried(Achievable(s), s.demand));
      } else {
        reply := Rejection(q, Some(step), UnknownUe);
      }
    }

    method HandleRelease(q: Request, step: Step) returns (reply: Reply)
      requires Valid()
      modifies this, cells.Values
      ensures Valid() && fresh(cells.Values - old(cells.Values))
      ensures pools == Du.HandleRelease(cfg, old(pools), q, step).0
      ensures reply == Du.HandleRelease(cfg, old(pools), q, step).1
    {
      var cell := GetCell(q.cell);
      ReleaseUe(q.ue, q.cell);
      reply := Reply(ContextReleaseCommand, Some(step), q.ue, q.cell, Plain);
    }

    method Dispatch(q: Request) returns (reply: Reply)
      requires Valid()
      modifies this, cells.Values
      ensures Valid() && fresh(cells.Values - old(cells.Values))
      ensures pools == Du.Dispatch(cfg, old(pools), q).0 && reply == Du.Dispatch(cfg, old(pools), q).1
    {
      var step := StepOf(q);
      if step.None? {
        reply := Rejection(q, None, BadMessage);
      } else if ActionOf(step.value) == Action.Admit {
        reply := HandleSetup(q, step.value);
      } else if ActionOf(step.value) == Reconfig {
        reply := HandleMeasurement(q, step.value);
      } else if ActionOf(step.value) == Release {
        reply := HandleRelease(q, step.value);
      } else if step.value == UserData {
        reply := HandleData(q, step.value);
      } else {
        reply := Reply(Downlink(step.value), step, q.ue, q.cell, Plain);
      }
    }

    /** The inner loop of the clean-up: release one cell's sessions one by one, counting their PRBs. */
    method EmptyCell(c: CellId) returns (freed: int)
      requires Valid() && c in cells
      modifies cells.Values, this`pools
      ensures Valid() && pools == old(pools)[c := Emptied(old(pools)[c])]
      ensures freed == TotalGrant(old(pools)[c].sessions)
    {
      freed := 0;
      ghost var was := pools;
      var todo := cells[c].sessions.Keys;
      while todo != {}
        invariant Valid() && c in cells && todo == pools[c].sessions.Keys
        invariant Emptying(was, pools, c, freed)
        decreases todo
      {
        var ue :| ue in todo;
        EmptyingStep(was, pools, c, freed, ue);
        todo := todo - {ue};
        freed := freed + cells[c].sessions[ue].prbs;
        ReleaseUe(ue, c);
      }
      EmptyingEnd(was, pools, c, freed);
    }

    /** The `finally` of serve_f1: the RU behind this link is gone. */
    method LoseLink(carried: set<CellId>) returns (freed: int)
      requires Valid()
      modifies cells.Values, this`pools
      ensures Valid() && pools == LoseCells(old(pools), carried)
      ensures freed == FreedBy(carried * old(pools).Keys, old(pools))
    {
      freed := 0;
      ghost var was := pools;
      var todo := carried;
      FreedStart(was, carried);
      while todo != {}
        invariant Valid()
        invariant PartlyLost(was, pools, carried, todo)
        invariant freed == FreedBy((carried - todo) * was.Keys, was)
        decreases todo
      {
        var c :| c in todo;
        FreedStep(was, carried, todo, c);
        PartlyLostStep(was, pools, carried, todo, c);
        todo := todo - {c};
        if c in cells {
          var n := EmptyCell(c);
          freed := freed + n;
        }
      }
      PartlyLostEnd(was, pools, carried);
      assert carried - {} == carried;
    }

    method BuildSnapshot() returns (connected: nat, unique: nat)
      requires Valid()
      ensures connected == ConnectedIn(pools.Keys, pools)
      ensures unique == |UniqueIn(pools.Keys, pools)|
      ensures OneCellPerUe(pools) ==> unique == connected
    {
      var ids: set<UeId> := {};
      connected := 0;
      var todo := cells.Keys;
      CountedStart(pools);
      while todo != {}
        invariant Counted(pools, todo, ids, connected)
        decreases todo
      {
        var c :| c in todo;
        CountedStep(pools, todo, ids, connected, c);
        assert cells[c].View() == pools[c];
        todo := todo - {c};
        ids := ids + cells[c].sessions.Keys;
        connected := connected + |cells[c].sessions|;
      }
      CountedEnd(pools, ids, connected);
      unique := |ids|;
    }
  }

  /** PRBs granted on these cells, added up. */
  ghost function FreedBy(cs: set<CellId>, cells: Cells): int
    requires cs <= cells.Keys
  {
    if cs == {} then 0
    else var c :| c in cs; TotalGrant(cells[c].sessions) + FreedBy(cs - {c}, cells)
  }

  lemma {:induction false} FreedWithout(cs: set<CellId>, cells: Cells, c: CellId)
    requires cs <= cells.Keys && c in cs
    ensures FreedBy(cs, cells) == TotalGrant(cells[c].sessions) + FreedBy(cs - {c}, cells)
  {
    var first :| first in cs && FreedBy(cs, cells) == TotalGrant(cells[first].sessions) + FreedBy(cs - {first}, cells);
    if first != c {
      FreedWithout(cs - {first}, cells, c);
      FreedWithout(cs - {c}, cells, first);
      assert cs - {first} - {c} == cs - {c} - {first};
    }
  }

  lemma FreedMore(done: set<CellId>, cells: Cells, c: CellId)
    requires c !in done
    ensures var more := (done + {c}) * cells.Keys;
      FreedBy(more, cells)
      == FreedBy(done * cells.Keys, cells) + if c in cells then TotalGrant(cells[c].sessions) else 0
  {
    var more := (done + {c}) * cells.Keys;
    if c in cells {
      assert more - {c} == done * cells.Keys;
      FreedWithout(more, cells, c);
    } else {
      assert more == done * cells.Keys;
    }
  }

  lemma CountsMore(done: set<CellId>, cells: Cells, c: CellId)
    requires done <= cells.Keys && c in cells && c !in done
    ensures ConnectedIn(done + {c}, cells) == ConnectedIn(done, cells) + |cells[c].sessions|
    ensures UniqueIn(done + {c}, cells) == UniqueIn(done, cells) + cells[c].sessions.Keys
  {
    assert done + {c} - {c} == done;
    ConnectedWithout(done + {c}, cells, c);
  }

  /** A cell part way through the clean-up, with `freed` PRBs already given back. */
  ghost predicate PartlyEmptied(was: CellState, now: CellState, freed: int) {
    && now.total == was.total && now.admitted == was.admitted && now.rejected == was.rejected
    && now.released + |now.sessions| == was.released + |was.sessions|
    && now.used == was.used - freed
    && freed + TotalGrant(now.sessions) == TotalGrant(was.sessions)
  }

  lemma PartlyEmptiedStep(was: CellState, now: CellState, freed: int, ue: UeId)
    requires PartlyEmptied(was, now, freed) && ue in now.sessions
    ensures PartlyEmptied(was, Drop(now, ue), freed + now.sessions[ue].prbs)
  {
    GrantedWithout(now.sessions, ue);
  }

  lemma PartlyEmptiedEnd(was: CellState, now: CellState, freed: int)
    requires PartlyEmptied(was, now, freed) && now.sessions.Keys == {}
    ensures now == Emptied(was) && freed == TotalGrant(was.sessions)
  {
    assert now.sessions == map[];
  }

  /** The pools while one cell is being emptied. */
  ghost predicate Emptying(was: Cells, now: Cells, c: CellId, freed: int) {
    && c in was && now.Keys == was.Keys
    && (forall d | d in was && d != c :: now[d] == was[d])
    && PartlyEmptied(was[c], now[c], freed)
  }

  lemma EmptyingStep(was: Cells, now: Cells, c: CellId, freed: int, ue: UeId)
    requires Emptying(was, now, c, freed) && ue in now[c].sessions
    ensures Emptying(was, Du.ReleaseUe(now, ue, c), c, freed + now[c].sessions[ue].prbs)
    ensures Du.ReleaseUe(now, ue, c)[c].sessions.Keys == now[c].sessions.Keys - {ue}
  {
    PartlyEmptiedStep(was[c], now[c], freed, ue);
  }

  lemma EmptyingEnd(was: Cells, now: Cells, c: CellId, freed: int)
    requires Emptying(was, now, c, freed) && now[c].sessions.Keys == {}
    ensures now == was[c := Emptied(was[c])] && freed == TotalGrant(was[c].sessions)
  {
    PartlyEmptiedEnd(was[c], now[c], freed);
  }

  /** The pools part way through `_release_ue_other_cells`. */
  ghost predicate PartlyReleased(was: Cells, now: Cells, todo: set<CellId>, ue: UeId, keep: CellId) {
    && todo <= was.Keys && now.Keys == was.Keys
    && forall c | c in was :: (now[c] == if c in todo || c == keep then was[c] else Drop(was[c], ue))
  }

  lemma PartlyReleasedStep(was: Cells, now: Cells, todo: set<CellId>, ue: UeId, keep: CellId, c: CellId)
    requires PartlyReleased(was, now, todo, ue, keep) && c in todo
    ensures PartlyReleased(was, if c == keep then now else Du.ReleaseUe(now, ue, c), todo - {c}, ue, keep)
  {
  }

  lemma PartlyReleasedEnd(was: Cells, now: Cells, ue: UeId, keep: CellId)
    requires PartlyReleased(was, now, {}, ue, keep)
    ensures now == ReleaseOthers(was, ue, keep)
  {
  }

  /** The pools part way through the clean-up of a lost link. */
  ghost predicate PartlyLost(was: Cells, now: Cells, carried: set<CellId>, todo: set<CellId>) {
    && todo <= carried && now.Keys == was.Keys
    && forall c | c in was :: (now[c] == if c in carried && c !in todo then Emptied(was[c]) else was[c])
  }

  lemma PartlyLostStep(was: Cells, now: Cells, carried: set<CellId>, todo: set<CellId>, c: CellId)
    requires PartlyLost(was, now, carried, todo) && c in todo
    ensures PartlyLost(was, if c in now then now[c := Emptied(now[c])] else now, carried, todo - {c})
    ensures c in now ==> now[c] == was[c]
  {
  }

  lemma PartlyLostEnd(was: Cells, now: Cells, carried: set<CellId>)
    requires PartlyLost(was, now, carried, {})
    ensures now == LoseCells(was, carried)
  {
  }

  lemma FreedStart(was: Cells, carried: set<CellId>)
    ensures FreedBy((carried - carried) * was.Keys, was) == 0
  {
    assert (carried - carried) * was.Keys == {};
  }

  lemma FreedStep(was: Cells, carried: set<CellId>, todo: set<CellId>, c: CellId)
    requires c in todo && todo <= carried
    ensures FreedBy((carried - (todo - {c})) * was.Keys, was) ==
            FreedBy((carried - todo) * was.Keys, was) + if c in was then TotalGrant(was[c].sessions) else 0
  {
    FreedMore(carried - todo, was, c);
    assert carried - todo + {c} == carried - (todo - {c});
  }

  /** The head counts with the cells of `todo` still to visit. */
  ghost predicate Counted(cells: Cells, todo: set<CellId>, ids: set<UeId>, connected: nat) {
    && todo <= cells.Keys
    && ids == UniqueIn(cells.Keys - todo, cells)
    && connected == ConnectedIn(cells.Keys - todo, cells)
  }

  lemma CountedStart(cells: Cells)
    ensures Counted(cells, cells.Keys, {}, 0)
  {
    assert cells.Keys - cells.Keys == {};
  }

  lemma CountedStep(cells: Cells, todo: set<CellId>, ids: set<UeId>, connected: nat, c: CellId)
    requires Counted(cells, todo, ids, connected) && c in todo
    ensures Counted(cells, todo - {c}, ids + cells[c].sessions.Keys, connected + |cells[c].sessions|)
  {
    CountsMore(cells.Keys - todo, cells, c);
    assert cells.Keys - todo + {c} == cells.Keys - (todo - {c});
  }

  lemma CountedEnd(cells: Cells, ids: set<UeId>, connected: nat)
    requires Counted(cells, {}, ids, connected)
    ensures connected == ConnectedIn(cells.Keys, cells) && ids == UniqueIn(cells.Keys, cells)
    ensures OneCellPerUe(cells) ==> |ids| == connected
  {
    assert cells.Keys - {} == cells.Keys;
    if OneCellPerUe(cells) {
      UniqueEqualsConnected(cells.Keys, cells);
    }
  }
}
