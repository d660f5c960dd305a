/**
 Whole runs of the DU: F1 links come up, deliver messages and go down in any order
 (poc_StressTest/du/du_server.py, serve_f1 and build_snapshot).
 */
module DuRuns {
  import opened Collections
  import opened Signalling
  import opened Du

  type LinkId = nat

  /** The pools, and for every live F1 link the cells it has carried (`conn_cells`). */
  datatype Server = Server(cells: Cells, conns: map<LinkId, set<CellId>>)

  datatype Event =
    | LinkUp(link: LinkId)
    | Deliver(link: LinkId, q: Request)
    | LinkDown(link: LinkId)

  /** `conn_cells` after a message; an empty cell id is not remembered. */
  function Remember(carried: set<CellId>, c: CellId): set<CellId> {
    if c != "" then carried + {c} else carried
  }

  ghost function Emptied(cell: CellState): CellState {
    cell.(used := cell.used - TotalGrant(cell.sessions),
          sessions := map[],
          released := cell.released + |cell.sessions|)
  }

  /** The clean-up when a link is lost: every session of every cell it carried goes. */
  ghost function LoseCells(cells: Cells, carried: set<CellId>): Cells {
    map c | c in cells :: if c in carried then Emptied(cells[c]) else cells[c]
  }

  ghost function Next(cfg: Config, s: Server, e: Event): Server
    requires cfg.Valid()
  {
    match e
    case LinkUp(l) => if l in s.conns then s else s.(conns := s.conns[l := {}])
    case Deliver(l, q) =>
      if l !in s.conns then s
      else Server(Dispatch(cfg, s.cells, q).0, s.conns[l := Remember(s.conns[l], q.cell)])
    case LinkDown(l) =>
      if l !in s.conns then s
      else Server(LoseCells(s.cells, s.conns[l]), s.conns - {l})
  }

  ghost function Run(cfg: Config, s: Server, events: seq<Event>): Server
    requires cfg.Valid()
    decreases |events|
  {
    if events == [] then s else Run(cfg, Next(cfg, s, events[0]), events[1..])
  }

  const Start := Server(map[], map[])

  /** Some live link has carried this cell. */
  ghost predicate Owned(s: Server, c: CellId) {
    exists l :: l in s.conns && c in s.conns[l]
  }

  /** Every PRB held on a named cell belongs to a live link. */
  ghost predicate LinksOwnCells(s: Server) {
    forall ue, c | Holds(s.cells, ue, c) && c != "" :: Owned(s, c)
  }

  ghost predicate ServerOk(cfg: Config, s: Server) {
    CellsOk(cfg, s.cells) && OneCellPerUe(s.cells) && LinksOwnCells(s)
    && (forall l | l in s.conns :: "" !in s.conns[l])
  }

  lemma EmptiedIsOk(cfg: Config, cell: CellState)
    requires CellOk(cfg, cell)
    ensures CellOk(cfg, Emptied(cell)) && Emptied(cell).used == 0
  {
  }

  lemma LossKeepsOk(cfg: Config, cells: Cells, carried: set<CellId>)
    requires CellsOk(cfg, cells)
    ensures CellsOk(cfg, LoseCells(cells, carried))
  {
    var after := LoseCells(cells, carried);
    forall c | c in after ensures CellOk(cfg, after[c]) {
      assert CellOk(cfg, cells[c]);
      EmptiedIsOk(cfg, cells[c]);
    }
  }

  /** Losing a link empties all of its cells and changes no other. */
  lemma LossIsExact(cfg: Config, cells: Cells, carried: set<CellId>)
    requires CellsOk(cfg, cells)
    ensures var after := LoseCells(cells, carried);
      && after.Keys == cells.Keys
      && (forall c | c in cells && c in carried :: after[c].sessions == map[] && after[c].used == 0)
      && (forall c | c in cells && c !in carried :: after[c] == cells[c])
  {
    forall c | c in cells && c in carried ensures Emptied(cells[c]).used == 0 {
      EmptiedIsOk(cfg, cells[c]);
    }
  }

  lemma DeliverKeepsOwners(cfg: Config, s: Server, l: LinkId, q: Request)
    requires cfg.Valid() && LinksOwnCells(s) && l in s.conns
    ensures LinksOwnCells(Next(cfg, s, Deliver(l, q)))
  {
    var s' := Next(cfg, s, Deliver(l, q));
    DispatchHolders(cfg, s.cells, q);
    forall ue, c | Holds(s'.cells, ue, c) && c != "" ensures Owned(s', c) {
      if Holds(s.cells, ue, c) {
        var k :| k in s.conns && c in s.conns[k];
        assert k in s'.conns && c in s'.conns[k];
      } else {
        assert c == q.cell;
        assert l in s'.conns && c in s'.conns[l];
      }
    }
  }

  lemma LossKeepsOwners(cfg: Config, s: Server, l: LinkId)
    requires cfg.Valid() && LinksOwnCells(s) && l in s.conns
    ensures LinksOwnCells(Next(cfg, s, LinkDown(l)))
  {
    var s' := Next(cfg, s, LinkDown(l));
    forall ue, c | Holds(s'.cells, ue, c) && c != "" ensures Owned(s', c) {
      assert Holds(s.cells, ue, c) && c !in s.conns[l];
      var k :| k in s.conns && c in s.conns[k];
      assert k in s'.conns && c in s'.conns[k];
    }
  }

  lemma StepKeepsServerOk(cfg: Config, s: Server, e: Event)
    requires cfg.Valid() && ServerOk(cfg, s)
    ensures ServerOk(cfg, Next(cfg, s, e))
  {
    match e
    case LinkUp(l) =>
      if l !in s.conns {
        var s' := Next(cfg, s, e);
        forall ue, c | Holds(s'.cells, ue, c) && c != "" ensures Owned(s', c) {
          var k :| k in s.conns && c in s.conns[k];
          assert k in s'.conns && c in s'.conns[k];
        }
      }
    case Deliver(l, q) =>
      if l in s.conns {
        DispatchKeepsOk(cfg, s.cells, q);
        DispatchKeepsOneCell(cfg, s.cells, q);
        DeliverKeepsOwners(cfg, s, l, q);
      }
    case LinkDown(l) =>
      if l in s.conns {
        LossKeepsOk(cfg, s.cells, s.conns[l]);
        LossKeepsOwners(cfg, s, l);
        assert forall ue, c :: Holds(Next(cfg, s, e).cells, ue, c) ==> Holds(s.cells, ue, c);
      }
  }

  /** In every run: PRBs are conserved, a UE is on at most one cell, and every named cell in use has a live link. */
  lemma {:induction false} EveryRunIsOk(cfg: Config, s: Server, events: seq<Event>)
    requires cfg.Valid() && ServerOk(cfg, s)
    ensures ServerOk(cfg, Run(cfg, s, events))
    decreases |events|
  {
    if events != [] {
      StepKeepsServerOk(cfg, s, events[0]);
      EveryRunIsOk(cfg, Next(cfg, s, events[0]), events[1..]);
    }
  }

  lemma StartIsOk(cfg: Config)
    ensures ServerOk(cfg, Start)
  {
  }

  /** With no F1 link left, no named cell holds anything. */
  lemma NoLinksNothingHeld(cfg: Config, events: seq<Event>, c: CellId)
    requires cfg.Valid()
    requires var s := Run(cfg, Start, events); s.conns == map[] && c in s.cells && c != ""
    ensures var cell := Run(cfg, Start, events).cells[c];
      cell.used == 0 && cell.sessions == map[] && cell.admitted == cell.released
  {
    var s := Run(cfg, Start, events);
    StartIsOk(cfg);
    EveryRunIsOk(cfg, Start, events);
    assert CellOk(cfg, s.cells[c]);
    assert !Owned(s, c);
    forall ue ensures ue !in s.cells[c].sessions {
      assert Holds(s.cells, ue, c) <==> ue in s.cells[c].sessions;
    }
    assert s.cells[c].sessions == map[];
  }

  /**
   When the link that carried an admission is lost, the grant survives exactly when the
   cell id was the empty text: `if serving` keeps that cell out of conn_cells.
   */
  lemma GrantSurvivesItsLinkIff(cfg: Config, s: Server, l: LinkId, q: Request)
    requires cfg.Valid() && ServerOk(cfg, s) && l in s.conns
    requires StepOf(q) == Some(ContextSetup) && !IsReject(Dispatch(cfg, s.cells, q).1)
    ensures Holds(Run(cfg, s, [Deliver(l, q), LinkDown(l)]).cells, q.ue, q.cell) <==> q.cell == ""
  {
    var s1 := Next(cfg, s, Deliver(l, q));
    var s2 := Next(cfg, s1, LinkDown(l));
    assert [Deliver(l, q), LinkDown(l)][1..] == [LinkDown(l)];
    assert [LinkDown(l)][1..] == [];
    assert Run(cfg, s1, [LinkDown(l)]) == Run(cfg, s2, []);
    DispatchHolders(cfg, s.cells, q);
  }

  // ---- observability ----

  /** `connected_ues` of a set of cells, added up. */
  ghost function ConnectedIn(cs: set<CellId>, cells: Cells): nat
    requires cs <= cells.Keys
  {
    if cs == {} then 0
    else var c :| c in cs; |cells[c].sessions| + ConnectedIn(cs - {c}, cells)
  }

  /** `unique_ids`: every UE with a session on one of these cells. */
  ghost function UniqueIn(cs: set<CellId>, cells: Cells): set<UeId>
    requires cs <= cells.Keys
  {
    set c, ue | c in cs && ue in cells[c].sessions :: ue
  }

  lemma {:induction false} ConnectedWithout(cs: set<CellId>, cells: Cells, c: CellId)
    requires cs <= cells.Keys && c in cs
    ensures ConnectedIn(cs, cells) == |cells[c].sessions| + ConnectedIn(cs - {c}, cells)
  {
    var first :| first in cs && ConnectedIn(cs, cells) == |cells[first].sessions| + ConnectedIn(cs - {first}, cells);
    if first != c {
      ConnectedWithout(cs - {first}, cells, c);
      ConnectedWithout(cs - {c}, cells, first);
      assert cs - {first} - {c} == cs - {c} - {first};
    }
  }

  lemma DisjointUnionSize<T>(a: set<T>, b: set<T>)
    requires a !! b
    ensures |a + b| == |a| + |b|
  {
  }

  /** The dashboard's two head counts agree because no UE is counted on two cells. */
  lemma {:induction false} UniqueEqualsConnected(cs: set<CellId>, cells: Cells)
    requires cs <= cells.Keys && OneCellPerUe(cells)
    ensures |UniqueIn(cs, cells)| == ConnectedIn(cs, cells)
  {
    if cs != {} {
      var c :| c in cs;
      var rest := cs - {c};
      ConnectedWithout(cs, cells, c);
      UniqueEqualsConnected(rest, cells);
      var here := cells[c].sessions.Keys;
      forall ue | ue in here ensures ue !in UniqueIn(rest, cells) {
        if ue in UniqueIn(rest, cells) {
          var d :| d in rest && ue in cells[d].sessions;
          assert Holds(cells, ue, c) && Holds(cells, ue, d);
        }
      }
      assert UniqueIn(cs, cells) == here + UniqueIn(rest, cells);
      DisjointUnionSize(here, UniqueIn(rest, cells));
      assert |here| == |cells[c].sessions|;
    } else {
      assert UniqueIn(cs, cells) == {};
    }
  }
}
