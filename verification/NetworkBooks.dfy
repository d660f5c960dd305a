/**
 What the DU keeps of every session, against what it told the UEs: on every run a session
 holds the demand of its setup, the radio last reported, and the PRBs and congestion last
 granted (poc_StressTest/du/du_server.py:118-189).
 */
module NetworkBooks {
  import opened Collections
  import opened RfModel
  import opened Signalling
  import opened Du
  import opened DuRuns
  import opened Network

  /** What a UE was last told about its grant on a cell, and on what terms. */
  datatype Terms = Terms(demand: real, radio: Radio, prbs: int, congested: bool)

  /** The terms after one more answered exchange. */
  function TermsAfter(t: Option<Terms>, h: Heard, ue: UeId, c: CellId): Option<Terms> {
    if h.q.ue != ue || h.q.cell != c || !h.reply.body.Granted? then t
    else
      match StepOf(h.q)
      case Some(ContextSetup) => Some(Terms(h.q.demand, h.q.radio, h.reply.body.prbs, h.reply.body.congested))
      case Some(Measurement) =>
        if t.None? then None
        else Some(Terms(t.value.demand, h.q.radio, h.reply.body.prbs, h.reply.body.congested))
      case _ => t
  }

  /** The terms that these exchanges, in order, leave the UE with on the cell. */
  function TermsOf(hs: seq<Heard>, ue: UeId, c: CellId): Option<Terms> {
    if hs == [] then None else TermsAfter(TermsOf(hs[..|hs| - 1], ue, c), hs[|hs| - 1], ue, c)
  }

  lemma TermsSnoc(hs: seq<Heard>, h: Heard, ue: UeId, c: CellId)
    ensures TermsOf(hs + [h], ue, c) == TermsAfter(TermsOf(hs, ue, c), h, ue, c)
  {
    assert (hs + [h])[..|hs|] == hs;
  }

  /** The session, if there is one, is what its terms say. */
  ghost predicate BookedOn(cfg: Config, cells: Cells, log: seq<Heard>, ue: UeId, c: CellId) {
    Holds(cells, ue, c) ==>
      var t := TermsOf(log, ue, c);
      t.Some? && cells[c].sessions[ue]
        == Session(t.value.prbs, t.value.demand, PerPrbMbps(t.value.radio.se, cfg.scsKhz), t.value.congested)
  }

  lemma ExchangeKeepsBooks(cfg: Config, cells: Cells, log: seq<Heard>, q: Request, ue: UeId, c: CellId)
    requires cfg.Valid() && BookedOn(cfg, cells, log, ue, c)
    ensures var (after, reply) := Dispatch(cfg, cells, q); BookedOn(cfg, after, log + [Heard(q, reply)], ue, c)
  {
    var (after, reply) := Dispatch(cfg, cells, q);
    TermsSnoc(log, Heard(q, reply), ue, c);
    if Holds(after, ue, c) {
      DispatchBooks(cfg, cells, q, ue, c);
    }
  }

  lemma LossKeepsBooks(cfg: Config, cells: Cells, carried: set<CellId>, log: seq<Heard>, ue: UeId, c: CellId)
    requires BookedOn(cfg, cells, log, ue, c)
    ensures BookedOn(cfg, LoseCells(cells, carried), log, ue, c)
  {
  }

  /** Nothing but a message read and a link lost touches the DU's cells and its log. */
  lemma OthersKeepBooks(cfg: Config, topo: Topology, n: Net, a: Move)
    requires cfg.Valid() && Possible(topo, n, a) && !a.DuReads? && !a.DuLoses?
    ensures var n' := Network.Next(cfg, topo, n, a); n'.du.cells == n.du.cells && n'.log == n.log
  {
    if a.Transmit? { SendingKeepsBooks(n, a.sock, n.rus[n.socks[a.sock].ru].writer); }
  }

  lemma SendingKeepsBooks(n: Net, s: SockId, w: Option<LinkId>)
    requires s in n.socks && n.socks[s].phase.Queued?
    ensures Sending(n, s, w).du == n.du && Sending(n, s, w).log == n.log
  {
  }

  lemma ReadingIsAnExchange(cfg: Config, topo: Topology, n: Net, k: Key)
    requires cfg.Valid() && Possible(topo, n, DuReads(k))
    ensures var n' := Network.Next(cfg, topo, n, DuReads(k));
      var (after, reply) := Dispatch(cfg, n.du.cells, n.up[k].q);
      n'.du.cells == after && n'.log == n.log + [Heard(n.up[k].q, reply)]
  {
  }

  lemma LosingIsALoss(cfg: Config, topo: Topology, n: Net, l: LinkId)
    requires cfg.Valid() && Possible(topo, n, DuLoses(l))
    ensures var n' := Network.Next(cfg, topo, n, DuLoses(l));
      n'.du.cells == LoseCells(n.du.cells, n.du.conns[l]) && n'.log == n.log
  {
  }

  /**
   On every run, whatever the UEs send and whatever fails, a session holds exactly the demand
   of the UE's last accepted setup there, the throughput at the radio it last reported with
   success, and the PRBs and the congestion flag it was last told.
   */
  lemma {:induction false} SessionsFollowTerms(
    cfg: Config, topo: Topology, d: Conduct, n: Net, run: seq<Move>, end: Net, ue: UeId, c: CellId)
    requires cfg.Valid() && Reaches(cfg, topo, d, n, run, end) && BookedOn(cfg, n.du.cells, n.log, ue, c)
    ensures BookedOn(cfg, end.du.cells, end.log, ue, c)
    decreases |run|
  {
    if run != [] {
      var a := run[0];
      if a.DuReads? {
        ReadingIsAnExchange(cfg, topo, n, a.key);
        ExchangeKeepsBooks(cfg, n.du.cells, n.log, n.up[a.key].q, ue, c);
      } else if a.DuLoses? {
        LosingIsALoss(cfg, topo, n, a.link);
        LossKeepsBooks(cfg, n.du.cells, n.du.conns[a.link], n.log, ue, c);
      } else {
        OthersKeepBooks(cfg, topo, n, a);
      }
      SessionsFollowTerms(cfg, topo, d, Network.Next(cfg, topo, n, a), run[1..], end, ue, c);
    }
  }

  lemma DataAnswersBooked(cfg: Config, cells: Cells, log: seq<Heard>, q: Request)
    requires cfg.Valid() && StepOf(q) == Some(UserData) && Holds(cells, q.ue, q.cell)
    requires BookedOn(cfg, cells, log, q.ue, q.cell)
    ensures var t := TermsOf(log, q.ue, q.cell);
      t.Some? && Dispatch(cfg, cells, q).1.body
        == Carried(t.value.prbs as real * PerPrbMbps(t.value.radio.se, cfg.scsKhz), t.value.demand)
  {
    DataIsToldTheTerms(cfg, cells, q);
  }

  lemma BookedFromStart(
    cfg: Config, topo: Topology, d: Conduct, run: seq<Move>, n: Net, ue: UeId, c: CellId)
    requires cfg.Valid() && Reaches(cfg, topo, d, Network.Start(topo), run, n)
    ensures BookedOn(cfg, n.du.cells, n.log, ue, c)
  {
    SessionsFollowTerms(cfg, topo, d, Network.Start(topo), run, n, ue, c);
  }

  /**
   A data message of a UE with a session is answered with the demand of its setup and with
   the PRBs it was last granted times the throughput at the radio it last reported.
   */
  lemma DataAnswersTheTerms(cfg: Config, topo: Topology, d: Conduct, run: seq<Move>, n: Net, q: Request)
    requires cfg.Valid() && Reaches(cfg, topo, d, Network.Start(topo), run, n) && StepOf(q) == Some(UserData)
    requires Holds(n.du.cells, q.ue, q.cell)
    ensures var t := TermsOf(n.log, q.ue, q.cell);
      t.Some? && Dispatch(cfg, n.du.cells, q).1.body
        == Carried(t.value.prbs as real * PerPrbMbps(t.value.radio.se, cfg.scsKhz), t.value.demand)
  {
    BookedFromStart(cfg, topo, d, run, n, q.ue, q.cell);
    DataAnswersBooked(cfg, n.du.cells, n.log, q);
  }
}
