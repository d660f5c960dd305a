/**
 Why UEs must ask for their release before the final uplink: among UEs that stay on one
 UE id and one cell but are not held to that order, a socket's final uplink leaks its grant
 exactly when the last thing the socket was told about a grant is that it has one.
 */
module NetworkLeaks {
  import opened Collections
  import opened Signalling
  import opened Du
  import opened DuRuns
  import opened Network
  import opened NetworkShape
  import opened NetworkReplies
  import opened NetworkSafety

  // ---- what a socket was told ----

  /** Whether an answered exchange leaves this UE a grant on this cell, if `held` says whether it had one. */
  predicate HeldAfter(held: bool, h: Heard, ue: UeId, c: CellId) {
    if h.q.ue != ue then held
    else
      match StepOf(h.q)
      case Some(ContextSetup) => c == h.q.cell && !IsReject(h.reply)
      case Some(Measurement) => held && (c != h.q.cell || !IsReject(h.reply))
      case Some(ReleaseRequest) => held && c != h.q.cell
      case _ => held
  }

  /**
   After these exchanges, in order, the UE has a grant on the cell: an accepted setup there, and
   since then no other setup, no release and no refused measurement there.
   */
  predicate HeldBy(hs: seq<Heard>, ue: UeId, c: CellId) {
    hs != [] && HeldAfter(HeldBy(hs[..|hs| - 1], ue, c), hs[|hs| - 1], ue, c)
  }

  lemma HeldBySnoc(hs: seq<Heard>, h: Heard, ue: UeId, c: CellId)
    ensures HeldBy(hs + [h], ue, c) == HeldAfter(HeldBy(hs, ue, c), h, ue, c)
  {
    assert (hs + [h])[..|hs|] == hs;
  }

  /** Nothing but a setup reaches beyond the cell it names. */
  lemma OtherCellsKeep(cfg: Config, cells: Cells, q: Request, c: CellId)
    requires cfg.Valid() && StepOf(q) != Some(ContextSetup) && c != q.cell
    ensures Holds(Dispatch(cfg, cells, q).0, q.ue, c) <==> Holds(cells, q.ue, c)
  {
  }

  lemma OwnCellFollows(cfg: Config, cells: Cells, q: Request)
    requires cfg.Valid() && StepOf(q) != Some(ContextSetup)
    ensures var (after, reply) := Dispatch(cfg, cells, q);
      Holds(after, q.ue, q.cell) <==> HeldAfter(Holds(cells, q.ue, q.cell), Heard(q, reply), q.ue, q.cell)
  {
  }

  /** The DU's books follow the same rule. */
  lemma DispatchHolds(cfg: Config, cells: Cells, q: Request, ue: UeId, c: CellId)
    requires cfg.Valid()
    ensures var (after, reply) := Dispatch(cfg, cells, q);
      Holds(after, ue, c) <==> HeldAfter(Holds(cells, ue, c), Heard(q, reply), ue, c)
  {
    DispatchHolders(cfg, cells, q);
    if ue == q.ue && StepOf(q) != Some(ContextSetup) {
      if c == q.cell {
        OwnCellFollows(cfg, cells, q);
      } else {
        OtherCellsKeep(cfg, cells, q, c);
      }
    }
  }

  /** The answer the DU has given a socket's task and the task has not yet taken. */
  function Unheard(n: Net, s: SockId): seq<Heard> {
    if s in n.socks && n.socks[s].phase.Sent? && Held(n.socks[s]).value in n.served
    then [Heard(n.socks[s].phase.q, n.served[Held(n.socks[s]).value].reply)] else []
  }

  function Told(n: Net, s: SockId): seq<Heard> {
    HeardBy(n, s) + Unheard(n, s)
  }

  // ---- the books and the sockets agree ----

  /** The socket has sent something. */
  predicate Started(n: Net, s: SockId) {
    s in n.socks && n.socks[s].ue != ""
  }

  /** No other socket is or was this UE's. */
  ghost predicate SoleFor(n: Net, s: SockId, ue: UeId) {
    forall v | v in n.socks && v != s :: n.socks[v].ue != ue
  }

  /** Who holds a grant has a socket, open or closed. */
  ghost predicate HoldersKnown(n: Net) {
    forall ue, c | Holds(n.du.cells, ue, c) :: exists v :: v in n.socks && n.socks[v].ue == ue && ue != ""
  }

  /** The DU holds a grant only if the socket was told of it; and if nothing was lost, also the other way round. */
  ghost predicate Agrees(n: Net, s: SockId, ue: UeId, c: CellId, exact: bool) {
    && (Holds(n.du.cells, ue, c) ==> HeldBy(Told(n, s), ue, c))
    && (exact && HeldBy(Told(n, s), ue, c) ==> Holds(n.du.cells, ue, c))
  }

  ghost predicate Belief(n: Net, s: SockId, ue: UeId, c: CellId, exact: bool) {
    && (Started(n, s) ==> n.socks[s].ue == ue && n.socks[s].cell == c)
    && (!Started(n, s) ==> HeardBy(n, s) == [])
    && (Started(n, s) && Serving(n.socks[s]) ==> Agrees(n, s, ue, c, exact))
  }

  lemma StartBelief(topo: Topology, s: SockId, ue: UeId, c: CellId, exact: bool)
    ensures Belief(Network.Start(topo), s, ue, c, exact)
  {
  }

  // ---- UE ids stay ----

  lemma SendingKeepsUe(n: Net, s: SockId, w: Option<LinkId>, v: SockId)
    requires s in n.socks && n.socks[s].phase.Queued? && v in n.socks
    ensures v in Sending(n, s, w).socks && Sending(n, s, w).socks[v].ue == n.socks[v].ue
    ensures Sending(n, s, w).socks[v].cell == n.socks[v].cell
  {
  }

  lemma BreakKeepsUe(n: Net, s: SockId, v: SockId)
    requires s in n.socks && n.socks[s].ru in n.rus && v in n.socks
    ensures v in BreakUnder(n, s).socks
    ensures BreakUnder(n, s).socks[v].ue == n.socks[v].ue && BreakUnder(n, s).socks[v].cell == n.socks[v].cell
  {
  }

  lemma MoveKeepsUe(cfg: Config, topo: Topology, n: Net, a: Move, v: SockId)
    requires cfg.Valid() && Possible(topo, n, a) && Permits(OneUeEach, n, a) && v in n.socks
    ensures var n' := Network.Next(cfg, topo, n, a);
      v in n'.socks && (n.socks[v].ue != "" ==> n'.socks[v].ue == n.socks[v].ue && n'.socks[v].cell == n.socks[v].cell)
  {
    if a.Transmit? {
      SendingKeepsUe(n, a.sock, n.rus[n.socks[a.sock].ru].writer, v);
    } else if a.TransmitFails? || a.DrainFails? || a.ResumeBroken? {
      BreakKeepsUe(n, a.sock, v);
    }
  }

  lemma {:induction false} RunKeepsUe(cfg: Config, topo: Topology, n: Net, run: seq<Move>, end: Net, v: SockId)
    requires cfg.Valid() && Reaches(cfg, topo, OneUeEach, n, run, end) && v in n.socks
    ensures v in end.socks
    ensures n.socks[v].ue != "" ==> end.socks[v].ue == n.socks[v].ue && end.socks[v].cell == n.socks[v].cell
    decreases |run|
  {
    if run != [] {
      MoveKeepsUe(cfg, topo, n, run[0], v);
      RunKeepsUe(cfg, topo, Network.Next(cfg, topo, n, run[0]), run[1..], end, v);
    }
  }

  // ---- every holder has a socket ----

  /** Except by reading a request the DU grants nothing. */
  lemma OnlyReadingGrants(cfg: Config, topo: Topology, n: Net, a: Move, ue: UeId, c: CellId)
    requires cfg.Valid() && Possible(topo, n, a) && !a.DuReads?
    ensures Holds(Network.Next(cfg, topo, n, a).du.cells, ue, c) ==> Holds(n.du.cells, ue, c)
    ensures !a.DuLoses? && Holds(n.du.cells, ue, c) ==> Holds(Network.Next(cfg, topo, n, a).du.cells, ue, c)
    ensures Network.Next(cfg, topo, n, a).served == n.served
  {
    if !a.Connect? && !a.DuLoses? {
      OtherMovesKeepDu(cfg, topo, n, a);
    }
  }

  lemma HolderKnownAfter(cfg: Config, topo: Topology, n: Net, a: Move, ue: UeId, c: CellId) returns (v: SockId)
    requires cfg.Valid() && Possible(topo, n, a) && FramesOk(n) && Named(n) && HoldersKnown(n)
    requires Holds(Network.Next(cfg, topo, n, a).du.cells, ue, c)
    ensures v in n.socks && n.socks[v].ue == ue && ue != ""
  {
    if a.DuReads? && n.up[a.key].q.ue == ue {
      v := n.up[a.key].sock;
      assert FrameOk(n, a.key);
    } else {
      if a.DuReads? {
        DispatchHolders(cfg, n.du.cells, n.up[a.key].q);
      } else {
        OnlyReadingGrants(cfg, topo, n, a, ue, c);
      }
      v :| v in n.socks && n.socks[v].ue == ue && ue != "";
    }
  }

  lemma MoveKeepsHolders(cfg: Config, topo: Topology, n: Net, a: Move)
    requires cfg.Valid() && Possible(topo, n, a) && Permits(OneUeEach, n, a)
    requires FramesOk(n) && Named(n) && HoldersKnown(n)
    ensures HoldersKnown(Network.Next(cfg, topo, n, a))
  {
    var n' := Network.Next(cfg, topo, n, a);
    forall ue, c | Holds(n'.du.cells, ue, c) ensures exists v :: v in n'.socks && n'.socks[v].ue == ue && ue != "" {
      var v := HolderKnownAfter(cfg, topo, n, a, ue, c);
      MoveKeepsUe(cfg, topo, n, a, v);
    }
  }

  // ---- moves keep the agreement ----

  /** The move is this socket's own. */
  predicate About(a: Move, s: SockId) {
    && (a.Open? || a.Uplink? || a.Vanish? || a.Issue? || a.Transmit? || a.TransmitFails? || a.DrainFails?
        || a.Resume? || a.ResumeBroken?)
    && a.sock == s
  }

  /** As long as the task serves it is told nothing new, and only a socket with a UE id hears anything. */
  ghost predicate KeepsTold(n: Net, n': Net, s: SockId) {
    && (s in n'.socks && Serving(n'.socks[s]) ==> Told(n', s) == Told(n, s) && (s in n.socks ==> Serving(n.socks[s])))
    && (Started(n', s) || HeardBy(n', s) == HeardBy(n, s))
  }

  lemma SendingKeepsTold(topo: Topology, n: Net, s: SockId, w: Option<LinkId>)
    requires s in n.socks && n.socks[s].phase.Queued? && SockOk(topo, n, n.socks[s])
    ensures KeepsTold(n, Sending(n, s, w), s)
  {
  }

  lemma ResumeKeepsTold(cfg: Config, topo: Topology, n: Net, s: SockId, delivered: bool)
    requires cfg.Valid() && WireOk(n) && SocksOk(topo, n) && Named(n) && Possible(topo, n, Resume(s, delivered))
    ensures KeepsTold(n, Network.Next(cfg, topo, n, Resume(s, delivered)), s)
  {
    AnsweredLeftTheWire(topo, n, n.socks[s]);
  }

  lemma BreakKeepsTold(n: Net, x: SockId, s: SockId)
    requires x in n.socks && n.socks[x].ru in n.rus
    ensures KeepsTold(n, BreakUnder(n, x), s)
  {
  }

  lemma OwnUeMoveKeepsTold(cfg: Config, topo: Topology, n: Net, a: Move, s: SockId)
    requires cfg.Valid() && SocksOk(topo, n) && Named(n) && Possible(topo, n, a) && About(a, s)
    requires a.Open? || a.Uplink? || a.Vanish? || a.Issue?
    ensures KeepsTold(n, Network.Next(cfg, topo, n, a), s)
  {
    if !a.Open? {
      assert SockOk(topo, n, n.socks[s]);
    }
  }

  lemma OwnMoveKeepsTold(cfg: Config, topo: Topology, n: Net, a: Move, s: SockId)
    requires cfg.Valid() && WireOk(n) && SocksOk(topo, n) && Named(n) && Possible(topo, n, a) && About(a, s)
    ensures KeepsTold(n, Network.Next(cfg, topo, n, a), s)
  {
    if a.Transmit? {
      SendingKeepsTold(topo, n, s, n.rus[n.socks[s].ru].writer);
    } else if a.Resume? {
      ResumeKeepsTold(cfg, topo, n, s, a.delivered);
    } else if a.TransmitFails? || a.DrainFails? || a.ResumeBroken? {
      BreakKeepsTold(n, s, s);
    } else {
      OwnUeMoveKeepsTold(cfg, topo, n, a, s);
    }
  }

  lemma SendingKeepsOthers(n: Net, x: SockId, w: Option<LinkId>, s: SockId)
    requires x in n.socks && n.socks[x].phase.Queued? && x != s
    ensures KeepsTold(n, Sending(n, x, w), s)
  {
  }

  lemma OtherTaskKeepsTold(cfg: Config, topo: Topology, n: Net, a: Move, s: SockId)
    requires cfg.Valid() && Possible(topo, n, a) && !About(a, s)
    requires a.Open? || a.Uplink? || a.Vanish? || a.Issue? || a.Transmit? || a.Resume?
    ensures KeepsTold(n, Network.Next(cfg, topo, n, a), s)
  {
    if a.Transmit? {
      SendingKeepsOthers(n, a.sock, n.rus[n.socks[a.sock].ru].writer, s);
    }
  }

  lemma OtherMoveKeepsTold(cfg: Config, topo: Topology, n: Net, a: Move, s: SockId)
    requires cfg.Valid() && Possible(topo, n, a) && !About(a, s) && !a.DuReads?
    ensures KeepsTold(n, Network.Next(cfg, topo, n, a), s)
  {
    if a.Open? || a.Uplink? || a.Vanish? || a.Issue? || a.Transmit? || a.Resume? {
      OtherTaskKeepsTold(cfg, topo, n, a, s);
    } else if a.TransmitFails? || a.DrainFails? || a.ResumeBroken? {
      BreakKeepsTold(n, a.sock, s);
    }
  }

  /** A socket that has sent nothing was told nothing, and nobody else's grant can be this UE's. */
  lemma NothingBeforeStart(n: Net, s: SockId, ue: UeId, c: CellId, exact: bool)
    requires Belief(n, s, ue, c, exact) && Named(n) && HoldersKnown(n) && SoleFor(n, s, ue) && !Started(n, s)
    ensures Told(n, s) == [] && !Holds(n.du.cells, ue, c)
  {
  }

  lemma ToldKeepsBelief(n: Net, n': Net, s: SockId, ue: UeId, c: CellId, exact: bool)
    requires Belief(n, s, ue, c, exact) && Named(n) && HoldersKnown(n) && SoleFor(n, s, ue)
    requires KeepsTold(n, n', s)
    requires Holds(n'.du.cells, ue, c) ==> Holds(n.du.cells, ue, c)
    requires exact && Holds(n.du.cells, ue, c) ==> Holds(n'.du.cells, ue, c)
    requires Started(n, s) ==> Started(n', s)
    requires Started(n', s) ==> n'.socks[s].ue == ue && n'.socks[s].cell == c
    ensures Belief(n', s, ue, c, exact)
  {
    if !Started(n, s) {
      NothingBeforeStart(n, s, ue, c, exact);
    }
  }

  /** What reading a request does to one UE's grant on one cell. */
  ghost predicate ReadingRule(n: Net, k: Key, du: Server, reply: Reply, ue: UeId, c: CellId)
    requires k in n.up
  {
    Holds(du.cells, ue, c) <==> HeldAfter(Holds(n.du.cells, ue, c), Heard(n.up[k].q, reply), ue, c)
  }

  lemma ReadingFollowsRule(cfg: Config, n: Net, k: Key, ue: UeId, c: CellId)
    requires cfg.Valid() && k in n.up && n.up[k].link in n.du.conns
    ensures ReadingRule(n, k, AfterReading(cfg, n, k), Answer(cfg, n, k), ue, c)
  {
    DispatchHolds(cfg, n.du.cells, n.up[k].q, ue, c);
  }

  /** Another UE's request says nothing to this socket. */
  lemma OthersReadingKeepsTold(topo: Topology, n: Net, k: Key, du: Server, reply: Reply, s: SockId)
    requires WireOk(n) && SocksOk(topo, n) && k in n.up && s in n.socks && n.up[k].q.ue != n.socks[s].ue
    ensures Told(ReadAs(n, k, du, reply), s) == Told(n, s)
  {
    assert SockOk(topo, n, n.socks[s]) && KeyOk(n, k);
  }

  /** Its own request says what the DU answers. */
  lemma OwnReadingIsTold(n: Net, k: Key, du: Server, reply: Reply, s: SockId)
    requires WireOk(n) && FramesOk(n) && k in n.up && s in n.socks && n.up[k].sock == s && Serving(n.socks[s])
    ensures Told(ReadAs(n, k, du, reply), s) == Told(n, s) + [Heard(n.up[k].q, reply)]
    ensures n.up[k].q.ue == n.socks[s].ue && n.up[k].q.cell == n.socks[s].cell
  {
    assert FrameOk(n, k) && KeyOk(n, k);
  }

  lemma ReadKeepsBelief(topo: Topology, n: Net, k: Key, du: Server, reply: Reply, s: SockId, ue: UeId, c: CellId,
                        exact: bool)
    requires WireOk(n) && SocksOk(topo, n) && FramesOk(n) && ue != "" && SoleFor(n, s, ue)
    requires k in n.up && ReadingRule(n, k, du, reply, ue, c) && Belief(n, s, ue, c, exact)
    ensures Belief(ReadAs(n, k, du, reply), s, ue, c, exact)
  {
    if Started(n, s) && Serving(n.socks[s]) {
      if n.up[k].q.ue == ue {
        assert FrameOk(n, k);
        OwnReadingIsTold(n, k, du, reply, s);
        HeldBySnoc(Told(n, s), Heard(n.up[k].q, reply), ue, c);
      } else {
        OthersReadingKeepsTold(topo, n, k, du, reply, s);
      }
    }
  }

  lemma DuReadsKeepsBelief(cfg: Config, topo: Topology, n: Net, k: Key, s: SockId, ue: UeId, c: CellId, exact: bool)
    requires cfg.Valid() && WireOk(n) && SocksOk(topo, n) && FramesOk(n) && ue != "" && SoleFor(n, s, ue)
    requires Possible(topo, n, DuReads(k)) && Belief(n, s, ue, c, exact)
    ensures Belief(Network.Next(cfg, topo, n, DuReads(k)), s, ue, c, exact)
  {
    DuReadsIsReadAs(cfg, topo, n, k);
    ReadingFollowsRule(cfg, n, k, ue, c);
    ReadKeepsBelief(topo, n, k, AfterReading(cfg, n, k), Answer(cfg, n, k), s, ue, c, exact);
  }

  lemma OtherMoveKeepsBelief(cfg: Config, topo: Topology, n: Net, a: Move, s: SockId, ue: UeId, c: CellId, exact: bool)
    requires cfg.Valid() && Possible(topo, n, a) && Permits(OneUeEach, n, a) && !a.DuReads?
    requires WireOk(n) && SocksOk(topo, n) && Named(n) && HoldersKnown(n)
    requires SoleFor(n, s, ue) && Belief(n, s, ue, c, exact)
    requires exact ==> !a.DuLoses?
    requires var n' := Network.Next(cfg, topo, n, a); Started(n', s) ==> n'.socks[s].ue == ue && n'.socks[s].cell == c
    ensures Belief(Network.Next(cfg, topo, n, a), s, ue, c, exact)
  {
    if About(a, s) {
      OwnMoveKeepsTold(cfg, topo, n, a, s);
    } else {
      OtherMoveKeepsTold(cfg, topo, n, a, s);
    }
    OnlyReadingGrants(cfg, topo, n, a, ue, c);
    if s in n.socks {
      MoveKeepsUe(cfg, topo, n, a, s);
    }
    ToldKeepsBelief(n, Network.Next(cfg, topo, n, a), s, ue, c, exact);
  }

  // ---- every run ----

  ghost predicate NoLoss(run: seq<Move>) {
    forall a | a in run :: !a.DuLoses?
  }

  /** What the end of a run says about a socket and its UE holds before it, too. */
  lemma EndTells(cfg: Config, topo: Topology, n: Net, run: seq<Move>, end: Net, s: SockId)
    requires cfg.Valid() && Reaches(cfg, topo, OneUeEach, n, run, end)
    requires Started(end, s) && SoleFor(end, s, end.socks[s].ue)
    ensures SoleFor(n, s, end.socks[s].ue)
    ensures Started(n, s) ==> n.socks[s].ue == end.socks[s].ue && n.socks[s].cell == end.socks[s].cell
  {
    forall v | v in n.socks && v != s ensures n.socks[v].ue != end.socks[s].ue {
      RunKeepsUe(cfg, topo, n, run, end, v);
    }
    if s in n.socks {
      RunKeepsUe(cfg, topo, n, run, end, s);
    }
  }

  lemma MoveKeepsBelief(cfg: Config, topo: Topology, n: Net, a: Move, s: SockId, ue: UeId, c: CellId, exact: bool)
    requires cfg.Valid() && topo.Valid() && Possible(topo, n, a) && Permits(OneUeEach, n, a) && (exact ==> !a.DuLoses?)
    requires Known(topo, n) && Belief(n, s, ue, c, exact) && ue != "" && SoleFor(n, s, ue)
    requires var n' := Network.Next(cfg, topo, n, a); Started(n', s) ==> n'.socks[s].ue == ue && n'.socks[s].cell == c
    ensures Belief(Network.Next(cfg, topo, n, a), s, ue, c, exact)
  {
    if a.DuReads? {
      DuReadsKeepsBelief(cfg, topo, n, a.key, s, ue, c, exact);
    } else {
      OtherMoveKeepsBelief(cfg, topo, n, a, s, ue, c, exact);
    }
  }

  ghost predicate Known(topo: Topology, n: Net) {
    Shape(topo, n) && Named(n) && HoldersKnown(n)
  }

  lemma MoveKeepsKnown(cfg: Config, topo: Topology, n: Net, a: Move)
    requires cfg.Valid() && topo.Valid() && Possible(topo, n, a) && Permits(OneUeEach, n, a) && Known(topo, n)
    ensures Known(topo, Network.Next(cfg, topo, n, a))
  {
    MoveKeepsShape(cfg, topo, n, a);
    MoveKeepsNamed(cfg, topo, n, a);
    MoveKeepsHolders(cfg, topo, n, a);
  }

  lemma {:induction false} RunKeepsBelief(
    cfg: Config, topo: Topology, n: Net, run: seq<Move>, end: Net, s: SockId, exact: bool)
    requires cfg.Valid() && topo.Valid() && Reaches(cfg, topo, OneUeEach, n, run, end) && (exact ==> NoLoss(run))
    requires Started(end, s) && SoleFor(end, s, end.socks[s].ue)
    requires Known(topo, n) && Belief(n, s, end.socks[s].ue, end.socks[s].cell, exact)
    ensures Known(topo, end) && Belief(end, s, end.socks[s].ue, end.socks[s].cell, exact)
    decreases |run|
  {
    if run != [] {
      var next := Network.Next(cfg, topo, n, run[0]);
      EndTells(cfg, topo, n, run, end, s);
      EndTells(cfg, topo, next, run[1..], end, s);
      MoveKeepsBelief(cfg, topo, n, run[0], s, end.socks[s].ue, end.socks[s].cell, exact);
      MoveKeepsKnown(cfg, topo, n, run[0]);
      RunKeepsBelief(cfg, topo, next, run[1..], end, s, exact);
    }
  }

  // ---- the DU's log ----

  /** The DU holds a grant only if its log says so; and if nothing was lost, also the other way round. */
  ghost predicate LogTells(n: Net, ue: UeId, c: CellId, exact: bool) {
    && (Holds(n.du.cells, ue, c) ==> HeldBy(n.log, ue, c))
    && (exact && HeldBy(n.log, ue, c) ==> Holds(n.du.cells, ue, c))
  }

  lemma SendingKeepsLog(n: Net, s: SockId, w: Option<LinkId>)
    requires s in n.socks && n.socks[s].phase.Queued?
    ensures Sending(n, s, w).log == n.log
  {
  }

  lemma OnlyReadingIsLogged(cfg: Config, topo: Topology, n: Net, a: Move)
    requires cfg.Valid() && Possible(topo, n, a) && !a.DuReads?
    ensures Network.Next(cfg, topo, n, a).log == n.log
  {
    if a.Transmit? {
      SendingKeepsLog(n, a.sock, n.rus[n.socks[a.sock].ru].writer);
    }
  }

  lemma ReadingIsLogged(cfg: Config, topo: Topology, n: Net, k: Key, ue: UeId, c: CellId, exact: bool)
    requires cfg.Valid() && Possible(topo, n, DuReads(k)) && LogTells(n, ue, c, exact)
    ensures LogTells(Network.Next(cfg, topo, n, DuReads(k)), ue, c, exact)
  {
    DuReadsIsReadAs(cfg, topo, n, k);
    ReadingFollowsRule(cfg, n, k, ue, c);
    HeldBySnoc(n.log, Heard(n.up[k].q, Answer(cfg, n, k)), ue, c);
  }

  /**
   On any run, whatever the UEs send and whatever fails, the DU's books follow from the exchanges
   it answered, in their order: it holds a grant only if they say so, and exactly then if it lost
   no link.
   */
  lemma {:induction false} BooksFollowLog(
    cfg: Config, topo: Topology, d: Conduct, n: Net, run: seq<Move>, end: Net, ue: UeId, c: CellId, exact: bool)
    requires cfg.Valid() && Reaches(cfg, topo, d, n, run, end) && (exact ==> NoLoss(run)) && LogTells(n, ue, c, exact)
    ensures LogTells(end, ue, c, exact)
    decreases |run|
  {
    if run != [] {
      if run[0].DuReads? {
        ReadingIsLogged(cfg, topo, n, run[0].key, ue, c, exact);
      } else {
        OnlyReadingIsLogged(cfg, topo, n, run[0]);
        OnlyReadingGrants(cfg, topo, n, run[0], ue, c);
      }
      BooksFollowLog(cfg, topo, d, Network.Next(cfg, topo, n, run[0]), run[1..], end, ue, c, exact);
    }
  }

  // ---- the final uplink ----

  /** A grant nobody and nothing will give back. */
  ghost predicate Leaks(n: Net, ue: UeId, c: CellId) {
    Holds(n.du.cells, ue, c) && !Backed(n, ue, c)
  }

  /** The final uplink of a serving task has just been answered. */
  ghost predicate FinalAnswered(topo: Topology, n: Net, s: SockId) {
    && Possible(topo, n, Resume(s, true))
    && IsFinal(n.socks[s].phase.q) && !n.socks[s].closing && n.socks[s].ue != ""
  }

  lemma FinalServes(topo: Topology, n: Net, s: SockId)
    requires FinalAnswered(topo, n, s)
    ensures Started(n, s) && Serving(n.socks[s])
  {
  }

  lemma StartKnown(topo: Topology)
    ensures Known(topo, Network.Start(topo))
  {
    StartShape(topo);
  }

  lemma BelievedAtTheEnd(cfg: Config, topo: Topology, run: seq<Move>, n: Net, s: SockId, exact: bool)
    requires cfg.Valid() && topo.Valid() && Reaches(cfg, topo, OneUeEach, Network.Start(topo), run, n)
    requires exact ==> NoLoss(run)
    requires Started(n, s) && SoleFor(n, s, n.socks[s].ue)
    ensures Known(topo, n) && Belief(n, s, n.socks[s].ue, n.socks[s].cell, exact)
  {
    StartKnown(topo);
    StartBelief(topo, s, n.socks[s].ue, n.socks[s].cell, exact);
    RunKeepsBelief(cfg, topo, Network.Start(topo), run, n, s, exact);
  }

  lemma FinalTells(cfg: Config, topo: Topology, n: Net, s: SockId)
    requires cfg.Valid() && WireOk(n) && SocksOk(topo, n) && FinalAnswered(topo, n, s)
    ensures HeardBy(Network.Next(cfg, topo, n, Resume(s, true)), s) == Told(n, s)
    ensures Network.Next(cfg, topo, n, Resume(s, true)).du == n.du
  {
    AnsweredLeftTheWire(topo, n, n.socks[s]);
  }

  /** Whatever was lost on the way, a grant that outlives the final uplink is one the socket was last told it has. */
  lemma LeakWasTold(cfg: Config, topo: Topology, run: seq<Move>, n: Net, s: SockId)
    requires cfg.Valid() && topo.Valid() && Reaches(cfg, topo, OneUeEach, Network.Start(topo), run, n)
    requires FinalAnswered(topo, n, s) && SoleFor(n, s, n.socks[s].ue)
    ensures var n' := Network.Next(cfg, topo, n, Resume(s, true));
      Holds(n'.du.cells, n.socks[s].ue, n.socks[s].cell) ==> HeldBy(HeardBy(n', s), n.socks[s].ue, n.socks[s].cell)
  {
    FinalServes(topo, n, s);
    BelievedAtTheEnd(cfg, topo, run, n, s, false);
    FinalTells(cfg, topo, n, s);
  }

  /** Nothing of this UE's is on the wire any more. */
  lemma FinalWasTheLast(topo: Topology, n: Net, s: SockId, k: Key)
    requires WireOk(n) && SocksOk(topo, n) && FramesOk(n) && FinalAnswered(topo, n, s) && SoleFor(n, s, n.socks[s].ue)
    requires k in n.up
    ensures n.up[k].q.ue != n.socks[s].ue
  {
    AnsweredLeftTheWire(topo, n, n.socks[s]);
    assert FrameOk(n, k);
  }

  lemma ClosedBacksNothing(n: Net, s: SockId, v: Sock, h: map<SockId, seq<Heard>>)
    requires s in n.socks && v.phase == Closed && !v.closing && SoleFor(n, s, n.socks[s].ue)
    requires forall k | k in n.up :: n.up[k].q.ue != n.socks[s].ue
    requires forall l | l in n.du.conns :: Current(n, l)
    ensures !Backed(WithSock(n, s, v).(heard := h), n.socks[s].ue, n.socks[s].cell)
  {
  }

  lemma FinalLeavesNoBacker(cfg: Config, topo: Topology, n: Net, s: SockId)
    requires cfg.Valid() && WireOk(n) && SocksOk(topo, n) && FramesOk(n)
    requires FinalAnswered(topo, n, s) && SoleFor(n, s, n.socks[s].ue)
    requires forall l | l in n.du.conns :: Current(n, l)
    ensures !Backed(Network.Next(cfg, topo, n, Resume(s, true)), n.socks[s].ue, n.socks[s].cell)
  {
    forall k | k in n.up ensures n.up[k].q.ue != n.socks[s].ue {
      FinalWasTheLast(topo, n, s, k);
    }
    ClosedBacksNothing(n, s, AfterReply(n.socks[s], n.socks[s].phase.q, true),
                       Network.Next(cfg, topo, n, Resume(s, true)).heard);
  }

  /** No other socket is still open for this UE and cell. */
  ghost predicate LastOpen(n: Net, s: SockId) {
    && s in n.socks
    && forall v | v in n.socks && v != s && n.socks[v].ue == n.socks[s].ue && n.socks[v].cell == n.socks[s].cell ::
         n.socks[v].phase == Closed
  }

  /** Nothing for this UE and cell is on a live link any more. */
  lemma NothingUnderWay(topo: Topology, n: Net, s: SockId, k: Key)
    requires WireOk(n) && SocksOk(topo, n) && FramesOk(n) && FinalAnswered(topo, n, s) && LastOpen(n, s)
    requires k in n.up && Current(n, n.up[k].link)
    ensures n.up[k].q.ue != n.socks[s].ue || n.up[k].q.cell != n.socks[s].cell
  {
    AnsweredLeftTheWire(topo, n, n.socks[s]);
    assert FrameOk(n, k);
    assert k == Key(k.ru, k.txn);
  }

  lemma LastCloses(n: Net, s: SockId, v: Sock, h: map<SockId, seq<Heard>>)
    requires LastOpen(n, s) && v.phase == Closed && !v.closing && v.ue == n.socks[s].ue && v.cell == n.socks[s].cell
    requires forall l | l in n.du.conns :: Current(n, l)
    requires forall k | k in n.up && Current(n, n.up[k].link) ::
      n.up[k].q.ue != n.socks[s].ue || n.up[k].q.cell != n.socks[s].cell
    ensures !Backed(WithSock(n, s, v).(heard := h), n.socks[s].ue, n.socks[s].cell)
  {
    assert forall l :: Current(WithSock(n, s, v).(heard := h), l) == Current(n, l);
  }

  lemma LastLeavesNoBacker(cfg: Config, topo: Topology, n: Net, s: SockId)
    requires cfg.Valid() && WireOk(n) && SocksOk(topo, n) && FramesOk(n) && FinalAnswered(topo, n, s) && LastOpen(n, s)
    requires forall l | l in n.du.conns :: Current(n, l)
    ensures !Backed(Network.Next(cfg, topo, n, Resume(s, true)), n.socks[s].ue, n.socks[s].cell)
  {
    forall k | k in n.up && Current(n, n.up[k].link)
      ensures n.up[k].q.ue != n.socks[s].ue || n.up[k].q.cell != n.socks[s].cell
    {
      NothingUnderWay(topo, n, s, k);
    }
    LastCloses(n, s, AfterReply(n.socks[s], n.socks[s].phase.q, true),
               Network.Next(cfg, topo, n, Resume(s, true)).heard);
  }

  lemma ReachedInShape(cfg: Config, topo: Topology, run: seq<Move>, n: Net)
    requires cfg.Valid() && topo.Valid() && Reaches(cfg, topo, Anything, Network.Start(topo), run, n)
    ensures WireOk(n) && SocksOk(topo, n) && FramesOk(n)
  {
    StartShape(topo);
    RunKeepsShape(cfg, topo, Anything, Network.Start(topo), run, n);
  }

  lemma FinalKeepsBooks(cfg: Config, topo: Topology, n: Net, s: SockId)
    requires cfg.Valid() && FinalAnswered(topo, n, s)
    ensures var n' := Network.Next(cfg, topo, n, Resume(s, true)); n'.du == n.du && n'.log == n.log
  {
  }

  /**
   Exactly when the final uplink leaks, whatever the UEs send, on every run in which the DU loses
   no link, for a UE that may have used any number of sockets and cells, as long as no other
   socket is open for this UE and cell and no RU has given up a link: when the exchanges the DU
   answered for the UE, on all its sockets, say it has a grant there.
   */
  lemma FinalUplinkLeaksIff(cfg: Config, topo: Topology, run: seq<Move>, n: Net, s: SockId)
    requires cfg.Valid() && topo.Valid() && Reaches(cfg, topo, Anything, Network.Start(topo), run, n) && NoLoss(run)
    requires FinalAnswered(topo, n, s) && LastOpen(n, s)
    requires forall l | l in n.du.conns :: Current(n, l)
    ensures var n' := Network.Next(cfg, topo, n, Resume(s, true));
      Leaks(n', n.socks[s].ue, n.socks[s].cell) <==> HeldBy(n'.log, n.socks[s].ue, n.socks[s].cell)
  {
    ReachedInShape(cfg, topo, run, n);
    BooksFollowLog(cfg, topo, Anything, Network.Start(topo), run, n, n.socks[s].ue, n.socks[s].cell, true);
    FinalKeepsBooks(cfg, topo, n, s);
    LastLeavesNoBacker(cfg, topo, n, s);
  }

  /**
   The same for a UE with one socket, among UEs that stay on one UE id and one cell, in terms of
   what that socket itself sent and had answered.
   */
  lemma SoleSocketLeaksIff(cfg: Config, topo: Topology, run: seq<Move>, n: Net, s: SockId)
    requires cfg.Valid() && topo.Valid() && Reaches(cfg, topo, OneUeEach, Network.Start(topo), run, n) && NoLoss(run)
    requires FinalAnswered(topo, n, s) && SoleFor(n, s, n.socks[s].ue)
    requires forall l | l in n.du.conns :: Current(n, l)
    ensures var n' := Network.Next(cfg, topo, n, Resume(s, true));
      Leaks(n', n.socks[s].ue, n.socks[s].cell) <==> HeldBy(HeardBy(n', s), n.socks[s].ue, n.socks[s].cell)
  {
    FinalServes(topo, n, s);
    BelievedAtTheEnd(cfg, topo, run, n, s, true);
    FinalTells(cfg, topo, n, s);
    FinalLeavesNoBacker(cfg, topo, n, s);
  }
}
