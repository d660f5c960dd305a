/**
 What every run of UEs, RUs and DU keeps when the UEs keep to their discipline: no PRB is
 held for nobody, whatever fails.
 */
module NetworkSafety {
  import opened Collections
  import opened Signalling
  import opened Du
  import opened DuRuns
  import opened F1Link
  import opened Network
  import opened NetworkShape
  import opened NetworkReplies

  // ---- the invariant ----

  /** A task that will still see to the release of its grant over link l. */
  ghost predicate Tends(n: Net, s: Sock, l: LinkId) {
    if !s.closing then s.phase != Closed
    else match s.phase
      case Calling(_) => true
      case Queued(_, _) => true
      case Sent(_, t) => Key(s.ru, t) in n.up && n.up[Key(s.ru, t)].link == l
      case _ => false
  }

  /**
   Every grant came about over a live link that carried its cell; if the RU still uses that
   link, its task tends to it.
   */
  ghost predicate GrantTraced(n: Net, ue: UeId, c: CellId) {
    && (ue, c) in n.origin
    && var o := n.origin[(ue, c)];
    && o.link in n.du.conns && c in n.du.conns[o.link]
    && o.link in n.owner
    && o.sock in n.socks
    && var s := n.socks[o.sock];
    && s.ue == ue && s.cell == c && s.ue != "" && s.ru == n.owner[o.link]
    && (Current(n, o.link) ==> Tends(n, s, o.link))
  }

  ghost predicate GrantsTraced(n: Net) {
    forall ue, c | Holds(n.du.cells, ue, c) :: GrantTraced(n, ue, c)
  }

  /** No grant of this socket's is held. */
  ghost predicate OwnsNothing(n: Net, s: SockId) {
    forall ue, c | Holds(n.du.cells, ue, c) && (ue, c) in n.origin :: n.origin[(ue, c)].sock != s
  }

  /** Between an answered release request and the next admission a socket, seen as v, owns nothing. */
  ghost predicate Heeds(n: Net, s: SockId, v: Sock) {
    Serving(v) ==>
      && (v.phase.Sent? && StepOf(v.phase.q) == Some(ReleaseRequest) && Held(v).value in n.served ==> OwnsNothing(n, s))
      && (v.answered == Some(ReleaseRequest) && (Busy(v).Some? ==> StepOf(Busy(v).value) != Some(ContextSetup)) ==>
            OwnsNothing(n, s))
      && (Busy(v).Some? && IsFinal(Busy(v).value) ==> v.answered == Some(ReleaseRequest))
  }

  ghost predicate ReleaseHeeded(n: Net, s: SockId) {
    s in n.socks ==> Heeds(n, s, n.socks[s])
  }

  ghost predicate ReleasesHeeded(n: Net) {
    forall s | s in n.socks :: ReleaseHeeded(n, s)
  }

  ghost predicate Backing(n: Net) {
    GrantsTraced(n) && ReleasesHeeded(n)
  }

  /** Whoever has sent something has a UE id. */
  ghost predicate Named(n: Net) {
    && (forall s | s in n.socks && Busy(n.socks[s]).Some? :: n.socks[s].ue != "")
    && (forall k | k in n.up :: n.up[k].sock in n.socks && n.socks[n.up[k].sock].ue != "")
  }

  ghost predicate Inv(cfg: Config, topo: Topology, n: Net)
    requires cfg.Valid()
  {
    ServerOk(cfg, n.du) && Shape(topo, n) && Named(n) && Backing(n)
  }

  lemma StartInv(cfg: Config, topo: Topology)
    requires cfg.Valid() && topo.Valid()
    ensures Inv(cfg, topo, Network.Start(topo))
  {
    StartShape(topo);
  }

  // ---- the DU's own state, and sockets with a UE id ----

  lemma MoveKeepsServer(cfg: Config, topo: Topology, n: Net, a: Move)
    requires cfg.Valid() && Possible(topo, n, a) && ServerOk(cfg, n.du)
    ensures ServerOk(cfg, Network.Next(cfg, topo, n, a).du)
  {
    match a {
      case Connect(_, l) => StepKeepsServerOk(cfg, n.du, LinkUp(l));
      case DuReads(k) => StepKeepsServerOk(cfg, n.du, Deliver(n.up[k].link, n.up[k].q));
      case DuLoses(l) => StepKeepsServerOk(cfg, n.du, LinkDown(l));
      case _ => OtherMovesKeepDu(cfg, topo, n, a);
    }
  }

  /** The socket keeps its UE id, and has one if it is busy. */
  predicate StaysNamed(n: Net, s: SockId, v: Sock) {
    (s in n.socks && n.socks[s].ue != "") || Busy(v).Some? ==> v.ue != ""
  }

  lemma SockKeepsNamed(n: Net, s: SockId, v: Sock)
    requires Named(n) && StaysNamed(n, s, v)
    ensures Named(WithSock(n, s, v))
  {
  }

  /** Nothing that names sockets differs. */
  lemma SameNamed(n: Net, n': Net)
    requires Named(n) && n'.socks == n.socks && (forall k | k in n'.up :: k in n.up && n'.up[k] == n.up[k])
    ensures Named(n')
  {
  }

  lemma SendingKeepsNamed(n: Net, s: SockId, w: Option<LinkId>)
    requires Named(n) && s in n.socks && n.socks[s].phase.Queued?
    ensures Named(Sending(n, s, w))
  {
  }

  lemma BreakKeepsNamed(n: Net, s: SockId)
    requires Named(n) && s in n.socks && n.socks[s].ru in n.rus
    ensures Named(BreakUnder(n, s))
  {
    SameNamed(n, BrokenUnder(n, s));
    SockKeepsNamed(BrokenUnder(n, s), s, Unwind(n.socks[s]));
  }

  lemma CrashKeepsNamed(n: Net, r: RuId, again: RuId)
    requires Named(n) && r in n.rus && r in n.site
    ensures Named(Crashed(n, r, again))
  {
  }

  lemma UeMoveKeepsNamed(cfg: Config, topo: Topology, n: Net, a: Move)
    requires cfg.Valid() && Named(n) && Possible(topo, n, a) && Permits(OneUeEach, n, a)
    requires a.Open? || a.Uplink? || a.Vanish?
    ensures Named(Network.Next(cfg, topo, n, a))
  {
    match a {
      case Open(s, r) => SockKeepsNamed(n, s, NewSock(topo, n, r));
      case Uplink(s, q, _, _) => SockKeepsNamed(n, s, Asking(n.socks[s], q));
      case Vanish(s) => SockKeepsNamed(n, s, Unwind(n.socks[s]));
    }
  }

  lemma TaskMoveKeepsNamed(cfg: Config, topo: Topology, n: Net, a: Move)
    requires cfg.Valid() && Named(n) && Possible(topo, n, a)
    requires a.Issue? || a.Transmit? || a.Resume? || a.TransmitFails? || a.DrainFails? || a.ResumeBroken?
    ensures Named(Network.Next(cfg, topo, n, a))
  {
    if a.Issue? {
      SameNamed(n, IssuedFor(n, a.sock));
      SockKeepsNamed(IssuedFor(n, a.sock), a.sock, Holding(n, a.sock));
    } else if a.Transmit? {
      SendingKeepsNamed(n, a.sock, n.rus[n.socks[a.sock].ru].writer);
    } else if a.Resume? {
      var v := AfterReply(n.socks[a.sock], n.socks[a.sock].phase.q, a.delivered);
      SockKeepsNamed(n, a.sock, v);
      SameNamed(WithSock(n, a.sock, v), Network.Next(cfg, topo, n, a));
    } else {
      BreakKeepsNamed(n, a.sock);
    }
  }

  lemma OtherMoveKeepsNamed(cfg: Config, topo: Topology, n: Net, a: Move)
    requires cfg.Valid() && Named(n) && Possible(topo, n, a)
    requires a.Connect? || a.DuReads? || a.DuLoses? || a.ReaderGets? || a.ReaderBreaks? || a.RuCrashes?
    ensures Named(Network.Next(cfg, topo, n, a))
  {
    if a.RuCrashes? {
      CrashKeepsNamed(n, a.ru, a.again);
    } else {
      SameNamed(n, Network.Next(cfg, topo, n, a));
    }
  }

  lemma MoveKeepsNamed(cfg: Config, topo: Topology, n: Net, a: Move)
    requires cfg.Valid() && Named(n) && Possible(topo, n, a) && Permits(OneUeEach, n, a)
    ensures Named(Network.Next(cfg, topo, n, a))
  {
    if a.Open? || a.Uplink? || a.Vanish? {
      UeMoveKeepsNamed(cfg, topo, n, a);
    } else if a.Connect? || a.DuReads? || a.DuLoses? || a.ReaderGets? || a.ReaderBreaks? || a.RuCrashes? {
      OtherMoveKeepsNamed(cfg, topo, n, a);
    } else {
      TaskMoveKeepsNamed(cfg, topo, n, a);
    }
  }

  // ---- backing: when only queues and futures move, and when one socket changes ----

  lemma SceneKeepsGrants(n: Net, n': Net)
    requires SameScene(n, n') && GrantsTraced(n)
    ensures GrantsTraced(n')
  {
    forall ue, c | Holds(n'.du.cells, ue, c) ensures GrantTraced(n', ue, c) {
      assert GrantTraced(n, ue, c);
      var o := n.origin[(ue, c)];
      assert Tends(n', n.socks[o.sock], o.link) == Tends(n, n.socks[o.sock], o.link);
    }
  }

  lemma SceneKeepsHeeded(n: Net, n': Net)
    requires SameScene(n, n') && ReleasesHeeded(n)
    ensures ReleasesHeeded(n')
  {
    forall s | s in n'.socks ensures ReleaseHeeded(n', s) {
      assert ReleaseHeeded(n, s);
      assert OwnsNothing(n, s) ==> OwnsNothing(n', s);
    }
  }

  lemma SceneKeepsBacking(n: Net, n': Net)
    requires SameScene(n, n') && Backing(n)
    ensures Backing(n')
  {
    SceneKeepsGrants(n, n');
    SceneKeepsHeeded(n, n');
  }

  /** The changed socket goes on tending to what it tended to, or has nothing to tend to. */
  ghost predicate TendsOn(n: Net, s: SockId, v: Sock) {
    s in n.socks && n.socks[s].ue != "" && !OwnsNothing(n, s) ==>
      forall l | Current(n, l) && n.owner[l] == v.ru && Tends(n, n.socks[s], l) :: Tends(n, v, l)
  }

  /** It is also the same UE's, and still heeds its release. */
  ghost predicate SockBacks(n: Net, s: SockId, v: Sock) {
    && (s in n.socks ==>
          v.ru == n.socks[s].ru && (n.socks[s].ue != "" ==> v.ue == n.socks[s].ue && v.cell == n.socks[s].cell))
    && TendsOn(n, s, v)
    && Heeds(n, s, v)
  }

  /** A changed socket has no part in who tends to what. */
  lemma SockKeepsTends(n: Net, s: SockId, v: Sock, w: Sock, l: LinkId)
    ensures Current(WithSock(n, s, v), l) == Current(n, l)
    ensures Tends(WithSock(n, s, v), w, l) == Tends(n, w, l)
  {
  }

  lemma SockKeepsGrants(n: Net, s: SockId, v: Sock)
    requires GrantsTraced(n) && SockBacks(n, s, v)
    ensures GrantsTraced(WithSock(n, s, v))
  {
    var n' := WithSock(n, s, v);
    forall ue, c | Holds(n'.du.cells, ue, c) ensures GrantTraced(n', ue, c) {
      assert GrantTraced(n, ue, c);
      var o := n.origin[(ue, c)];
      SockKeepsTends(n, s, v, n'.socks[o.sock], o.link);
      assert o.sock == s ==> !OwnsNothing(n, s);
    }
  }

  lemma SockKeepsHeeded(n: Net, s: SockId, v: Sock)
    requires ReleasesHeeded(n) && SockBacks(n, s, v)
    ensures ReleasesHeeded(WithSock(n, s, v))
  {
    var n' := WithSock(n, s, v);
    forall x | x in n'.socks ensures ReleaseHeeded(n', x) {
      assert ReleaseHeeded(n, x);
      assert OwnsNothing(n, x) ==> OwnsNothing(n', x);
    }
  }

  lemma SockKeepsBacking(n: Net, s: SockId, v: Sock)
    requires Backing(n) && SockBacks(n, s, v)
    ensures Backing(WithSock(n, s, v))
  {
    SockKeepsGrants(n, s, v);
    SockKeepsHeeded(n, s, v);
  }

  // ---- socket moves ----

  lemma OpenBacks(topo: Topology, n: Net, s: SockId, r: RuId)
    requires s !in n.socks && r in n.site && n.site[r] in topo.first
    ensures SockBacks(n, s, NewSock(topo, n, r))
  {
  }

  lemma UplinkBacks(n: Net, s: SockId, q: Request)
    requires s in n.socks && n.socks[s].phase == Reading && !n.socks[s].closing && Disciplined(n.socks[s], q)
    requires ReleaseHeeded(n, s)
    ensures SockBacks(n, s, Asking(n.socks[s], q))
  {
  }

  /** A task that leaves serve_ue's loop sees to its grants, or no link is current any more. */
  lemma UnwindBacks(n: Net, s: SockId)
    requires s in n.socks && n.socks[s].ru in n.rus
    requires (n.socks[s].phase == Reading && !n.socks[s].closing) || n.rus[n.socks[s].ru].writer.None?
    ensures SockBacks(n, s, Unwind(n.socks[s]))
  {
  }

  lemma ResumeBacks(n: Net, s: SockId, delivered: bool)
    requires s in n.socks && n.socks[s].phase.Sent? && n.socks[s].ue != "" && ReleaseHeeded(n, s)
    requires Held(n.socks[s]).value in n.served && Held(n.socks[s]).value !in n.up
    ensures SockBacks(n, s, AfterReply(n.socks[s], n.socks[s].phase.q, delivered))
  {
  }

  lemma ResumeKeepsBacking(topo: Topology, n: Net, s: SockId, delivered: bool, h: map<SockId, seq<Heard>>)
    requires WireOk(n) && SocksOk(topo, n) && Named(n) && Backing(n) && Possible(topo, n, Resume(s, delivered))
    ensures Backing(WithSock(n, s, AfterReply(n.socks[s], n.socks[s].phase.q, delivered)).(heard := h))
  {
    assert SockOk(topo, n, n.socks[s]);
    var v := AfterReply(n.socks[s], n.socks[s].phase.q, delivered);
    AnsweredLeftTheWire(topo, n, n.socks[s]);
    ResumeBacks(n, s, delivered);
    SockKeepsBacking(n, s, v);
    SideIsSameScene(WithSock(n, s, v), h, n.down);
    SceneKeepsBacking(WithSock(n, s, v), WithSock(n, s, v).(heard := h));
  }

  /** The link breaks under one of its callers. */
  lemma BreakUnderKeepsBacking(n: Net, s: SockId)
    requires FuturesOk(n) && WireOk(n) && Backing(n) && s in n.socks && n.socks[s].ru in n.rus
    ensures Backing(BreakUnder(n, s))
  {
    var r := n.socks[s].ru;
    var m := BrokenUnder(n, s);
    BreakIsRuChange(n, r);
    RuIsSameScene(n, r, Abandon(n.rus[r]));
    SceneKeepsBacking(n, m);
    UnwindBacks(m, s);
    SockKeepsBacking(m, s, Unwind(m.socks[s]));
    assert BreakUnder(n, s) == WithSock(m, s, Unwind(m.socks[s]));
  }

  lemma HoldingBacks(n: Net, s: SockId)
    requires s in n.socks && n.socks[s].phase.Calling? && n.socks[s].ru in n.rus && ReleaseHeeded(n, s)
    ensures SockBacks(IssuedFor(n, s), s, Holding(n, s))
  {
    assert OwnsNothing(n, s) ==> OwnsNothing(IssuedFor(n, s), s);
  }

  lemma IssueKeepsBacking(n: Net, s: SockId)
    requires FuturesOk(n) && WireOk(n) && Backing(n)
    requires s in n.socks && n.socks[s].phase.Calling? && n.socks[s].ru in n.rus
    ensures Backing(WithSock(IssuedFor(n, s), s, Holding(n, s)))
  {
    MintIsNew(n, n.socks[s].ru);
    MintIsSameScene(n, n.socks[s].ru, n.socks[s].phase.q);
    SceneKeepsBacking(n, IssuedFor(n, s));
    HoldingBacks(n, s);
    SockKeepsBacking(IssuedFor(n, s), s, Holding(n, s));
  }

  // ---- a request is written to the link ----

  lemma WrittenKeepsGrants(topo: Topology, n: Net, s: SockId, l: LinkId)
    requires GrantsTraced(n) && SocksOk(topo, n)
    requires s in n.socks && n.socks[s].phase.Queued? && n.socks[s].ru in n.rus
    requires n.rus[n.socks[s].ru].writer == Some(l)
    ensures GrantsTraced(Written(n, s, l))
  {
    var n' := Written(n, s, l);
    assert SockOk(topo, n, n.socks[s]);
    forall ue, c | Holds(n'.du.cells, ue, c) ensures GrantTraced(n', ue, c) {
      assert GrantTraced(n, ue, c);
      var o := n.origin[(ue, c)];
      assert Current(n', o.link) == Current(n, o.link);
      if Current(n, o.link) && o.sock == s {
        assert o.link == l;
      }
    }
  }

  lemma WrittenKeepsHeeded(topo: Topology, n: Net, s: SockId, l: LinkId)
    requires SocksOk(topo, n) && ReleasesHeeded(n) && s in n.socks && n.socks[s].phase.Queued?
    ensures ReleasesHeeded(Written(n, s, l))
  {
    var n' := Written(n, s, l);
    assert SockOk(topo, n, n.socks[s]);
    forall x | x in n'.socks ensures ReleaseHeeded(n', x) {
      assert ReleaseHeeded(n, x);
      assert OwnsNothing(n, x) ==> OwnsNothing(n', x);
    }
  }

  lemma TransmitKeepsBacking(cfg: Config, topo: Topology, n: Net, s: SockId)
    requires cfg.Valid() && SocksOk(topo, n) && Backing(n) && Possible(topo, n, Transmit(s))
    ensures Backing(Network.Next(cfg, topo, n, Transmit(s)))
  {
    var w := n.rus[n.socks[s].ru].writer;
    if w.None? {
      UnwindBacks(n, s);
      SockKeepsBacking(n, s, Unwind(n.socks[s]));
    } else {
      WrittenKeepsGrants(topo, n, s, w.value);
      WrittenKeepsHeeded(topo, n, s, w.value);
    }
  }

  // ---- the DU loses a link ----

  lemma LossKeepsHeeded(n: Net, du: Server)
    requires ReleasesHeeded(n)
    requires forall ue, c | Holds(du.cells, ue, c) :: Holds(n.du.cells, ue, c)
    ensures ReleasesHeeded(n.(du := du))
  {
    var n' := n.(du := du);
    forall x | x in n.socks ensures ReleaseHeeded(n', x) {
      assert ReleaseHeeded(n, x);
      assert OwnsNothing(n, x) ==> OwnsNothing(n', x);
    }
  }

  lemma LossKeepsGrants(n: Net, l: LinkId, cells: Cells)
    requires GrantsTraced(n) && l in n.du.conns
    requires forall ue, c | Holds(cells, ue, c) :: Holds(n.du.cells, ue, c) && c !in n.du.conns[l]
    ensures GrantsTraced(n.(du := Server(cells, n.du.conns - {l})))
  {
    var n' := n.(du := Server(cells, n.du.conns - {l}));
    forall ue, c | Holds(n'.du.cells, ue, c) ensures GrantTraced(n', ue, c) {
      assert GrantTraced(n, ue, c);
      var o := n.origin[(ue, c)];
      assert o.link != l;
      assert Current(n', o.link) == Current(n, o.link);
      assert Tends(n', n.socks[o.sock], o.link) == Tends(n, n.socks[o.sock], o.link);
    }
  }

  lemma DuLosesKeepsBacking(cfg: Config, n: Net, l: LinkId)
    requires cfg.Valid() && Backing(n) && l in n.du.conns
    ensures Backing(n.(du := DuRuns.Next(cfg, n.du, LinkDown(l))))
  {
    var cells := LoseCells(n.du.cells, n.du.conns[l]);
    LossKeepsHeeded(n, Server(cells, n.du.conns - {l}));
    LossKeepsGrants(n, l, cells);
  }

  // ---- the DU reads a request and answers it ----

  /** What the DU's answer means for grants: only an accepted setup adds one, and a release takes the one it names. */
  ghost predicate Effect(m: Frame, before: Server, after: Server, reply: Reply) {
    && m.link in before.conns && after.conns == before.conns[m.link := Remember(before.conns[m.link], m.q.cell)]
    && (forall ue, c | Holds(after.cells, ue, c) ::
          || Holds(before.cells, ue, c)
          || (StepOf(m.q) == Some(ContextSetup) && !IsReject(reply) && ue == m.q.ue && c == m.q.cell))
    && (StepOf(m.q) == Some(ReleaseRequest) ==> !Holds(after.cells, m.q.ue, m.q.cell))
  }

  lemma ReadingHasEffect(cfg: Config, topo: Topology, n: Net, k: Key)
    requires cfg.Valid() && Possible(topo, n, DuReads(k))
    ensures Effect(n.up[k], n.du, AfterReading(cfg, n, k), Answer(cfg, n, k))
  {
    DispatchHolders(cfg, n.du.cells, n.up[k].q);
  }

  /** This request made the grant. */
  ghost predicate Makes(m: Frame, reply: Reply, ue: UeId, c: CellId) {
    StepOf(m.q) == Some(ContextSetup) && !IsReject(reply) && ue == m.q.ue && c == m.q.cell
  }

  lemma NewGrantTraced(topo: Topology, n: Net, k: Key, du: Server, reply: Reply)
    requires topo.Valid() && SocksOk(topo, n) && Named(n) && k in n.up && FrameOk(n, k)
    requires Effect(n.up[k], n.du, du, reply) && Makes(n.up[k], reply, n.up[k].q.ue, n.up[k].q.cell)
    ensures GrantTraced(ReadAs(n, k, du, reply), n.up[k].q.ue, n.up[k].q.cell)
  {
    var n' := ReadAs(n, k, du, reply);
    var m := n.up[k];
    assert SockOk(topo, n, n.socks[m.sock]);
    assert m.q.cell != "" && m.q.cell in n'.du.conns[m.link];
    assert Current(n', m.link) == Current(n, m.link);
    if Current(n, m.link) {
      assert n.socks[m.sock].phase == Sent(m.q, k.txn);
      assert StepOf(ReleaseFor(n.socks[m.sock])) == Some(ReleaseRequest);
      assert !n.socks[m.sock].closing;
    }
  }

  /** A task that is closing waits for its synthetic release. */
  lemma ClosingReleases(topo: Topology, n: Net, s: Sock, k: Key)
    requires SockOk(topo, n, s) && k in n.up && KeyOk(n, k) && s.closing && Held(s) == Some(k)
    ensures n.up[k].q == ReleaseFor(s) && StepOf(n.up[k].q) == Some(ReleaseRequest)
  {
  }

  lemma KeptGrantTraced(topo: Topology, n: Net, k: Key, du: Server, reply: Reply, ue: UeId, c: CellId)
    requires SocksOk(topo, n) && k in n.up && KeyOk(n, k)
    requires Effect(n.up[k], n.du, du, reply) && !Makes(n.up[k], reply, ue, c)
    requires GrantTraced(n, ue, c) && Holds(du.cells, ue, c)
    ensures GrantTraced(ReadAs(n, k, du, reply), ue, c)
  {
    var n' := ReadAs(n, k, du, reply);
    var o := n.origin[(ue, c)];
    var s := n.socks[o.sock];
    assert SockOk(topo, n, s);
    assert Current(n', o.link) == Current(n, o.link);
    if s.closing && Held(s) == Some(k) {
      ClosingReleases(topo, n, s, k);
      assert false;
    }
  }

  lemma ReadKeepsGrants(topo: Topology, n: Net, k: Key, du: Server, reply: Reply)
    requires topo.Valid() && GrantsTraced(n) && SocksOk(topo, n)
    requires Named(n) && k in n.up && FrameOk(n, k) && KeyOk(n, k)
    requires Effect(n.up[k], n.du, du, reply)
    ensures GrantsTraced(ReadAs(n, k, du, reply))
  {
    forall ue, c | Holds(du.cells, ue, c) ensures GrantTraced(ReadAs(n, k, du, reply), ue, c) {
      if Makes(n.up[k], reply, ue, c) {
        NewGrantTraced(topo, n, k, du, reply);
      } else {
        assert GrantTraced(n, ue, c);
        KeptGrantTraced(topo, n, k, du, reply, ue, c);
      }
    }
  }

  lemma ReadKeepsOwnsNothing(n: Net, k: Key, du: Server, reply: Reply, x: SockId)
    requires GrantsTraced(n) && k in n.up && Effect(n.up[k], n.du, du, reply)
    requires OwnsNothing(n, x) && (x != n.up[k].sock || StepOf(n.up[k].q) != Some(ContextSetup))
    ensures OwnsNothing(ReadAs(n, k, du, reply), x)
  {
    var n' := ReadAs(n, k, du, reply);
    forall ue, c | Holds(n'.du.cells, ue, c) && (ue, c) in n'.origin ensures n'.origin[(ue, c)].sock != x {
      if Holds(n.du.cells, ue, c) {
        assert GrantTraced(n, ue, c);
      }
    }
  }

  /** A release request that has just been read leaves its socket with nothing. */
  lemma ReadReleaseOwnsNothing(n: Net, k: Key, du: Server, reply: Reply)
    requires GrantsTraced(n) && k in n.up && FrameOk(n, k) && Effect(n.up[k], n.du, du, reply)
    requires StepOf(n.up[k].q) == Some(ReleaseRequest)
    ensures OwnsNothing(ReadAs(n, k, du, reply), n.up[k].sock)
  {
    var n' := ReadAs(n, k, du, reply);
    forall ue, c | Holds(n'.du.cells, ue, c) && (ue, c) in n'.origin ensures n'.origin[(ue, c)].sock != n.up[k].sock {
      assert GrantTraced(n, ue, c);
    }
  }

  lemma ReadKeepsHeeded(topo: Topology, n: Net, k: Key, du: Server, reply: Reply, x: SockId)
    requires GrantsTraced(n) && SocksOk(topo, n) && k in n.up && FrameOk(n, k) && KeyOk(n, k)
    requires Effect(n.up[k], n.du, du, reply) && x in n.socks && ReleaseHeeded(n, x)
    ensures ReleaseHeeded(ReadAs(n, k, du, reply), x)
  {
    var sock := n.socks[x];
    var m := n.up[k];
    assert SockOk(topo, n, sock);
    if Held(sock) == Some(k) && StepOf(m.q) == Some(ReleaseRequest) {
      assert m.sock == x;
      ReadReleaseOwnsNothing(n, k, du, reply);
    } else if OwnsNothing(n, x) && (x != m.sock || StepOf(m.q) != Some(ContextSetup)) {
      ReadKeepsOwnsNothing(n, k, du, reply, x);
    }
  }

  lemma ReadKeepsBacking(topo: Topology, n: Net, k: Key, du: Server, reply: Reply)
    requires topo.Valid() && Backing(n) && Named(n) && SocksOk(topo, n) && k in n.up && FrameOk(n, k) && KeyOk(n, k)
    requires Effect(n.up[k], n.du, du, reply)
    ensures Backing(ReadAs(n, k, du, reply))
  {
    ReadKeepsGrants(topo, n, k, du, reply);
    forall x | x in n.socks ensures ReleaseHeeded(ReadAs(n, k, du, reply), x) {
      ReadKeepsHeeded(topo, n, k, du, reply, x);
    }
  }

  lemma DuReadsKeepsBacking(cfg: Config, topo: Topology, n: Net, k: Key)
    requires cfg.Valid() && topo.Valid() && WireOk(n) && SocksOk(topo, n) && FramesOk(n) && Named(n) && Backing(n)
    requires Possible(topo, n, DuReads(k))
    ensures Backing(Network.Next(cfg, topo, n, DuReads(k)))
  {
    ReadingHasEffect(cfg, topo, n, k);
    DuReadsIsReadAs(cfg, topo, n, k);
    ReadKeepsBacking(topo, n, k, AfterReading(cfg, n, k), Answer(cfg, n, k));
  }

  // ---- moves of the F1 link, and a crash ----

  lemma ReaderGetsKeepsBacking(n: Net, k: Key)
    requires FuturesOk(n) && WireOk(n) && Backing(n) && k in n.down && k.ru in n.rus && n.rus[k.ru].loop.Some?
    ensures Backing(WithRu(Without(n, k), k.ru, Taken(n, k)))
  {
    assert KeyOk(n, k);
    ForgetReplyKeepsWire(n, k);
    SideIsSameScene(n, n.heard, n.down - {k});
    SceneKeepsBacking(n, Without(n, k));
    TakeReplyIsRuChange(Without(n, k), k, n.down[k].reply);
    RuIsSameScene(Without(n, k), k.ru, Taken(n, k));
    SceneKeepsBacking(Without(n, k), WithRu(Without(n, k), k.ru, Taken(n, k)));
  }

  lemma ReaderBreaksKeepsBacking(n: Net, r: RuId)
    requires FuturesOk(n) && WireOk(n) && Backing(n) && r in n.rus
    ensures Backing(WithRu(n, r, ReaderFails(n.rus[r])))
  {
    BreakIsRuChange(n, r);
    RuIsSameScene(n, r, ReaderFails(n.rus[r]));
    SceneKeepsBacking(n, WithRu(n, r, ReaderFails(n.rus[r])));
  }

  lemma CrashKeepsGrants(n: Net, r: RuId, again: RuId)
    requires LinksOk(n) && GrantsTraced(n) && r in n.rus && r in n.site && again !in n.rus
    ensures GrantsTraced(Crashed(n, r, again))
  {
    var n' := Crashed(n, r, again);
    CrashedLinks(n, r, again);
    forall ue, c | Holds(n'.du.cells, ue, c) ensures GrantTraced(n', ue, c) {
      assert GrantTraced(n, ue, c);
    }
  }

  lemma CrashKeepsHeeded(n: Net, r: RuId, again: RuId)
    requires ReleasesHeeded(n) && r in n.rus && r in n.site && again !in n.rus
    ensures ReleasesHeeded(Crashed(n, r, again))
  {
    var n' := Crashed(n, r, again);
    forall x | x in n'.socks ensures ReleaseHeeded(n', x) {
      assert ReleaseHeeded(n, x);
      assert OwnsNothing(n, x) ==> OwnsNothing(n', x);
    }
  }

  // ---- every move ----

  lemma UeMoveKeepsBacking(cfg: Config, topo: Topology, n: Net, a: Move)
    requires cfg.Valid() && SocksOk(topo, n) && Backing(n) && Enabled(topo, n, a)
    requires a.Open? || a.Uplink? || a.Vanish?
    ensures Backing(Network.Next(cfg, topo, n, a))
  {
    match a {
      case Open(s, r) =>
        OpenBacks(topo, n, s, r);
        SockKeepsBacking(n, s, NewSock(topo, n, r));
      case Uplink(s, q, _, _) =>
        assert SockOk(topo, n, n.socks[s]);
        UplinkBacks(n, s, q);
        SockKeepsBacking(n, s, Asking(n.socks[s], q));
      case Vanish(s) =>
        assert SockOk(topo, n, n.socks[s]);
        UnwindBacks(n, s);
        SockKeepsBacking(n, s, Unwind(n.socks[s]));
    }
  }

  lemma TaskMoveKeepsBacking(cfg: Config, topo: Topology, n: Net, a: Move)
    requires cfg.Valid() && FuturesOk(n) && WireOk(n) && SocksOk(topo, n)
    requires Named(n) && Backing(n) && Possible(topo, n, a)
    requires a.Issue? || a.Resume?
    ensures Backing(Network.Next(cfg, topo, n, a))
  {
    match a {
      case Issue(s) => IssueKeepsBacking(n, s);
      case Resume(s, delivered) => ResumeKeepsBacking(topo, n, s, delivered, Network.Next(cfg, topo, n, a).heard);
    }
  }

  lemma BreakMoveKeepsBacking(cfg: Config, topo: Topology, n: Net, a: Move)
    requires cfg.Valid() && FuturesOk(n) && WireOk(n) && Backing(n) && Possible(topo, n, a)
    requires a.ResumeBroken? || a.TransmitFails? || a.DrainFails?
    ensures Backing(Network.Next(cfg, topo, n, a))
  {
    BreakUnderKeepsBacking(n, a.sock);
  }

  lemma RuMoveKeepsBacking(cfg: Config, topo: Topology, n: Net, a: Move)
    requires cfg.Valid() && FuturesOk(n) && LinksOk(n) && WireOk(n) && Backing(n) && Possible(topo, n, a)
    requires a.Connect? || a.ReaderGets? || a.ReaderBreaks? || a.RuCrashes?
    ensures Backing(Network.Next(cfg, topo, n, a))
  {
    match a {
      case Connect(r, l) =>
        LinkedIsSameScene(n, r, l);
        SceneKeepsBacking(n, Linked(n, r, l));
      case ReaderGets(k) =>
        ReaderGetsIs(cfg, topo, n, k);
        ReaderGetsKeepsBacking(n, k);
      case ReaderBreaks(r) => ReaderBreaksKeepsBacking(n, r);
      case RuCrashes(r, again) =>
        CrashKeepsGrants(n, r, again);
        CrashKeepsHeeded(n, r, again);
    }
  }

  lemma MoveKeepsBacking(cfg: Config, topo: Topology, n: Net, a: Move)
    requires cfg.Valid() && topo.Valid() && Shape(topo, n) && Named(n) && Backing(n) && Enabled(topo, n, a)
    ensures Backing(Network.Next(cfg, topo, n, a))
  {
    if a.Open? || a.Uplink? || a.Vanish? {
      UeMoveKeepsBacking(cfg, topo, n, a);
    } else if a.Issue? || a.Resume? {
      TaskMoveKeepsBacking(cfg, topo, n, a);
    } else if a.ResumeBroken? || a.TransmitFails? || a.DrainFails? {
      BreakMoveKeepsBacking(cfg, topo, n, a);
    } else if a.Transmit? {
      TransmitKeepsBacking(cfg, topo, n, a.sock);
    } else if a.DuReads? {
      DuReadsKeepsBacking(cfg, topo, n, a.key);
    } else if a.DuLoses? {
      DuLosesKeepsBacking(cfg, n, a.link);
    } else {
      RuMoveKeepsBacking(cfg, topo, n, a);
    }
  }

  /** Each of the fifteen moves, failures and crashes included, keeps the invariant. */
  lemma MoveKeepsInv(cfg: Config, topo: Topology, n: Net, a: Move)
    requires cfg.Valid() && topo.Valid() && Inv(cfg, topo, n) && Enabled(topo, n, a)
    ensures Inv(cfg, topo, Network.Next(cfg, topo, n, a))
  {
    MoveKeepsServer(cfg, topo, n, a);
    MoveKeepsNamed(cfg, topo, n, a);
    MoveKeepsShape(cfg, topo, n, a);
    MoveKeepsBacking(cfg, topo, n, a);
  }

  // ---- every run ----

  lemma {:induction false} RunKeepsInv(cfg: Config, topo: Topology, n: Net, run: seq<Move>, end: Net)
    requires cfg.Valid() && topo.Valid() && Inv(cfg, topo, n) && Reaches(cfg, topo, Orderly, n, run, end)
    ensures Inv(cfg, topo, end)
    decreases |run|
  {
    if run != [] {
      MoveKeepsInv(cfg, topo, n, run[0]);
      RunKeepsInv(cfg, topo, Network.Next(cfg, topo, n, run[0]), run[1..], end);
    }
  }

  /** States of real runs. */
  ghost predicate Reachable(cfg: Config, topo: Topology, n: Net)
    requires cfg.Valid()
  {
    exists run :: Reaches(cfg, topo, Orderly, Network.Start(topo), run, n)
  }

  lemma ReachableInv(cfg: Config, topo: Topology, n: Net)
    requires cfg.Valid() && topo.Valid() && Reachable(cfg, topo, n)
    ensures Inv(cfg, topo, n)
  {
    var run :| Reaches(cfg, topo, Orderly, Network.Start(topo), run, n);
    StartInv(cfg, topo);
    RunKeepsInv(cfg, topo, Network.Start(topo), run, n);
  }

  // ---- leak freedom ----

  /** An open Uu socket for this UE and cell, or one whose task has the release still to send. */
  ghost predicate SocketBacks(n: Net, ue: UeId, c: CellId) {
    exists s :: s in n.socks && n.socks[s].ue == ue && n.socks[s].cell == c
      && (if n.socks[s].closing then n.socks[s].phase.Calling? || n.socks[s].phase.Queued?
          else n.socks[s].phase != Closed)
  }

  /** A release for this UE and cell on its way over a live link. */
  ghost predicate ReleaseUnderWay(n: Net, ue: UeId, c: CellId) {
    exists k :: k in n.up && n.up[k].link in n.du.conns && n.up[k].q.ue == ue && n.up[k].q.cell == c
      && StepOf(n.up[k].q) == Some(ReleaseRequest)
  }

  /**
   The very link the grant came by is still live at the DU though its RU has given it up:
   its loss will empty the cell.
   */
  ghost predicate OwnLinkAbandoned(n: Net, ue: UeId, c: CellId) {
    && (ue, c) in n.origin
    && var l := n.origin[(ue, c)].link;
       l in n.du.conns && c in n.du.conns[l] && !Current(n, l)
  }

  /** Somebody or something will give the grant back. */
  ghost predicate Backed(n: Net, ue: UeId, c: CellId) {
    SocketBacks(n, ue, c) || ReleaseUnderWay(n, ue, c) || OwnLinkAbandoned(n, ue, c)
  }

  lemma TracedIsBacked(topo: Topology, n: Net, ue: UeId, c: CellId)
    requires GrantTraced(n, ue, c) && WireOk(n) && SocksOk(topo, n)
    ensures Backed(n, ue, c)
  {
    var o := n.origin[(ue, c)];
    var s := n.socks[o.sock];
    if !Current(n, o.link) {
      assert OwnLinkAbandoned(n, ue, c);
    } else if s.closing && s.phase.Sent? {
      var k := Held(s).value;
      assert SockOk(topo, n, s) && KeyOk(n, k);
      assert n.up[k].q == ReleaseFor(s) && StepOf(ReleaseFor(s)) == Some(ReleaseRequest);
      assert ReleaseUnderWay(n, ue, c);
    } else {
      assert SocketBacks(n, ue, c);
    }
  }

  /** In every reachable state, every grant has somebody or something that will give it back. */
  lemma NoGrantForNobody(cfg: Config, topo: Topology, n: Net, ue: UeId, c: CellId)
    requires cfg.Valid() && topo.Valid() && Reachable(cfg, topo, n) && Holds(n.du.cells, ue, c)
    ensures Backed(n, ue, c)
  {
    ReachableInv(cfg, topo, n);
    assert GrantTraced(n, ue, c);
    TracedIsBacked(topo, n, ue, c);
  }

  /** All sockets closed, nothing unread on a live link, no half-abandoned link. */
  ghost predicate Quiet(n: Net) {
    && (forall s | s in n.socks :: n.socks[s].phase == Closed)
    && (forall k | k in n.up :: n.up[k].link !in n.du.conns)
    && (forall l | l in n.du.conns :: Current(n, l))
  }

  lemma QuietBacksNothing(n: Net, ue: UeId, c: CellId)
    requires Quiet(n)
    ensures !Backed(n, ue, c)
  {
  }

  /** Once everything has closed and been answered, no cell holds a PRB, whatever failed on the way. */
  lemma QuietMeansEmpty(cfg: Config, topo: Topology, n: Net, c: CellId)
    requires cfg.Valid() && topo.Valid() && Reachable(cfg, topo, n) && Quiet(n) && c in n.du.cells
    ensures var cell := n.du.cells[c];
      cell.sessions == map[] && cell.used == 0 && cell.admitted == cell.released
  {
    ReachableInv(cfg, topo, n);
    var cell := n.du.cells[c];
    forall ue ensures ue !in cell.sessions {
      if ue in cell.sessions {
        assert Holds(n.du.cells, ue, c);
        NoGrantForNobody(cfg, topo, n, ue, c);
        QuietBacksNothing(n, ue, c);
      }
    }
    assert cell.sessions == map[];
    assert CellOk(cfg, cell);
  }
}
