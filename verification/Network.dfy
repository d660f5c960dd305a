/**
 UEs, RUs and the DU together, as a step relation that interleaves at the program's await
 points (poc_StressTest/ru/ru_server.py serve_ue and F1Link, poc_StressTest/du/du_server.py
 serve_f1, poc_StressTest/ue/ue_sim.py _release).

 Requests and replies travel in any order, which includes the order a connection keeps.
 Links and UE sockets fail at any time, and an RU may crash and be started again.
 */
module Network {
  import opened Collections
  import opened RfModel
  import opened Signalling
  import opened Du
  import opened DuRuns
  import opened F1Link

  type SiteId = nat
  type SockId = nat

  /** An RU process; one that is started again after a crash is a new one. */
  type RuId = nat

  /** A transaction, named across RU processes: a restarted RU counts from 1 again. */
  datatype Key = Key(ru: RuId, txn: Txn)

  /** Where a serve_ue task is: waiting for its UE, or inside F1.request for some message. */
  datatype Phase =
    | Reading
    | Calling(q: Request)
    | Queued(q: Request, txn: Txn)
    | Sent(q: Request, txn: Txn)
    | Closed

  /**
   A Uu socket and its serve_ue task. `closing`: the task is in its `finally`, asking for
   the synthetic release. `answered`: the step of the last uplink answered to the UE.
   */
  datatype Sock = Sock(ru: RuId, ue: UeId, cell: CellId, phase: Phase, closing: bool, answered: Option<Step>)

  datatype Frame = Frame(link: LinkId, sock: SockId, q: Request)
  datatype Back = Back(link: LinkId, reply: Reply)
  datatype Served = Served(q: Request, before: Cells, reply: Reply)
  datatype Origin = Origin(link: LinkId, sock: SockId)
  datatype Heard = Heard(q: Request, reply: Reply)

  /**
   `alive` are the RU processes that run and `site` says where; `rus` keeps those that
   crashed as well.
   `owner` remembers which RU opened each link. `up` and `down` are what is on the wire.
   The last five components are history: requests issued, requests answered by the DU,
   by what link and socket each grant came about, what each socket's task sent and had
   answered, and all the DU read and answered, in that order.
   */
  datatype Net = Net(
    du: Server, owner: map<LinkId, RuId>, rus: map<RuId, F1State>, site: map<RuId, SiteId>, alive: set<RuId>,
    socks: map<SockId, Sock>,
    up: map<Key, Frame>, down: map<Key, Back>,
    issued: map<Key, Request>, served: map<Key, Served>, origin: map<(UeId, CellId), Origin>,
    heard: map<SockId, seq<Heard>>, log: seq<Heard>)

  /** The sectors of each site; the first is the default of a new socket. */
  datatype Topology = Topology(sectors: map<SiteId, set<CellId>>, first: map<SiteId, CellId>) {
    ghost predicate Valid() {
      && first.Keys == sectors.Keys
      && forall r | r in sectors :: first[r] in sectors[r] && "" !in sectors[r]
    }
  }

  datatype Move =
    | Connect(ru: RuId, link: LinkId)
    | Open(sock: SockId, at: RuId)
    | Uplink(sock: SockId, q: Request, chosen: CellId, best: Option<CellId>)
    | Vanish(sock: SockId)
    | Issue(sock: SockId)
    | Transmit(sock: SockId)
    | TransmitFails(sock: SockId)
    | DrainFails(sock: SockId)
    | Resume(sock: SockId, delivered: bool)
    | ResumeBroken(sock: SockId)
    | DuReads(key: Key)
    | DuLoses(link: LinkId)
    | ReaderGets(key: Key)
    | ReaderBreaks(ru: RuId)
    | RuCrashes(ru: RuId, again: RuId)

  /**
   The cell serve_ue stamps: the UE's choice if it is ours, else the strongest sector for
   its position, else the last.
   */
  function ServingCell(sectors: set<CellId>, current: CellId, chosen: CellId, best: Option<CellId>): CellId {
    if chosen in sectors then chosen else if best.Some? then best.value else current
  }

  predicate IsFinal(q: Request) {
    q.name == Known(ContextReleaseComplete)
  }

  /** The synthetic release for a UE that vanished. */
  function ReleaseFor(s: Sock): Request {
    Request(Known(ContextReleaseRequest), Some(ReleaseRequest), s.ue, s.cell, Radio(0.0, 0.0), 0.0)
  }

  /** An exception leaves the loop of serve_ue, or its `finally`. */
  function Unwind(s: Sock): Sock {
    if s.closing || s.ue == "" then s.(phase := Closed)
    else s.(phase := Calling(ReleaseFor(s)), closing := true)
  }

  /** F1.request returned a reply; `delivered` says whether writing it to the UE worked. */
  function AfterReply(s: Sock, q: Request, delivered: bool): Sock {
    if s.closing then s.(phase := Closed)
    else if !delivered then Unwind(s)
    else if IsFinal(q) then s.(phase := Closed, answered := StepOf(q))
    else s.(phase := Reading, answered := StepOf(q))
  }

  /** One non-empty UE id and one cell per socket. */
  predicate OneUe(s: Sock, q: Request) {
    q.ue != "" && (s.ue != "" ==> q.ue == s.ue && q.cell == s.cell)
  }

  /**
   What the UE simulator keeps to on one socket: one UE, one cell, and the final uplink
   only after its release request was answered.
   */
  predicate Disciplined(s: Sock, q: Request) {
    OneUe(s, q) && (IsFinal(q) ==> s.answered == Some(ReleaseRequest))
  }

  /** What may happen next, whatever the UEs send. */
  predicate Possible(topo: Topology, n: Net, a: Move) {
    match a
    case Connect(r, l) => r in n.alive && r in n.rus && l !in n.owner && l !in n.du.conns
    case Open(s, r) => s !in n.socks && r in n.alive && r in n.site && n.site[r] in topo.first
    case Uplink(s, q, chosen, best) =>
      && s in n.socks && n.socks[s].phase == Reading
      && n.socks[s].ru in n.site && n.site[n.socks[s].ru] in topo.sectors
      && var sectors := topo.sectors[n.site[n.socks[s].ru]];
      && (best.Some? ==> best.value in sectors)
      && q.cell == ServingCell(sectors, n.socks[s].cell, chosen, best)
    case Vanish(s) => s in n.socks && n.socks[s].phase == Reading
    case Issue(s) => s in n.socks && n.socks[s].phase.Calling? && n.socks[s].ru in n.rus
    case Transmit(s) => s in n.socks && n.socks[s].phase.Queued? && n.socks[s].ru in n.rus
    case TransmitFails(s) => s in n.socks && n.socks[s].phase.Queued? && n.socks[s].ru in n.rus
    case DrainFails(s) => s in n.socks && n.socks[s].phase.Sent? && n.socks[s].ru in n.rus
    case Resume(s, _) =>
      && s in n.socks && n.socks[s].phase.Sent? && n.socks[s].ru in n.rus
      && FutureOf(n, n.socks[s]).Some? && FutureOf(n, n.socks[s]).value.Answered?
    case ResumeBroken(s) =>
      && s in n.socks && n.socks[s].phase.Sent? && n.socks[s].ru in n.rus
      && FutureOf(n, n.socks[s]) == Some(Broken)
    case DuReads(k) => k in n.up && n.up[k].link in n.du.conns
    case DuLoses(l) => l in n.du.conns
    case ReaderGets(k) => k in n.down && k.ru in n.rus && n.rus[k.ru].loop == Some(n.down[k].link)
    case ReaderBreaks(r) => r in n.rus && n.rus[r].loop.Some?
    case RuCrashes(r, again) => r in n.alive && r in n.rus && r in n.site && again !in n.rus
  }

  /** What the UEs are held to. */
  datatype Conduct = Anything | OneUeEach | Orderly

  predicate Permits(d: Conduct, n: Net, a: Move) {
    match a
    case Uplink(s, q, _, _) =>
      s in n.socks ==>
        (match d
         case Anything => true
         case OneUeEach => OneUe(n.socks[s], q)
         case Orderly => Disciplined(n.socks[s], q))
    case _ => true
  }

  /** What may happen next among UEs that keep to the discipline. */
  predicate Enabled(topo: Topology, n: Net, a: Move) {
    Possible(topo, n, a) && Permits(Orderly, n, a)
  }

  /** The future a socket's task awaits. */
  function FutureOf(n: Net, s: Sock): Option<Future> {
    if s.phase.Sent? && s.ru in n.rus && s.phase.txn in n.rus[s.ru].futures
    then Some(n.rus[s.ru].futures[s.phase.txn]) else None
  }

  function WithSock(n: Net, s: SockId, v: Sock): Net {
    n.(socks := n.socks[s := v])
  }

  /** The task's request is on this link. */
  function Written(n: Net, s: SockId, l: LinkId): Net
    requires s in n.socks && n.socks[s].phase.Queued?
  {
    var sock := n.socks[s];
    WithSock(n, s, sock.(phase := Sent(sock.phase.q, sock.phase.txn)))
      .(up := n.up[Key(sock.ru, sock.phase.txn) := Frame(l, s, sock.phase.q)])
  }

  /** A queued request is written, unless the link has gone meanwhile. */
  function Sending(n: Net, s: SockId, w: Option<LinkId>): Net
    requires s in n.socks && n.socks[s].phase.Queued?
  {
    if w.None? then WithSock(n, s, Unwind(n.socks[s])) else Written(n, s, w.value)
  }

  /** The link breaks under a caller: all registered callers fail, and this one unwinds. */
  function BreakUnder(n: Net, s: SockId): Net
    requires s in n.socks && n.socks[s].ru in n.rus
  {
    var sock := n.socks[s];
    WithSock(n, s, Unwind(sock)).(rus := n.rus[sock.ru := Abandon(n.rus[sock.ru])])
  }

  /** An RU process dies with all its tasks, and a new one starts at its site. */
  function Crashed(n: Net, r: RuId, again: RuId): Net
    requires r in n.rus && r in n.site
  {
    n.(alive := n.alive - {r} + {again},
       site := n.site[again := n.site[r]],
       rus := n.rus[r := ReaderFails(n.rus[r])][again := Idle],
       socks := map s | s in n.socks :: if n.socks[s].ru == r then n.socks[s].(phase := Closed) else n.socks[s])
  }

  function HeardBy(n: Net, s: SockId): seq<Heard> {
    if s in n.heard then n.heard[s] else []
  }

  /** The state after a move; a move that is not possible changes nothing. */
  ghost function Next(cfg: Config, topo: Topology, n: Net, a: Move): Net
    requires cfg.Valid()
  {
    if !Possible(topo, n, a) then n else
    match a
    case Connect(r, l) =>
      n.(du := DuRuns.Next(cfg, n.du, LinkUp(l)), owner := n.owner[l := r],
         rus := n.rus[r := Connected(n.rus[r], l)])
    case Open(s, r) => WithSock(n, s, Sock(r, "", topo.first[n.site[r]], Reading, false, None))
    case Uplink(s, q, _, _) => WithSock(n, s, n.socks[s].(ue := q.ue, cell := q.cell, phase := Calling(q)))
    case Vanish(s) => WithSock(n, s, Unwind(n.socks[s]))
    case Issue(s) =>
      var sock := n.socks[s];
      var f := n.rus[sock.ru];
      WithSock(n, s, sock.(phase := Queued(sock.phase.q, f.next)))
        .(rus := n.rus[sock.ru := F1Link.Issue(f)],
          issued := n.issued[Key(sock.ru, f.next) := sock.phase.q])
    case Transmit(s) => Sending(n, s, n.rus[n.socks[s].ru].writer)
    case TransmitFails(s) => BreakUnder(n, s)
    case DrainFails(s) => BreakUnder(n, s)
    case Resume(s, delivered) =>
      var q := n.socks[s].phase.q;
      WithSock(n, s, AfterReply(n.socks[s], q, delivered))
        .(heard := n.heard[s := HeardBy(n, s) + [Heard(q, FutureOf(n, n.socks[s]).value.reply)]])
    case ResumeBroken(s) => BreakUnder(n, s)
    case DuReads(k) =>
      var m := n.up[k];
      var reply := Dispatch(cfg, n.du.cells, m.q).1;
      n.(du := DuRuns.Next(cfg, n.du, Deliver(m.link, m.q)),
         up := n.up - {k}, down := n.down[k := Back(m.link, reply)],
         served := n.served[k := Served(m.q, n.du.cells, reply)], log := n.log + [Heard(m.q, reply)],
         origin := if StepOf(m.q) == Some(ContextSetup) && !IsReject(reply)
                   then n.origin[(m.q.ue, m.q.cell) := Origin(m.link, m.sock)] else n.origin)
    case DuLoses(l) => n.(du := DuRuns.Next(cfg, n.du, LinkDown(l)))
    case ReaderGets(k) =>
      n.(down := n.down - {k}, rus := n.rus[k.ru := TakeReply(n.rus[k.ru], k.txn, n.down[k].reply)])
    case ReaderBreaks(r) => n.(rus := n.rus[r := ReaderFails(n.rus[r])])
    case RuCrashes(r, again) => Crashed(n, r, again)
  }

  function Start(topo: Topology): Net {
    Net(DuRuns.Start, map[], map r | r in topo.sectors :: Idle, map r | r in topo.sectors :: r, topo.sectors.Keys,
        map[], map[], map[], map[], map[], map[], map[], [])
  }

  /** The state after a move these UEs may make. */
  ghost function Moved(cfg: Config, topo: Topology, d: Conduct, n: Net, a: Move): Option<Net>
    requires cfg.Valid()
  {
    if Possible(topo, n, a) && Permits(d, n, a) then Some(Next(cfg, topo, n, a)) else None
  }

  /** This run, among UEs of this conduct, leads from n to end. */
  ghost predicate Reaches(cfg: Config, topo: Topology, d: Conduct, n: Net, run: seq<Move>, end: Net)
    requires cfg.Valid()
    decreases |run|
  {
    if run == [] then n == end
    else
      var m := Moved(cfg, topo, d, n, run[0]);
      m.Some? && Reaches(cfg, topo, d, m.value, run[1..], end)
  }

  lemma FirstThen(cfg: Config, topo: Topology, d: Conduct, n: Net, a: Move, m: Net, run: seq<Move>, end: Net)
    requires cfg.Valid() && Moved(cfg, topo, d, n, a) == Some(m) && Reaches(cfg, topo, d, m, run, end)
    ensures Reaches(cfg, topo, d, n, [a] + run, end)
  {
    assert ([a] + run)[1..] == run;
  }

  /** Runs can be joined. */
  lemma {:induction false} ReachesThrough(
    cfg: Config, topo: Topology, d: Conduct, a: Net, run: seq<Move>, b: Net, more: seq<Move>, end: Net)
    requires cfg.Valid() && Reaches(cfg, topo, d, a, run, b) && Reaches(cfg, topo, d, b, more, end)
    ensures Reaches(cfg, topo, d, a, run + more, end)
    decreases |run|
  {
    if run == [] {
      assert run + more == more;
    } else {
      var m := Moved(cfg, topo, d, a, run[0]).value;
      ReachesThrough(cfg, topo, d, m, run[1..], b, more, end);
      FirstThen(cfg, topo, d, a, run[0], m, run[1..] + more, end);
      ConsConcat(run, more);
    }
  }

  lemma OneMore(cfg: Config, topo: Topology, d: Conduct, a: Net, run: seq<Move>, b: Net, m: Move, c: Net)
    requires cfg.Valid() && Reaches(cfg, topo, d, a, run, b) && Moved(cfg, topo, d, b, m) == Some(c)
    ensures Reaches(cfg, topo, d, a, run + [m], c)
  {
    FirstThen(cfg, topo, d, b, m, c, [], c);
    assert [m] + [] == [m];
    ReachesThrough(cfg, topo, d, a, run, b, [m], c);
  }
}
