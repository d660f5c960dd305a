/**
 Which connection an RU's reader task waits on, and which one its callers write to
 (poc_StressTest/ru/ru_server.py, F1Link.connect and _reader_loop): a reader that is
 blocked on a connection stays there when the RU connects anew.
 */
module NetworkLinks {
  import opened Collections
  import opened Du
  import opened DuRuns
  import opened F1Link
  import opened Network

  /** Which socket's task finds its RU's connection broken. */
  function Breaker(a: Move): Option<SockId> {
    match a
    case TransmitFails(s) => Some(s)
    case DrainFails(s) => Some(s)
    case ResumeBroken(s) => Some(s)
    case _ => None
  }

  /** The F1 operation a move comes to at RU r, if any. */
  function F1After(n: Net, a: Move, r: RuId): F1State
    requires r in n.rus
  {
    var f := n.rus[r];
    match a
    case Connect(x, l) => if x == r then Connected(f, l) else f
    case Issue(s) => if s in n.socks && n.socks[s].ru == r then F1Link.Issue(f) else f
    case ReaderGets(k) => if k.ru == r && k in n.down then TakeReply(f, k.txn, n.down[k].reply) else f
    case ReaderBreaks(x) => if x == r then ReaderFails(f) else f
    case RuCrashes(x, _) => if x == r then ReaderFails(f) else f
    case _ =>
      if Breaker(a).Some? && Breaker(a).value in n.socks && n.socks[Breaker(a).value].ru == r then Abandon(f) else f
  }

  lemma BreakersMove(cfg: Config, topo: Topology, n: Net, a: Move, r: RuId)
    requires cfg.Valid() && Possible(topo, n, a) && r in n.rus && Breaker(a).Some?
    ensures var n' := Network.Next(cfg, topo, n, a); n'.rus.Keys == n.rus.Keys && n'.rus[r] == F1After(n, a, r)
  {
  }

  lemma IssuersMove(cfg: Config, topo: Topology, n: Net, a: Move, r: RuId)
    requires cfg.Valid() && Possible(topo, n, a) && r in n.rus && a.Issue?
    ensures var n' := Network.Next(cfg, topo, n, a); n'.rus.Keys == n.rus.Keys && n'.rus[r] == F1After(n, a, r)
  {
  }

  lemma SendingKeepsF1(n: Net, s: SockId, w: Option<LinkId>)
    requires s in n.socks && n.socks[s].phase.Queued?
    ensures var n' := Sending(n, s, w); n'.rus == n.rus && n'.owner == n.owner && n'.du == n.du && n'.down == n.down
  {
  }

  lemma TransmitIsSending(cfg: Config, topo: Topology, n: Net, s: SockId)
    requires cfg.Valid() && Possible(topo, n, Transmit(s))
    ensures Network.Next(cfg, topo, n, Transmit(s)) == Sending(n, s, n.rus[n.socks[s].ru].writer)
  {
  }

  lemma CallersMove(cfg: Config, topo: Topology, n: Net, a: Move)
    requires cfg.Valid() && Possible(topo, n, a)
    requires a.Open? || a.Uplink? || a.Vanish? || a.Transmit? || a.Resume?
    ensures Network.Next(cfg, topo, n, a).rus == n.rus
  {
    if a.Transmit? {
      TransmitIsSending(cfg, topo, n, a.sock);
      SendingKeepsF1(n, a.sock, n.rus[n.socks[a.sock].ru].writer);
    }
  }

  lemma LinksMove(cfg: Config, topo: Topology, n: Net, a: Move, r: RuId)
    requires cfg.Valid() && Possible(topo, n, a) && r in n.rus
    requires a.Connect? || a.DuReads? || a.DuLoses? || a.ReaderGets? || a.ReaderBreaks?
    ensures var n' := Network.Next(cfg, topo, n, a); n'.rus.Keys == n.rus.Keys && n'.rus[r] == F1After(n, a, r)
  {
  }

  lemma CrashesMove(cfg: Config, topo: Topology, n: Net, a: Move, r: RuId)
    requires cfg.Valid() && Possible(topo, n, a) && r in n.rus && a.RuCrashes?
    ensures var n' := Network.Next(cfg, topo, n, a);
      n'.rus.Keys == n.rus.Keys + {a.again} && n'.rus[r] == F1After(n, a, r) && n'.rus[a.again] == Idle
  {
  }

  lemma RuMoves(cfg: Config, topo: Topology, n: Net, a: Move, r: RuId)
    requires cfg.Valid() && Possible(topo, n, a) && r in n.rus
    ensures var n' := Network.Next(cfg, topo, n, a);
      && n'.rus.Keys == n.rus.Keys + (if a.RuCrashes? then {a.again} else {})
      && n'.rus[r] == F1After(n, a, r)
      && (a.RuCrashes? ==> n'.rus[a.again] == Idle)
  {
    if Breaker(a).Some? {
      BreakersMove(cfg, topo, n, a, r);
    } else if a.RuCrashes? {
      CrashesMove(cfg, topo, n, a, r);
    } else if a.Connect? || a.DuReads? || a.DuLoses? || a.ReaderGets? || a.ReaderBreaks? {
      LinksMove(cfg, topo, n, a, r);
    } else if a.Issue? {
      IssuersMove(cfg, topo, n, a, r);
    } else {
      CallersMove(cfg, topo, n, a);
    }
  }

  /** The moves in which RU r's reader task itself goes on or ends. */
  predicate MovesReader(a: Move, r: RuId) {
    match a
    case ReaderGets(k) => k.ru == r
    case ReaderBreaks(x) => x == r
    case RuCrashes(x, _) => x == r
    case _ => false
  }

  /**
   A reader task that waits stays on its connection through every move but its own; one is
   started only by a new connection and waits on that one; after a reply it turns to the
   connection that is current then; and when it fails or the RU crashes there is none.
   */
  lemma ReaderStays(cfg: Config, topo: Topology, n: Net, a: Move, r: RuId)
    requires cfg.Valid() && Possible(topo, n, a) && r in n.rus
    ensures var n' := Network.Next(cfg, topo, n, a);
      && r in n'.rus
      && (!MovesReader(a, r) && n.rus[r].loop.Some? ==> n'.rus[r].loop == n.rus[r].loop)
      && (n.rus[r].loop.None? ==>
            n'.rus[r].loop == if a.Connect? && a.ru == r then Some(a.link) else None)
      && (a.ReaderGets? && a.key.ru == r ==> n'.rus[r].loop == n.rus[r].reader)
      && ((a.ReaderBreaks? || a.RuCrashes?) && a.ru == r ==> n'.rus[r].loop.None?)
  {
    RuMoves(cfg, topo, n, a, r);
  }

  /** RU r finds its connection broken in this move. */
  predicate BreaksLink(n: Net, a: Move, r: RuId) {
    || (Breaker(a).Some? && Breaker(a).value in n.socks && n.socks[Breaker(a).value].ru == r)
    || (a.ReaderBreaks? && a.ru == r) || (a.RuCrashes? && a.ru == r)
  }

  /** The current connection is the last one made, until a caller or the reader finds it broken. */
  lemma ConnectionStays(cfg: Config, topo: Topology, n: Net, a: Move, r: RuId)
    requires cfg.Valid() && Possible(topo, n, a) && r in n.rus
    ensures var n' := Network.Next(cfg, topo, n, a);
      && r in n'.rus
      && (n'.rus[r].writer, n'.rus[r].reader)
         == (if a.Connect? && a.ru == r then (Some(a.link), Some(a.link))
             else if BreaksLink(n, a, r) then (None, None)
             else (n.rus[r].writer, n.rus[r].reader))
  {
    RuMoves(cfg, topo, n, a, r);
  }

  /**
   A queued request goes out on the connection that is current when its turn comes. If there
   is none by then nothing is sent, and the task gives up: it closes, or turns to its synthetic
   release.
   */
  lemma QueuedGoesOut(n: Net, s: SockId, w: Option<LinkId>)
    requires s in n.socks && n.socks[s].phase.Queued?
    ensures var n', v := Sending(n, s, w), n.socks[s];
      && s in n'.socks && n'.socks == n.socks[s := n'.socks[s]]
      && n'.(socks := n.socks, up := n.up) == n
      && (w.Some? ==>
            && n'.up == n.up[Key(v.ru, v.phase.txn) := Frame(w.value, s, v.phase.q)]
            && n'.socks[s] == v.(phase := Sent(v.phase.q, v.phase.txn)))
      && (w.None? ==>
            && n'.up == n.up && n'.socks[s].ue == v.ue && n'.socks[s].cell == v.cell
            && (if v.closing || v.ue == "" then n'.socks[s].phase == Closed
                else n'.socks[s].closing && n'.socks[s].phase == Calling(ReleaseFor(v))))
  {
  }

  /**
   A crash ends the RU process with all its tasks and callers, and puts an idle one in its
   place at the same site; no other process or socket, no link and nothing on the wire differs.
   */
  lemma CrashEndsTheProcess(n: Net, r: RuId, again: RuId)
    requires r in n.alive && r in n.rus && r in n.site && again !in n.rus && F1Ok(n.rus[r])
    ensures var n' := Crashed(n, r, again);
      && n'.alive == n.alive - {r} + {again} && again in n'.rus && n'.rus[again] == Idle
      && again in n'.site && n'.site[again] == n.site[r]
      && (forall x | x in n.rus && x != r :: x in n'.rus && n'.rus[x] == n.rus[x])
      && (forall t | t in n.rus[r].futures :: t in n'.rus[r].futures && !n'.rus[r].futures[t].Waiting?)
      && n'.socks.Keys == n.socks.Keys
      && (forall s | s in n.socks && n.socks[s].ru == r :: n'.socks[s].phase == Closed)
      && (forall s | s in n.socks && n.socks[s].ru != r :: n'.socks[s] == n.socks[s])
      && n'.(alive := n.alive, site := n.site, rus := n.rus, socks := n.socks) == n
  {
  }

  // ---- a reader that waits on a lost connection ----

  predicate SparesReader(run: seq<Move>, r: RuId) {
    forall a | a in run :: !(a.ReaderBreaks? && a.ru == r) && !(a.RuCrashes? && a.ru == r)
  }

  /** The DU has lost the link, and no reply is left on it. */
  ghost predicate Lost(n: Net, l: LinkId) {
    l in n.owner && l !in n.du.conns && forall k | k in n.down :: n.down[k].link != l
  }

  /** The reader waits on a link the DU has lost, and no reply is left on it. */
  ghost predicate WaitsInVain(n: Net, r: RuId, l: LinkId) {
    r in n.rus && n.rus[r].loop == Some(l) && Lost(n, l)
  }

  /** Every answer an RU's callers have got by now, they had got then. */
  ghost predicate NoNewAnswers(n: Net, n': Net, r: RuId) {
    && r in n.rus && r in n'.rus
    && forall t | t in n'.rus[r].futures && n'.rus[r].futures[t].Answered? ::
         t in n.rus[r].futures && n.rus[r].futures[t] == n'.rus[r].futures[t]
  }

  /** Only links, the DU and readers change what is on the way to an RU. */
  lemma DownKept(cfg: Config, topo: Topology, n: Net, a: Move)
    requires cfg.Valid() && Possible(topo, n, a) && !a.Connect? && !a.DuReads? && !a.DuLoses? && !a.ReaderGets?
    ensures var n' := Network.Next(cfg, topo, n, a); n'.owner == n.owner && n'.du == n.du && n'.down == n.down
  {
    if a.Transmit? {
      TransmitIsSending(cfg, topo, n, a.sock);
      SendingKeepsF1(n, a.sock, n.rus[n.socks[a.sock].ru].writer);
    }
  }

  lemma ReadingKeepsLost(cfg: Config, topo: Topology, n: Net, k: Key, l: LinkId)
    requires cfg.Valid() && Possible(topo, n, DuReads(k)) && Lost(n, l)
    ensures Lost(Network.Next(cfg, topo, n, DuReads(k)), l)
  {
  }

  /** A link once lost stays lost, and no reply comes over it any more. */
  lemma LostStaysLost(cfg: Config, topo: Topology, n: Net, a: Move, l: LinkId)
    requires cfg.Valid() && Possible(topo, n, a) && Lost(n, l)
    ensures Lost(Network.Next(cfg, topo, n, a), l)
  {
    if a.DuReads? {
      ReadingKeepsLost(cfg, topo, n, a.key, l);
    } else if !a.Connect? && !a.DuLoses? && !a.ReaderGets? {
      DownKept(cfg, topo, n, a);
    }
  }

  lemma StillInVain(cfg: Config, topo: Topology, n: Net, a: Move, r: RuId, l: LinkId)
    requires cfg.Valid() && Possible(topo, n, a) && WaitsInVain(n, r, l)
    requires !(a.ReaderBreaks? && a.ru == r) && !(a.RuCrashes? && a.ru == r)
    ensures var n' := Network.Next(cfg, topo, n, a); WaitsInVain(n', r, l) && NoNewAnswers(n, n', r)
  {
    RuMoves(cfg, topo, n, a, r);
    LostStaysLost(cfg, topo, n, a, l);
  }

  /**
   An RU whose reader task waits on a lost connection may connect anew and send on the new
   connection, and the DU may answer there: none of its callers gets an answer before the
   reader finds the old connection broken or the RU is started again.
   */
  lemma {:induction false} LostReaderStarvesCallers(
    cfg: Config, topo: Topology, d: Conduct, n: Net, run: seq<Move>, end: Net, r: RuId, l: LinkId)
    requires cfg.Valid() && Reaches(cfg, topo, d, n, run, end) && WaitsInVain(n, r, l) && SparesReader(run, r)
    ensures WaitsInVain(end, r, l) && NoNewAnswers(n, end, r)
    decreases |run|
  {
    if run != [] {
      var m := Network.Next(cfg, topo, n, run[0]);
      StillInVain(cfg, topo, n, run[0], r, l);
      LostReaderStarvesCallers(cfg, topo, d, m, run[1..], end, r, l);
    }
  }

  // ---- transaction ids ----

  /** Transactions are numbered from 1 without a gap. */
  ghost predicate Counted(f: F1State) {
    f.next >= 1 && forall t :: t in f.futures <==> 1 <= t < f.next
  }

  lemma MoveKeepsCounted(cfg: Config, topo: Topology, n: Net, a: Move, r: RuId)
    requires cfg.Valid() && Possible(topo, n, a) && r in n.rus && Counted(n.rus[r])
    ensures var n' := Network.Next(cfg, topo, n, a);
      && r in n'.rus && Counted(n'.rus[r])
      && (a.RuCrashes? ==> a.again in n'.rus && Counted(n'.rus[a.again]))
  {
    RuMoves(cfg, topo, n, a, r);
  }

  lemma AllRusMove(cfg: Config, topo: Topology, n: Net, a: Move, r: RuId)
    requires cfg.Valid() && Possible(topo, n, a) && forall x | x in n.rus :: Counted(n.rus[x])
    requires r in Network.Next(cfg, topo, n, a).rus
    ensures Counted(Network.Next(cfg, topo, n, a).rus[r])
  {
    if r in n.rus {
      MoveKeepsCounted(cfg, topo, n, a, r);
    } else if x :| x in n.rus {
      RuMoves(cfg, topo, n, a, x);
      MoveKeepsCounted(cfg, topo, n, a, x);
    }
  }

  /** On every run each RU process has used exactly the ids from 1 up to its next one. */
  lemma {:induction false} IdsAreCounted(
    cfg: Config, topo: Topology, d: Conduct, n: Net, run: seq<Move>, end: Net)
    requires cfg.Valid() && Reaches(cfg, topo, d, n, run, end) && forall r | r in n.rus :: Counted(n.rus[r])
    ensures forall r | r in end.rus :: Counted(end.rus[r])
    decreases |run|
  {
    if run != [] {
      var m := Network.Next(cfg, topo, n, run[0]);
      forall r | r in m.rus ensures Counted(m.rus[r]) {
        AllRusMove(cfg, topo, n, run[0], r);
      }
      IdsAreCounted(cfg, topo, d, m, run[1..], end);
    }
  }
}
