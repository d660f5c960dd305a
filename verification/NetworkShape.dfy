/**
 What every possible move of the system keeps, whatever the UEs send: sockets,
 transactions, futures, the wire and the history agree with each other.
 */
module NetworkShape {
  import opened Collections
  import opened Signalling
  import opened Du
  import opened DuRuns
  import opened F1Link
  import opened Network

  // ---- the invariant, component by component ----

  /** RU processes have a site, and one that has crashed points at no link. */
  ghost predicate RusOk(topo: Topology, n: Net) {
    && n.site.Keys == n.rus.Keys && n.alive <= n.rus.Keys
    && (forall r | r in n.site :: n.site[r] in topo.sectors)
    && (forall r | r in n.rus && r !in n.alive :: n.rus[r].writer.None? && n.rus[r].loop.None?)
  }

  ghost predicate FuturesOk(n: Net) {
    forall r | r in n.rus :: F1Ok(n.rus[r])
  }

  /** Links belong to known RUs, and RUs only ever point at links of their own. */
  ghost predicate LinksOk(n: Net) {
    && n.du.conns.Keys <= n.owner.Keys
    && (forall l | l in n.owner :: n.owner[l] in n.rus)
    && (forall r | r in n.rus && n.rus[r].writer.Some? ::
          n.rus[r].writer.value in n.owner && n.owner[n.rus[r].writer.value] == r)
  }

  /** A transaction exists when its RU made a future for it. */
  ghost predicate Made(n: Net, k: Key) {
    k.ru in n.rus && k.txn in n.rus[k.ru].futures
  }

  /** What is known of one transaction: the wire, the futures and the history agree on it. */
  ghost predicate KeyOk(n: Net, k: Key) {
    && (k in n.issued <==> Made(n, k))
    && (k in n.up ==> k in n.issued && n.up[k].q == n.issued[k] && k !in n.served)
    && (k in n.served ==> k in n.issued && n.served[k].q == n.issued[k])
    && (k in n.down ==> k in n.served && n.down[k].reply == n.served[k].reply)
    && (Made(n, k) && n.rus[k.ru].futures[k.txn].Answered? ==>
          k in n.served && n.rus[k.ru].futures[k.txn].reply == n.served[k].reply)
  }

  ghost predicate WireOk(n: Net) {
    forall k: Key :: KeyOk(n, k)
  }

  /** The message a task is busy with. */
  function Busy(s: Sock): Option<Request> {
    match s.phase
    case Calling(q) => Some(q)
    case Queued(q, _) => Some(q)
    case Sent(q, _) => Some(q)
    case _ => None
  }

  /** The transaction a task holds. */
  function Held(s: Sock): Option<Key> {
    match s.phase
    case Queued(_, t) => Some(Key(s.ru, t))
    case Sent(_, t) => Some(Key(s.ru, t))
    case _ => None
  }

  ghost predicate SockOk(topo: Topology, n: Net, s: Sock) {
    && s.ru in n.rus && s.ru in n.site && n.site[s.ru] in topo.sectors
    && (s.phase != Closed ==> s.ru in n.alive)
    && s.cell in topo.sectors[n.site[s.ru]]
    && (Busy(s).Some? ==> Busy(s).value.ue == s.ue && Busy(s).value.cell == s.cell)
    && (s.closing ==> s.ue != "" && s.phase != Reading && (Busy(s).Some? ==> Busy(s).value == ReleaseFor(s)))
    && (Held(s).Some? ==> Held(s).value in n.issued && n.issued[Held(s).value] == Busy(s).value)
    && (s.phase.Queued? ==> Held(s).value !in n.up && Held(s).value !in n.served)
  }

  ghost predicate SocksOk(topo: Topology, n: Net) {
    && (forall s | s in n.socks :: SockOk(topo, n, n.socks[s]))
    && (forall s, v | s in n.socks && v in n.socks && Held(n.socks[s]).Some? && Held(n.socks[s]) == Held(n.socks[v]) ::
          s == v)
    && (forall s | s in n.socks && Held(n.socks[s]).Some? && Held(n.socks[s]).value in n.up ::
          n.up[Held(n.socks[s]).value].sock == s)
  }

  /** The RU still writes to this link. */
  predicate Current(n: Net, l: LinkId) {
    l in n.owner && n.owner[l] in n.rus && n.rus[n.owner[l]].writer == Some(l)
  }

  /** A task that has neither ended nor turned to its synthetic release. */
  predicate Serving(s: Sock) {
    s.phase != Closed && !s.closing
  }

  /**
   A request on the wire belongs to the task that awaits it, unless its link was given up
   and its task has left serve_ue's loop.
   */
  ghost predicate FrameOk(n: Net, k: Key) {
    k in n.up ==>
      var m := n.up[k];
      && m.link in n.owner && n.owner[m.link] == k.ru
      && m.sock in n.socks && n.socks[m.sock].ru == k.ru
      && m.q.ue == n.socks[m.sock].ue && m.q.cell == n.socks[m.sock].cell
      && (Serving(n.socks[m.sock]) || Current(n, m.link) ==> n.socks[m.sock].phase == Sent(m.q, k.txn))
  }

  ghost predicate FramesOk(n: Net) {
    forall k | k in n.up :: FrameOk(n, k)
  }

  ghost predicate Shape(topo: Topology, n: Net) {
    RusOk(topo, n) && FuturesOk(n) && LinksOk(n) && WireOk(n) && SocksOk(topo, n) && FramesOk(n)
  }

  lemma StartShape(topo: Topology)
    ensures Shape(topo, Network.Start(topo))
  {
  }

  // ---- building blocks: what stays when only queues and futures move, and when one socket changes ----

  /**
   Nothing but futures, reply queues, new transactions, new links and what sockets heard
   differ, and no link is current again.
   */
  ghost predicate SameScene(n: Net, n': Net) {
    && n'.rus.Keys == n.rus.Keys && n'.site == n.site && n'.alive == n.alive
    && n'.du.cells == n.du.cells
    && (forall l | l in n.du.conns :: l in n'.du.conns && n'.du.conns[l] == n.du.conns[l])
    && (forall l | l in n.owner :: l in n'.owner && n'.owner[l] == n.owner[l])
    && n'.socks == n.socks && n'.up == n.up && n'.served == n.served && n'.origin == n.origin
    && n.issued.Keys <= n'.issued.Keys && (forall k | k in n.issued :: n'.issued[k] == n.issued[k])
    && (forall l | l in n.owner :: Current(n', l) ==> Current(n, l))
  }

  lemma SceneKeepsSocks(topo: Topology, n: Net, n': Net)
    requires SameScene(n, n') && SocksOk(topo, n)
    ensures SocksOk(topo, n')
  {
    forall s | s in n'.socks ensures SockOk(topo, n', n'.socks[s]) {
      assert SockOk(topo, n, n.socks[s]);
    }
  }

  lemma SceneKeepsFrames(n: Net, n': Net)
    requires SameScene(n, n') && FramesOk(n)
    ensures FramesOk(n')
  {
    forall k | k in n'.up ensures FrameOk(n', k) {
      assert FrameOk(n, k);
    }
  }

  function WithRu(n: Net, r: RuId, f: F1State): Net {
    n.(rus := n.rus[r := f])
  }

  /** An F1 change that makes no future, answers only what the DU answered, and may at most give up its link. */
  ghost predicate RuChange(n: Net, r: RuId, f: F1State) {
    && r in n.rus && F1Ok(f)
    && f.futures.Keys == n.rus[r].futures.Keys
    && (forall t | t in f.futures && f.futures[t].Answered? ::
          Key(r, t) in n.served && f.futures[t].reply == n.served[Key(r, t)].reply)
    && (f.writer == None || f.writer == n.rus[r].writer)
    && (f.loop.Some? ==> n.rus[r].loop.Some?)
  }

  lemma RuKeepsWire(n: Net, r: RuId, f: F1State)
    requires WireOk(n) && RuChange(n, r, f)
    ensures WireOk(WithRu(n, r, f))
  {
    forall k ensures KeyOk(WithRu(n, r, f), k) {
      assert KeyOk(n, k);
      assert k == Key(k.ru, k.txn);
    }
  }

  lemma RuKeepsFutures(n: Net, r: RuId, f: F1State)
    requires FuturesOk(n) && F1Ok(f)
    ensures FuturesOk(WithRu(n, r, f))
  {
  }

  lemma RuKeepsLinks(topo: Topology, n: Net, r: RuId, f: F1State)
    requires RusOk(topo, n) && LinksOk(n) && r in n.rus && (f.writer == None || f.writer == n.rus[r].writer)
    requires f.loop.Some? ==> n.rus[r].loop.Some?
    ensures RusOk(topo, WithRu(n, r, f)) && LinksOk(WithRu(n, r, f))
  {
  }

  lemma RuIsSameScene(n: Net, r: RuId, f: F1State)
    requires RuChange(n, r, f)
    ensures SameScene(n, WithRu(n, r, f))
  {
  }

  lemma RuKeepsShape(topo: Topology, n: Net, r: RuId, f: F1State)
    requires Shape(topo, n) && RuChange(n, r, f)
    ensures Shape(topo, WithRu(n, r, f))
  {
    RuKeepsWire(n, r, f);
    RuKeepsFutures(n, r, f);
    RuKeepsLinks(topo, n, r, f);
    RuIsSameScene(n, r, f);
    SceneKeepsSocks(topo, n, WithRu(n, r, f));
    SceneKeepsFrames(n, WithRu(n, r, f));
  }

  /** A socket change that fits the rest of the state. */
  ghost predicate SockFits(topo: Topology, n: Net, s: SockId, v: Sock) {
    && SockOk(topo, n, v)
    && (s in n.socks ==> v.ru == n.socks[s].ru)
    && (Held(v).Some? ==> forall x | x in n.socks && x != s :: Held(n.socks[x]) != Held(v))
    && (Held(v).Some? && Held(v).value in n.up ==> n.up[Held(v).value].sock == s)
    && FramesFit(n, s, v)
  }

  /** What is on the wire for a socket is for that UE and cell, and its task awaits it or is on the way out. */
  ghost predicate FramesFit(n: Net, s: SockId, v: Sock) {
    forall k | k in n.up && n.up[k].sock == s ::
      && s in n.socks && n.up[k].q.ue == v.ue && n.up[k].q.cell == v.cell
      && (Serving(v) || Current(n, n.up[k].link) ==> v.phase == Sent(n.up[k].q, k.txn))
  }

  lemma SockKeepsSocks(topo: Topology, n: Net, s: SockId, v: Sock)
    requires SocksOk(topo, n) && SockFits(topo, n, s, v)
    ensures SocksOk(topo, WithSock(n, s, v))
  {
    var n' := WithSock(n, s, v);
    forall x | x in n'.socks ensures SockOk(topo, n', n'.socks[x]) {
      if x != s { assert SockOk(topo, n, n.socks[x]); }
    }
  }

  lemma SockKeepsFrames(topo: Topology, n: Net, s: SockId, v: Sock)
    requires FramesOk(n) && SockFits(topo, n, s, v)
    ensures FramesOk(WithSock(n, s, v))
  {
    var n' := WithSock(n, s, v);
    forall k | k in n.up ensures FrameOk(n', k) {
      assert FrameOk(n, k);
      assert Current(n', n.up[k].link) == Current(n, n.up[k].link);
    }
  }

  lemma SameLinks(topo: Topology, n: Net, n': Net)
    requires RusOk(topo, n) && FuturesOk(n) && LinksOk(n)
    requires n'.rus == n.rus && n'.site == n.site && n'.alive == n.alive
    requires n'.owner == n.owner && n'.du.conns == n.du.conns
    ensures RusOk(topo, n') && FuturesOk(n') && LinksOk(n')
  {
  }

  /** States that differ in nothing the wire's invariant speaks of. */
  lemma SameWire(n: Net, n': Net)
    requires WireOk(n) && n'.rus == n.rus && n'.issued == n.issued
    requires n'.up == n.up && n'.served == n.served && n'.down == n.down
    ensures WireOk(n')
  {
    forall k ensures KeyOk(n', k) {
      assert KeyOk(n, k);
    }
  }

  lemma SockKeepsShape(topo: Topology, n: Net, s: SockId, v: Sock)
    requires Shape(topo, n) && SockFits(topo, n, s, v)
    ensures Shape(topo, WithSock(n, s, v))
  {
    SameWire(n, WithSock(n, s, v));
    SockKeepsSocks(topo, n, s, v);
    SockKeepsFrames(topo, n, s, v);
  }

  // ---- socket moves ----

  /**
   No frame is in the way of a socket change: nothing is in flight, or the RU has given up
   its link and the task moves on.
   */
  lemma QuietSockFits(topo: Topology, n: Net, s: SockId, v: Sock)
    requires FramesOk(n) && s in n.socks && SockOk(topo, n, n.socks[s])
    requires
      || n.socks[s].phase == Reading
      || (n.rus[n.socks[s].ru].writer.None? && !Serving(v) && v.ue == n.socks[s].ue && v.cell == n.socks[s].cell)
    ensures FramesFit(n, s, v)
  {
    forall k | k in n.up && n.up[k].sock == s
      ensures n.up[k].q.ue == v.ue && n.up[k].q.cell == v.cell
      ensures Serving(v) || Current(n, n.up[k].link) ==> v.phase == Sent(n.up[k].q, k.txn)
    {
      assert FrameOk(n, k);
    }
  }

  /** Leaving serve_ue fits when the socket was between messages, or its RU has given up the link. */
  lemma UnwindFits(topo: Topology, n: Net, s: SockId)
    requires FramesOk(n) && s in n.socks && SockOk(topo, n, n.socks[s])
    requires n.socks[s].phase == Reading || (n.socks[s].phase != Closed && n.rus[n.socks[s].ru].writer.None?)
    ensures SockFits(topo, n, s, Unwind(n.socks[s])) && Held(Unwind(n.socks[s])).None?
  {
    QuietSockFits(topo, n, s, Unwind(n.socks[s]));
  }

  function NewSock(topo: Topology, n: Net, r: RuId): Sock
    requires r in n.site && n.site[r] in topo.first
  {
    Sock(r, "", topo.first[n.site[r]], Reading, false, None)
  }

  lemma OpenFits(topo: Topology, n: Net, s: SockId, r: RuId)
    requires topo.Valid() && RusOk(topo, n) && FramesOk(n) && s !in n.socks && r in n.alive
    ensures SockFits(topo, n, s, NewSock(topo, n, r))
  {
    forall k | k in n.up ensures n.up[k].sock != s {
      assert FrameOk(n, k);
    }
  }

  function Asking(s: Sock, q: Request): Sock {
    s.(ue := q.ue, cell := q.cell, phase := Calling(q))
  }

  lemma UplinkFits(topo: Topology, n: Net, s: SockId, q: Request)
    requires FramesOk(n) && s in n.socks && SockOk(topo, n, n.socks[s])
    requires n.socks[s].phase == Reading && q.cell in topo.sectors[n.site[n.socks[s].ru]]
    ensures SockFits(topo, n, s, Asking(n.socks[s], q))
  {
    QuietSockFits(topo, n, s, Asking(n.socks[s], q));
  }

  /** An answered request has left the wire. */
  lemma AnsweredLeftTheWire(topo: Topology, n: Net, s: Sock)
    requires WireOk(n) && SockOk(topo, n, s) && s.phase.Sent?
    requires FutureOf(n, s).Some? && FutureOf(n, s).value.Answered?
    ensures Held(s).value in n.served && Held(s).value !in n.up
    ensures FutureOf(n, s).value.reply == n.served[Held(s).value].reply && n.served[Held(s).value].q == s.phase.q
  {
    assert KeyOk(n, Held(s).value);
  }

  lemma ResumeFrames(n: Net, s: SockId, delivered: bool)
    requires s in n.socks && FramesOk(n)
    requires n.socks[s].phase.Sent? && Held(n.socks[s]).value !in n.up
    ensures FramesFit(n, s, AfterReply(n.socks[s], n.socks[s].phase.q, delivered))
  {
    forall k | k in n.up && n.up[k].sock == s
      ensures n.up[k].q.ue == n.socks[s].ue && n.up[k].q.cell == n.socks[s].cell
      ensures !Serving(n.socks[s]) && !Current(n, n.up[k].link)
    {
      assert FrameOk(n, k);
    }
  }

  lemma ResumeFits(topo: Topology, n: Net, s: SockId, delivered: bool)
    requires WireOk(n) && FramesOk(n) && s in n.socks && SockOk(topo, n, n.socks[s]) && n.socks[s].phase.Sent?
    requires FutureOf(n, n.socks[s]).Some? && FutureOf(n, n.socks[s]).value.Answered?
    ensures SockFits(topo, n, s, AfterReply(n.socks[s], n.socks[s].phase.q, delivered))
    ensures Held(n.socks[s]).value in n.served && Held(n.socks[s]).value !in n.up
  {
    AnsweredLeftTheWire(topo, n, n.socks[s]);
    ResumeFrames(n, s, delivered);
  }

  /** States that differ in what sockets heard and what waits to be read by RUs. */
  lemma SideIsSameScene(n: Net, h: map<SockId, seq<Heard>>, down: map<Key, Back>)
    ensures SameScene(n, n.(heard := h, down := down))
  {
  }

  lemma HeardKeepsLinks(topo: Topology, n: Net, h: map<SockId, seq<Heard>>)
    requires RusOk(topo, n) && FuturesOk(n) && LinksOk(n) && WireOk(n)
    ensures var n' := n.(heard := h); RusOk(topo, n') && FuturesOk(n') && LinksOk(n') && WireOk(n')
  {
    SameWire(n, n.(heard := h));
    SameLinks(topo, n, n.(heard := h));
  }

  /** What a socket heard is history only. */
  lemma HeardKeepsShape(topo: Topology, n: Net, h: map<SockId, seq<Heard>>)
    requires Shape(topo, n)
    ensures Shape(topo, n.(heard := h))
  {
    HeardKeepsLinks(topo, n, h);
    SideIsSameScene(n, h, n.down);
    SceneKeepsSocks(topo, n, n.(heard := h));
    SceneKeepsFrames(n, n.(heard := h));
  }

  lemma BreakIsRuChange(n: Net, r: RuId)
    requires FuturesOk(n) && WireOk(n) && r in n.rus
    ensures RuChange(n, r, Abandon(n.rus[r])) && RuChange(n, r, ReaderFails(n.rus[r]))
  {
    var f := n.rus[r];
    assert F1Ok(f);
    OperationsKeepF1Ok(f, 0, Reply(ConnectionReject, None, "", "", Plain), 0);
    forall t | t in f.futures && f.futures[t].Answered?
      ensures Key(r, t) in n.served && f.futures[t].reply == n.served[Key(r, t)].reply
    {
      assert KeyOk(n, Key(r, t));
    }
  }

  /** The state in which the link has broken and the caller has not yet moved. */
  function BrokenUnder(n: Net, s: SockId): Net
    requires s in n.socks && n.socks[s].ru in n.rus
  {
    WithRu(n, n.socks[s].ru, Abandon(n.rus[n.socks[s].ru]))
  }

  /** The link breaks under one of its callers. */
  lemma BreakUnderKeepsShape(topo: Topology, n: Net, s: SockId)
    requires Shape(topo, n) && s in n.socks && n.socks[s].ru in n.rus
    requires n.socks[s].phase.Queued? || n.socks[s].phase.Sent?
    ensures RuChange(n, n.socks[s].ru, Abandon(n.rus[n.socks[s].ru]))
    ensures Shape(topo, BrokenUnder(n, s)) && SockFits(topo, BrokenUnder(n, s), s, Unwind(n.socks[s]))
    ensures Shape(topo, BreakUnder(n, s))
  {
    var r := n.socks[s].ru;
    var m := BrokenUnder(n, s);
    BreakIsRuChange(n, r);
    RuKeepsShape(topo, n, r, Abandon(n.rus[r]));
    assert SockOk(topo, m, m.socks[s]);
    UnwindFits(topo, m, s);
    SockKeepsShape(topo, m, s, Unwind(m.socks[s]));
    assert BreakUnder(n, s) == WithSock(m, s, Unwind(m.socks[s]));
  }

  // ---- moves of the F1 link ----

  lemma ForgetReplyKeepsWire(n: Net, k: Key)
    requires WireOk(n)
    ensures WireOk(Without(n, k))
  {
    forall j ensures KeyOk(Without(n, k), j) {
      assert KeyOk(n, j);
    }
  }

  function Without(n: Net, k: Key): Net {
    n.(down := n.down - {k})
  }

  lemma ForgetReplyKeepsLinks(topo: Topology, n: Net, k: Key)
    requires RusOk(topo, n) && FuturesOk(n) && LinksOk(n)
    ensures RusOk(topo, Without(n, k)) && FuturesOk(Without(n, k)) && LinksOk(Without(n, k))
  {
    SameLinks(topo, n, Without(n, k));
  }

  lemma ForgetReplyKeepsShape(topo: Topology, n: Net, k: Key)
    requires Shape(topo, n)
    ensures Shape(topo, Without(n, k)) && SameScene(n, Without(n, k))
  {
    ForgetReplyKeepsWire(n, k);
    ForgetReplyKeepsLinks(topo, n, k);
    SideIsSameScene(n, n.heard, n.down - {k});
    SceneKeepsSocks(topo, n, Without(n, k));
    SceneKeepsFrames(n, Without(n, k));
  }

  lemma TakeReplyIsRuChange(n: Net, k: Key, r: Reply)
    requires FuturesOk(n) && WireOk(n) && k.ru in n.rus && n.rus[k.ru].loop.Some?
    requires k in n.served && r == n.served[k].reply
    ensures RuChange(n, k.ru, TakeReply(n.rus[k.ru], k.txn, r))
  {
    var f := n.rus[k.ru];
    OperationsKeepF1Ok(f, k.txn, r, 0);
    var f' := TakeReply(f, k.txn, r);
    assert f'.futures.Keys == f.futures.Keys;
    forall t | t in f'.futures && f'.futures[t].Answered?
      ensures Key(k.ru, t) in n.served && f'.futures[t].reply == n.served[Key(k.ru, t)].reply
    {
      assert KeyOk(n, Key(k.ru, t));
    }
  }

  /** The F1 end of the RU once its reader has handed over this reply. */
  function Taken(n: Net, k: Key): F1State
    requires k in n.down && k.ru in n.rus
  {
    TakeReply(n.rus[k.ru], k.txn, n.down[k].reply)
  }

  lemma ReaderGetsKeepsShape(topo: Topology, n: Net, k: Key)
    requires Shape(topo, n) && k in n.down && k.ru in n.rus && n.rus[k.ru].loop.Some?
    ensures Shape(topo, Without(n, k)) && RuChange(Without(n, k), k.ru, Taken(n, k))
    ensures Shape(topo, WithRu(Without(n, k), k.ru, Taken(n, k)))
  {
    assert KeyOk(n, k);
    ForgetReplyKeepsShape(topo, n, k);
    TakeReplyIsRuChange(Without(n, k), k, n.down[k].reply);
    RuKeepsShape(topo, Without(n, k), k.ru, Taken(n, k));
  }

  /** A new transaction, before its caller holds it. */
  function Minted(n: Net, r: RuId, q: Request): Net
    requires r in n.rus
  {
    n.(rus := n.rus[r := F1Link.Issue(n.rus[r])], issued := n.issued[Key(r, n.rus[r].next) := q])
  }

  lemma MintIsNew(n: Net, r: RuId)
    requires FuturesOk(n) && WireOk(n) && r in n.rus
    ensures var k := Key(r, n.rus[r].next); k !in n.issued && k !in n.up && k !in n.served && k !in n.down
  {
    assert F1Ok(n.rus[r]);
    assert KeyOk(n, Key(r, n.rus[r].next));
  }

  lemma MintKeepsLinks(topo: Topology, n: Net, r: RuId, q: Request)
    requires RusOk(topo, n) && LinksOk(n) && r in n.rus
    ensures RusOk(topo, Minted(n, r, q)) && LinksOk(Minted(n, r, q))
  {
  }

  lemma MintKeepsFutures(n: Net, r: RuId, q: Request)
    requires FuturesOk(n) && r in n.rus
    ensures FuturesOk(Minted(n, r, q))
  {
    OperationsKeepF1Ok(n.rus[r], 0, Reply(ConnectionReject, None, "", "", Plain), 0);
    RuKeepsFutures(n, r, F1Link.Issue(n.rus[r]));
    assert Minted(n, r, q).rus == WithRu(n, r, F1Link.Issue(n.rus[r])).rus;
  }

  lemma MintKeepsWire(n: Net, r: RuId, q: Request)
    requires FuturesOk(n) && WireOk(n) && r in n.rus
    ensures WireOk(Minted(n, r, q))
  {
    MintIsNew(n, r);
    forall j ensures KeyOk(Minted(n, r, q), j) {
      assert KeyOk(n, j);
      assert j == Key(j.ru, j.txn);
    }
  }

  lemma MintIsSameScene(n: Net, r: RuId, q: Request)
    requires r in n.rus && Key(r, n.rus[r].next) !in n.issued
    ensures SameScene(n, Minted(n, r, q))
  {
  }

  lemma MintKeepsShape(topo: Topology, n: Net, r: RuId, q: Request)
    requires Shape(topo, n) && r in n.rus
    ensures Shape(topo, Minted(n, r, q)) && SameScene(n, Minted(n, r, q))
  {
    MintIsNew(n, r);
    MintKeepsLinks(topo, n, r, q);
    MintKeepsFutures(n, r, q);
    MintKeepsWire(n, r, q);
    MintIsSameScene(n, r, q);
    SceneKeepsSocks(topo, n, Minted(n, r, q));
    SceneKeepsFrames(n, Minted(n, r, q));
  }

  /** The state in which the transaction is registered, and the socket that then holds it. */
  function IssuedFor(n: Net, s: SockId): Net
    requires s in n.socks && n.socks[s].phase.Calling? && n.socks[s].ru in n.rus
  {
    Minted(n, n.socks[s].ru, n.socks[s].phase.q)
  }

  function Holding(n: Net, s: SockId): Sock
    requires s in n.socks && n.socks[s].phase.Calling? && n.socks[s].ru in n.rus
  {
    n.socks[s].(phase := Queued(n.socks[s].phase.q, n.rus[n.socks[s].ru].next))
  }

  lemma IssueFrames(n: Net, s: SockId)
    requires FramesOk(n) && s in n.socks && n.socks[s].phase.Calling? && n.socks[s].ru in n.rus
    ensures FramesFit(n, s, Holding(n, s))
  {
    forall k | k in n.up && n.up[k].sock == s
      ensures n.up[k].q.ue == Holding(n, s).ue && n.up[k].q.cell == Holding(n, s).cell
      ensures Serving(Holding(n, s)) || Current(n, n.up[k].link) ==> Holding(n, s).phase == Sent(n.up[k].q, k.txn)
    {
      assert FrameOk(n, k);
    }
  }

  lemma IssueIsNew(topo: Topology, n: Net, s: SockId)
    requires FuturesOk(n) && WireOk(n) && SocksOk(topo, n)
    requires s in n.socks && n.socks[s].phase.Calling? && n.socks[s].ru in n.rus
    ensures forall x | x in n.socks :: Held(n.socks[x]) != Held(Holding(n, s))
    ensures Held(Holding(n, s)).value !in n.served && Held(Holding(n, s)).value !in n.up
  {
    MintIsNew(n, n.socks[s].ru);
    forall x | x in n.socks ensures Held(n.socks[x]) != Held(Holding(n, s)) {
      assert SockOk(topo, n, n.socks[x]);
    }
  }

  lemma IssueHolds(topo: Topology, n: Net, s: SockId)
    requires RusOk(topo, n) && FuturesOk(n) && WireOk(n) && SocksOk(topo, n)
    requires s in n.socks && n.socks[s].phase.Calling? && n.socks[s].ru in n.rus
    ensures SockOk(topo, IssuedFor(n, s), Holding(n, s))
  {
    IssueIsNew(topo, n, s);
    assert SockOk(topo, n, n.socks[s]);
  }

  lemma IssueKeepsCurrent(n: Net, s: SockId, l: LinkId)
    requires s in n.socks && n.socks[s].phase.Calling? && n.socks[s].ru in n.rus
    ensures Current(IssuedFor(n, s), l) == Current(n, l)
  {
  }

  lemma IssueFits(topo: Topology, n: Net, s: SockId)
    requires RusOk(topo, n) && FuturesOk(n) && WireOk(n) && SocksOk(topo, n) && FramesOk(n)
    requires s in n.socks && n.socks[s].phase.Calling? && n.socks[s].ru in n.rus
    ensures SockFits(topo, IssuedFor(n, s), s, Holding(n, s))
  {
    IssueHolds(topo, n, s);
    IssueIsNew(topo, n, s);
    IssueFrames(n, s);
    forall l ensures Current(IssuedFor(n, s), l) == Current(n, l) {
      IssueKeepsCurrent(n, s, l);
    }
  }

  lemma IssueKeepsShape(topo: Topology, n: Net, s: SockId)
    requires Shape(topo, n) && Possible(topo, n, Move.Issue(s))
    ensures Shape(topo, IssuedFor(n, s)) && SameScene(n, IssuedFor(n, s))
    ensures SockFits(topo, IssuedFor(n, s), s, Holding(n, s))
    ensures Shape(topo, WithSock(IssuedFor(n, s), s, Holding(n, s)))
  {
    MintKeepsShape(topo, n, n.socks[s].ru, n.socks[s].phase.q);
    IssueFits(topo, n, s);
    SockKeepsShape(topo, IssuedFor(n, s), s, Holding(n, s));
  }

  // ---- a new link ----

  function Linked(n: Net, r: RuId, l: LinkId): Net
    requires r in n.rus
  {
    n.(du := n.du.(conns := n.du.conns[l := {}]), owner := n.owner[l := r], rus := n.rus[r := Connected(n.rus[r], l)])
  }

  lemma LinkedIsSameScene(n: Net, r: RuId, l: LinkId)
    requires r in n.rus && l !in n.owner && l !in n.du.conns
    ensures SameScene(n, Linked(n, r, l))
  {
  }

  lemma LinkedKeepsWire(n: Net, r: RuId, l: LinkId)
    requires r in n.rus && WireOk(n)
    ensures WireOk(Linked(n, r, l))
  {
    forall k ensures KeyOk(Linked(n, r, l), k) {
      assert KeyOk(n, k);
    }
  }

  lemma LinkedKeepsLinks(topo: Topology, n: Net, r: RuId, l: LinkId)
    requires r in n.alive && r in n.rus && RusOk(topo, n) && LinksOk(n) && l !in n.owner
    ensures RusOk(topo, Linked(n, r, l)) && LinksOk(Linked(n, r, l))
  {
  }

  lemma LinkedKeepsFutures(n: Net, r: RuId, l: LinkId)
    requires FuturesOk(n) && r in n.rus
    ensures FuturesOk(Linked(n, r, l))
  {
    OperationsKeepF1Ok(n.rus[r], 0, Reply(ConnectionReject, None, "", "", Plain), l);
    RuKeepsFutures(n, r, Connected(n.rus[r], l));
    assert Linked(n, r, l).rus == WithRu(n, r, Connected(n.rus[r], l)).rus;
  }

  lemma ConnectKeepsShape(topo: Topology, n: Net, r: RuId, l: LinkId)
    requires Shape(topo, n) && Possible(topo, n, Connect(r, l))
    ensures Shape(topo, Linked(n, r, l)) && SameScene(n, Linked(n, r, l))
  {
    LinkedKeepsLinks(topo, n, r, l);
    LinkedKeepsFutures(n, r, l);
    LinkedKeepsWire(n, r, l);
    LinkedIsSameScene(n, r, l);
    SceneKeepsSocks(topo, n, Linked(n, r, l));
    SceneKeepsFrames(n, Linked(n, r, l));
  }

  // ---- a request is written to the link ----

  lemma WrittenKeepsWire(topo: Topology, n: Net, s: SockId, l: LinkId)
    requires WireOk(n) && SocksOk(topo, n) && s in n.socks && n.socks[s].phase.Queued?
    ensures WireOk(Written(n, s, l))
  {
    assert SockOk(topo, n, n.socks[s]);
    forall k ensures KeyOk(Written(n, s, l), k) {
      assert KeyOk(n, k);
    }
  }

  lemma WrittenKeepsSocks(topo: Topology, n: Net, s: SockId, l: LinkId)
    requires SocksOk(topo, n) && s in n.socks && n.socks[s].phase.Queued?
    ensures SocksOk(topo, Written(n, s, l))
  {
    var n' := Written(n, s, l);
    assert SockOk(topo, n, n.socks[s]);
    forall x | x in n'.socks ensures SockOk(topo, n', n'.socks[x]) {
      assert SockOk(topo, n, n.socks[x]);
      assert Held(n'.socks[x]) == Held(n.socks[x]);
    }
  }

  lemma WrittenKeepsFrames(topo: Topology, n: Net, s: SockId, l: LinkId)
    requires FramesOk(n) && SocksOk(topo, n)
    requires s in n.socks && n.socks[s].phase.Queued? && l in n.owner && n.owner[l] == n.socks[s].ru
    ensures FramesOk(Written(n, s, l))
  {
    var n' := Written(n, s, l);
    assert SockOk(topo, n, n.socks[s]);
    forall k | k in n'.up ensures FrameOk(n', k) {
      if k != Held(n.socks[s]).value {
        assert FrameOk(n, k);
        assert Current(n', n.up[k].link) == Current(n, n.up[k].link);
      }
    }
  }

  lemma WrittenKeepsShape(topo: Topology, n: Net, s: SockId, l: LinkId)
    requires Shape(topo, n) && Possible(topo, n, Transmit(s))
    requires n.rus[n.socks[s].ru].writer == Some(l)
    ensures Shape(topo, Written(n, s, l))
  {
    WrittenKeepsWire(topo, n, s, l);
    WrittenKeepsSocks(topo, n, s, l);
    WrittenKeepsFrames(topo, n, s, l);
  }

  // ---- the DU's state ----

  lemma DuKeepsScene(topo: Topology, n: Net, du: Server)
    requires SocksOk(topo, n) && FramesOk(n)
    ensures SocksOk(topo, n.(du := du)) && FramesOk(n.(du := du))
  {
    var n' := n.(du := du);
    forall x | x in n.socks ensures SockOk(topo, n', n'.socks[x]) {
      assert SockOk(topo, n, n.socks[x]);
    }
    forall k | k in n.up ensures FrameOk(n', k) {
      assert FrameOk(n, k);
      assert Current(n', n.up[k].link) == Current(n, n.up[k].link);
    }
  }

  /** Nothing of the shape depends on what the DU holds. */
  lemma DuKeepsShape(topo: Topology, n: Net, du: Server)
    requires Shape(topo, n) && du.conns.Keys <= n.owner.Keys
    ensures Shape(topo, n.(du := du))
  {
    SameWire(n, n.(du := du));
    DuKeepsScene(topo, n, du);
  }

  // ---- the DU reads a request and answers it ----

  /** The wire once the DU has answered this request in this way. */
  function ReadAs(n: Net, k: Key, du: Server, reply: Reply): Net
    requires k in n.up
  {
    var m := n.up[k];
    n.(du := du, up := n.up - {k}, down := n.down[k := Back(m.link, reply)],
       served := n.served[k := Served(m.q, n.du.cells, reply)], log := n.log + [Heard(m.q, reply)],
       origin := if StepOf(m.q) == Some(ContextSetup) && !IsReject(reply)
                 then n.origin[(m.q.ue, m.q.cell) := Origin(m.link, m.sock)] else n.origin)
  }

  lemma ReadKeepsWire(n: Net, k: Key, du: Server, reply: Reply)
    requires WireOk(n) && k in n.up
    ensures WireOk(ReadAs(n, k, du, reply))
  {
    assert KeyOk(n, k);
    forall j ensures KeyOk(ReadAs(n, k, du, reply), j) {
      assert KeyOk(n, j);
    }
  }

  lemma ReadKeepsSocks(topo: Topology, n: Net, k: Key, du: Server, reply: Reply)
    requires SocksOk(topo, n) && k in n.up
    ensures SocksOk(topo, ReadAs(n, k, du, reply))
  {
    var n' := ReadAs(n, k, du, reply);
    forall x | x in n'.socks ensures SockOk(topo, n', n'.socks[x]) {
      assert SockOk(topo, n, n.socks[x]);
    }
  }

  lemma ReadKeepsFrames(n: Net, k: Key, du: Server, reply: Reply)
    requires FramesOk(n) && k in n.up
    ensures FramesOk(ReadAs(n, k, du, reply))
  {
    var n' := ReadAs(n, k, du, reply);
    forall j | j in n'.up ensures FrameOk(n', j) {
      assert FrameOk(n, j);
      assert Current(n', n.up[j].link) == Current(n, n.up[j].link);
    }
  }

  lemma ReadKeepsShape(topo: Topology, n: Net, k: Key, du: Server, reply: Reply)
    requires Shape(topo, n) && k in n.up && du.conns.Keys <= n.owner.Keys
    ensures Shape(topo, ReadAs(n, k, du, reply))
  {
    ReadKeepsWire(n, k, du, reply);
    ReadKeepsSocks(topo, n, k, du, reply);
    ReadKeepsFrames(n, k, du, reply);
  }

  // ---- an RU crashes ----

  lemma CrashKeepsLinks(topo: Topology, n: Net, r: RuId, again: RuId)
    requires RusOk(topo, n) && LinksOk(n) && r in n.rus && r in n.site && again !in n.rus
    ensures RusOk(topo, Crashed(n, r, again)) && LinksOk(Crashed(n, r, again))
  {
  }

  lemma CrashKeepsFutures(n: Net, r: RuId, again: RuId)
    requires FuturesOk(n) && r in n.rus && r in n.site
    ensures FuturesOk(Crashed(n, r, again))
  {
    OperationsKeepF1Ok(n.rus[r], 0, Reply(ConnectionReject, None, "", "", Plain), 0);
    RuKeepsFutures(n, r, ReaderFails(n.rus[r]));
    RuKeepsFutures(WithRu(n, r, ReaderFails(n.rus[r])), again, Idle);
    assert Crashed(n, r, again).rus == WithRu(WithRu(n, r, ReaderFails(n.rus[r])), again, Idle).rus;
  }

  /** No link of the crashed RU is current, and the others' are as they were. */
  lemma CrashedLinks(n: Net, r: RuId, again: RuId)
    requires LinksOk(n) && r in n.rus && r in n.site && again !in n.rus
    ensures forall l | l in n.owner :: Current(Crashed(n, r, again), l) <==> Current(n, l) && n.owner[l] != r
  {
  }

  lemma CrashKeepsWire(n: Net, r: RuId, again: RuId)
    requires WireOk(n) && r in n.rus && r in n.site && again !in n.rus
    ensures WireOk(Crashed(n, r, again))
  {
    forall k ensures KeyOk(Crashed(n, r, again), k) {
      assert KeyOk(n, k);
    }
  }

  lemma CrashKeepsSocks(topo: Topology, n: Net, r: RuId, again: RuId)
    requires SocksOk(topo, n) && r in n.rus && r in n.site && again !in n.rus
    ensures SocksOk(topo, Crashed(n, r, again))
  {
    var n' := Crashed(n, r, again);
    forall s | s in n'.socks ensures SockOk(topo, n', n'.socks[s]) {
      assert SockOk(topo, n, n.socks[s]);
    }
    forall s | s in n'.socks && Held(n'.socks[s]).Some? ensures Held(n'.socks[s]) == Held(n.socks[s]) {
    }
  }

  lemma CrashKeepsFrame(n: Net, r: RuId, again: RuId, k: Key)
    requires r in n.rus && r in n.site && k in n.up && FrameOk(n, k)
    requires Current(Crashed(n, r, again), n.up[k].link) ==> Current(n, n.up[k].link) && n.owner[n.up[k].link] != r
    ensures FrameOk(Crashed(n, r, again), k)
  {
    assert Serving(Crashed(n, r, again).socks[n.up[k].sock]) ==> Serving(n.socks[n.up[k].sock]);
  }

  lemma CrashKeepsFrames(n: Net, r: RuId, again: RuId)
    requires LinksOk(n) && FramesOk(n) && r in n.rus && r in n.site && again !in n.rus
    ensures FramesOk(Crashed(n, r, again))
  {
    CrashedLinks(n, r, again);
    forall k | k in n.up ensures FrameOk(Crashed(n, r, again), k) {
      assert FrameOk(n, k);
      CrashKeepsFrame(n, r, again, k);
    }
  }

  lemma CrashKeepsShape(topo: Topology, n: Net, r: RuId, again: RuId)
    requires Shape(topo, n) && r in n.rus && again !in n.rus
    ensures Shape(topo, Crashed(n, r, again))
  {
    CrashKeepsLinks(topo, n, r, again);
    CrashKeepsFutures(n, r, again);
    CrashKeepsWire(n, r, again);
    CrashKeepsSocks(topo, n, r, again);
    CrashKeepsFrames(n, r, again);
  }

  // ---- every move ----

  lemma OpenKeepsShape(topo: Topology, n: Net, s: SockId, r: RuId)
    requires topo.Valid() && Shape(topo, n) && s !in n.socks && r in n.alive
    ensures Shape(topo, WithSock(n, s, NewSock(topo, n, r)))
  {
    OpenFits(topo, n, s, r);
    SockKeepsShape(topo, n, s, NewSock(topo, n, r));
  }

  lemma UplinkKeepsShape(topo: Topology, n: Net, s: SockId, q: Request)
    requires Shape(topo, n) && s in n.socks && n.socks[s].phase == Reading
    requires n.socks[s].ru in n.site && n.site[n.socks[s].ru] in topo.sectors
    requires q.cell in topo.sectors[n.site[n.socks[s].ru]]
    ensures Shape(topo, WithSock(n, s, Asking(n.socks[s], q)))
  {
    UplinkFits(topo, n, s, q);
    SockKeepsShape(topo, n, s, Asking(n.socks[s], q));
  }

  lemma UnwindKeepsShape(topo: Topology, n: Net, s: SockId)
    requires Shape(topo, n) && s in n.socks && n.socks[s].ru in n.rus
    requires n.socks[s].phase == Reading || (n.socks[s].phase != Closed && n.rus[n.socks[s].ru].writer.None?)
    ensures Shape(topo, WithSock(n, s, Unwind(n.socks[s])))
  {
    UnwindFits(topo, n, s);
    SockKeepsShape(topo, n, s, Unwind(n.socks[s]));
  }

  lemma ResumeKeepsShape(topo: Topology, n: Net, s: SockId, delivered: bool, h: map<SockId, seq<Heard>>)
    requires Shape(topo, n) && Possible(topo, n, Resume(s, delivered))
    ensures Shape(topo, WithSock(n, s, AfterReply(n.socks[s], n.socks[s].phase.q, delivered)).(heard := h))
  {
    ResumeFits(topo, n, s, delivered);
    var v := AfterReply(n.socks[s], n.socks[s].phase.q, delivered);
    SockKeepsShape(topo, n, s, v);
    HeardKeepsShape(topo, WithSock(n, s, v), h);
  }

  /** Moves in which a UE comes, sends or goes. */
  lemma UeMoveKeepsShape(cfg: Config, topo: Topology, n: Net, a: Move)
    requires cfg.Valid() && topo.Valid() && Shape(topo, n) && Possible(topo, n, a)
    requires a.Open? || a.Uplink? || a.Vanish?
    ensures Shape(topo, Network.Next(cfg, topo, n, a))
  {
    match a {
      case Open(s, r) => OpenKeepsShape(topo, n, s, r);
      case Uplink(s, q, _, _) =>
        assert SockOk(topo, n, n.socks[s]);
        UplinkKeepsShape(topo, n, s, q);
      case Vanish(s) =>
        assert SockOk(topo, n, n.socks[s]);
        UnwindKeepsShape(topo, n, s);
    }
  }

  /** Moves of serve_ue tasks inside F1.request that are not about sending. */
  lemma TaskMoveKeepsShape(cfg: Config, topo: Topology, n: Net, a: Move)
    requires cfg.Valid() && Shape(topo, n) && Possible(topo, n, a)
    requires a.Issue? || a.Resume?
    ensures Shape(topo, Network.Next(cfg, topo, n, a))
  {
    match a {
      case Issue(s) => IssueKeepsShape(topo, n, s);
      case Resume(s, delivered) => ResumeKeepsShape(topo, n, s, delivered, Network.Next(cfg, topo, n, a).heard);
    }
  }

  lemma WireMoveKeepsShape(cfg: Config, topo: Topology, n: Net, a: Move)
    requires cfg.Valid() && Shape(topo, n) && Possible(topo, n, a)
    requires a.Connect? || a.Transmit?
    ensures Shape(topo, Network.Next(cfg, topo, n, a))
  {
    match a {
      case Connect(r, l) => ConnectKeepsShape(topo, n, r, l);
      case Transmit(s) =>
        var w := n.rus[n.socks[s].ru].writer;
        if w.None? {
          UnwindKeepsShape(topo, n, s);
        } else {
          WrittenKeepsShape(topo, n, s, w.value);
        }
    }
  }

  lemma BreakMoveKeepsShape(cfg: Config, topo: Topology, n: Net, a: Move)
    requires cfg.Valid() && Shape(topo, n) && Possible(topo, n, a)
    requires a.TransmitFails? || a.DrainFails? || a.ResumeBroken?
    ensures Shape(topo, Network.Next(cfg, topo, n, a))
  {
    BreakUnderKeepsShape(topo, n, a.sock);
  }

  /** The DU once it has read this request. */
  ghost function AfterReading(cfg: Config, n: Net, k: Key): Server
    requires cfg.Valid() && k in n.up
  {
    DuRuns.Next(cfg, n.du, Deliver(n.up[k].link, n.up[k].q))
  }

  ghost function Answer(cfg: Config, n: Net, k: Key): Reply
    requires cfg.Valid() && k in n.up
  {
    Dispatch(cfg, n.du.cells, n.up[k].q).1
  }

  lemma DuReadsIsReadAs(cfg: Config, topo: Topology, n: Net, k: Key)
    requires cfg.Valid() && Possible(topo, n, DuReads(k))
    ensures Network.Next(cfg, topo, n, DuReads(k)) == ReadAs(n, k, AfterReading(cfg, n, k), Answer(cfg, n, k))
    ensures AfterReading(cfg, n, k).conns.Keys == n.du.conns.Keys
  {
  }

  lemma DuReadsKeepsShape(cfg: Config, topo: Topology, n: Net, k: Key)
    requires cfg.Valid() && Shape(topo, n) && Possible(topo, n, DuReads(k))
    ensures Shape(topo, Network.Next(cfg, topo, n, DuReads(k)))
  {
    DuReadsIsReadAs(cfg, topo, n, k);
    ReadKeepsShape(topo, n, k, AfterReading(cfg, n, k), Answer(cfg, n, k));
  }

  lemma DuLosesKeepsShape(cfg: Config, topo: Topology, n: Net, l: LinkId)
    requires cfg.Valid() && Shape(topo, n) && l in n.du.conns
    ensures Shape(topo, n.(du := DuRuns.Next(cfg, n.du, LinkDown(l))))
  {
    DuKeepsShape(topo, n, DuRuns.Next(cfg, n.du, LinkDown(l)));
  }

  lemma ReaderBreaksKeepsShape(topo: Topology, n: Net, r: RuId)
    requires Shape(topo, n) && r in n.rus
    ensures RuChange(n, r, ReaderFails(n.rus[r])) && Shape(topo, WithRu(n, r, ReaderFails(n.rus[r])))
  {
    BreakIsRuChange(n, r);
    RuKeepsShape(topo, n, r, ReaderFails(n.rus[r]));
  }

  lemma ReaderGetsIs(cfg: Config, topo: Topology, n: Net, k: Key)
    requires cfg.Valid() && Possible(topo, n, ReaderGets(k))
    ensures Network.Next(cfg, topo, n, ReaderGets(k)) == WithRu(Without(n, k), k.ru, Taken(n, k))
  {
  }

  lemma RuMoveKeepsShape(cfg: Config, topo: Topology, n: Net, a: Move)
    requires cfg.Valid() && Shape(topo, n) && Possible(topo, n, a)
    requires a.ReaderGets? || a.ReaderBreaks? || a.RuCrashes?
    ensures Shape(topo, Network.Next(cfg, topo, n, a))
  {
    match a {
      case ReaderGets(k) =>
        ReaderGetsIs(cfg, topo, n, k);
        ReaderGetsKeepsShape(topo, n, k);
      case ReaderBreaks(r) => ReaderBreaksKeepsShape(topo, n, r);
      case RuCrashes(r, again) => CrashKeepsShape(topo, n, r, again);
    }
  }

  lemma MoveKeepsShape(cfg: Config, topo: Topology, n: Net, a: Move)
    requires cfg.Valid() && topo.Valid() && Shape(topo, n) && Possible(topo, n, a)
    ensures Shape(topo, Network.Next(cfg, topo, n, a))
  {
    if a.Open? || a.Uplink? || a.Vanish? {
      UeMoveKeepsShape(cfg, topo, n, a);
    } else if a.Issue? || a.Resume? {
      TaskMoveKeepsShape(cfg, topo, n, a);
    } else if a.TransmitFails? || a.DrainFails? || a.ResumeBroken? {
      BreakMoveKeepsShape(cfg, topo, n, a);
    } else if a.Connect? || a.Transmit? {
      WireMoveKeepsShape(cfg, topo, n, a);
    } else if a.DuReads? {
      DuReadsKeepsShape(cfg, topo, n, a.key);
    } else if a.DuLoses? {
      DuLosesKeepsShape(cfg, topo, n, a.link);
    } else {
      RuMoveKeepsShape(cfg, topo, n, a);
    }
  }

  lemma {:induction false} RunKeepsShape(cfg: Config, topo: Topology, d: Conduct, n: Net, run: seq<Move>, end: Net)
    requires cfg.Valid() && topo.Valid() && Shape(topo, n) && Reaches(cfg, topo, d, n, run, end)
    ensures Shape(topo, end)
    decreases |run|
  {
    if run != [] {
      MoveKeepsShape(cfg, topo, n, run[0]);
      RunKeepsShape(cfg, topo, d, Network.Next(cfg, topo, n, run[0]), run[1..], end);
    }
  }
}
