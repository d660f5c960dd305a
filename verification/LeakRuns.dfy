/**
 Runs that leave a grant for nobody, move by move from the start: what each half of the
 UEs' discipline is needed for. One RU, one link, one socket, and nothing fails.
 */
module LeakRuns {
  import opened Collections
  import opened RfModel
  import opened Signalling
  import opened Du
  import opened DuRuns
  import opened F1Link
  import opened Network
  import opened NetworkShape
  import opened NetworkSafety
  import opened NetworkLeaks

  // ---- a system with one socket ----

  /** RU process r has link 0 up and serves socket 0; there is nothing else. */
  ghost predicate Single(topo: Topology, n: Net, r: RuId) {
    && r in n.alive && r in n.rus && r in n.site && n.site[r] == r && r in topo.sectors
    && n.rus[r].writer == n.rus[r].reader == n.rus[r].loop == Some(0)
    && n.du.conns.Keys == {0} && n.owner == map[0 := r]
    && n.socks.Keys == {0} && n.socks[0].ru == r
  }

  /** Nothing is under way either. */
  ghost predicate Calm(topo: Topology, n: Net, r: RuId) {
    Single(topo, n, r) && n.up == map[] && n.down == map[]
  }

  /** The task's request, from its transaction to the reply being delivered. */
  function Round(k: Key): seq<Move> {
    [Move.Issue(0), Transmit(0), DuReads(k), ReaderGets(k), Resume(0, true)]
  }

  /** The UE sends an uplink and gets its answer. */
  function Exchange(q: Request, k: Key): seq<Move> {
    [Move.Uplink(0, q, q.cell, None)] + Round(k)
  }

  // ---- one round, move by move ----

  /** The task waits in this phase for this much of the wire. */
  ghost predicate Stage(topo: Topology, n: Net, r: RuId, v: Sock, f: F1State,
                        up: map<Key, Frame>, down: map<Key, Back>) {
    Single(topo, n, r) && n.socks == map[0 := v] && n.rus[r] == f && n.up == up && n.down == down
  }

  lemma IssueRuns(cfg: Config, topo: Topology, d: Conduct, n: Net, r: RuId, q: Request)
    requires cfg.Valid() && Calm(topo, n, r) && n.socks[0].phase == Calling(q)
    ensures Moved(cfg, topo, d, n, Move.Issue(0)) == Some(Network.Next(cfg, topo, n, Move.Issue(0)))
    ensures var n' := Network.Next(cfg, topo, n, Move.Issue(0));
      && Stage(topo, n', r, n.socks[0].(phase := Queued(q, n.rus[r].next)), F1Link.Issue(n.rus[r]), map[], map[])
      && n'.du == n.du && n'.heard == n.heard
  {
  }

  lemma TransmitRuns(cfg: Config, topo: Topology, d: Conduct, n: Net, r: RuId, v: Sock, f: F1State, q: Request, t: Txn)
    requires cfg.Valid() && Stage(topo, n, r, v, f, map[], map[]) && v.phase == Queued(q, t)
    ensures Moved(cfg, topo, d, n, Transmit(0)) == Some(Network.Next(cfg, topo, n, Transmit(0)))
    ensures var n' := Network.Next(cfg, topo, n, Transmit(0));
      && Stage(topo, n', r, v.(phase := Sent(q, t)), f, map[Key(r, t) := Frame(0, 0, q)], map[])
      && n'.du == n.du && n'.heard == n.heard
  {
    assert Sending(n, 0, Some(0)) == Written(n, 0, 0);
  }

  lemma DuReadsRuns(cfg: Config, topo: Topology, d: Conduct, n: Net, r: RuId, v: Sock, f: F1State, q: Request, k: Key)
    requires cfg.Valid() && Stage(topo, n, r, v, f, map[k := Frame(0, 0, q)], map[])
    ensures Moved(cfg, topo, d, n, DuReads(k)) == Some(Network.Next(cfg, topo, n, DuReads(k)))
    ensures var n' := Network.Next(cfg, topo, n, DuReads(k));
      && Stage(topo, n', r, v, f, map[], map[k := Back(0, Dispatch(cfg, n.du.cells, q).1)])
      && n'.du.cells == Dispatch(cfg, n.du.cells, q).0 && n'.heard == n.heard
  {
    DuReadsIsReadAs(cfg, topo, n, k);
  }

  lemma ReaderGetsRuns(
    cfg: Config, topo: Topology, d: Conduct, n: Net, r: RuId, v: Sock, f: F1State, k: Key, reply: Reply)
    requires cfg.Valid() && Stage(topo, n, r, v, f, map[], map[k := Back(0, reply)]) && k.ru == r
    ensures Moved(cfg, topo, d, n, ReaderGets(k)) == Some(Network.Next(cfg, topo, n, ReaderGets(k)))
    ensures var n' := Network.Next(cfg, topo, n, ReaderGets(k));
      Stage(topo, n', r, v, TakeReply(f, k.txn, reply), map[], map[]) && n'.du == n.du && n'.heard == n.heard
  {
    ReaderGetsIs(cfg, topo, n, k);
  }

  lemma ResumeRuns(
    cfg: Config, topo: Topology, d: Conduct, n: Net, r: RuId, v: Sock, f: F1State, q: Request, t: Txn, reply: Reply)
    requires cfg.Valid() && Stage(topo, n, r, v, f, map[], map[]) && v.phase == Sent(q, t)
    requires t in f.futures && f.futures[t] == Answered(reply)
    ensures Moved(cfg, topo, d, n, Resume(0, true)) == Some(Network.Next(cfg, topo, n, Resume(0, true)))
    ensures var n' := Network.Next(cfg, topo, n, Resume(0, true));
      && Stage(topo, n', r, AfterReply(v, q, true), f, map[], map[])
      && n'.du == n.du && HeardBy(n', 0) == HeardBy(n, 0) + [Heard(q, reply)]
  {
  }

  /** The request is on the wire. */
  lemma CallIsSent(cfg: Config, topo: Topology, d: Conduct, a: Net, run: seq<Move>, n: Net, r: RuId, q: Request)
    returns (end: Net)
    requires cfg.Valid() && Reaches(cfg, topo, d, a, run, n)
    requires Calm(topo, n, r) && n.socks[0].phase == Calling(q)
    ensures Reaches(cfg, topo, d, a, run + [Move.Issue(0)] + [Transmit(0)], end)
    ensures end.du == n.du && end.heard == n.heard
    ensures var t := n.rus[r].next;
      var up := map[Key(r, t) := Frame(0, 0, q)];
      Stage(topo, end, r, n.socks[0].(phase := Sent(q, t)), F1Link.Issue(n.rus[r]), up, map[])
  {
    var t := n.rus[r].next;
    IssueRuns(cfg, topo, d, n, r, q);
    var n' := Network.Next(cfg, topo, n, Move.Issue(0));
    OneMore(cfg, topo, d, a, run, n, Move.Issue(0), n');
    TransmitRuns(cfg, topo, d, n', r, n.socks[0].(phase := Queued(q, t)), F1Link.Issue(n.rus[r]), q, t);
    end := Network.Next(cfg, topo, n', Transmit(0));
    OneMore(cfg, topo, d, a, run + [Move.Issue(0)], n', Transmit(0), end);
  }

  /** The reply is in the task's future. */
  lemma SentIsAnswered(
    cfg: Config, topo: Topology, d: Conduct, a: Net, run: seq<Move>, n: Net, r: RuId, v: Sock, f: F1State, q: Request,
    t: Txn)
    returns (end: Net)
    requires cfg.Valid() && Reaches(cfg, topo, d, a, run, n)
    requires Stage(topo, n, r, v, f, map[Key(r, t) := Frame(0, 0, q)], map[])
    ensures Reaches(cfg, topo, d, a, run + [DuReads(Key(r, t))] + [ReaderGets(Key(r, t))], end)
    ensures Stage(topo, end, r, v, TakeReply(f, t, Dispatch(cfg, n.du.cells, q).1), map[], map[])
    ensures end.du.cells == Dispatch(cfg, n.du.cells, q).0 && end.heard == n.heard
  {
    var k := Key(r, t);
    DuReadsRuns(cfg, topo, d, n, r, v, f, q, k);
    var n' := Network.Next(cfg, topo, n, DuReads(k));
    OneMore(cfg, topo, d, a, run, n, DuReads(k), n');
    ReaderGetsRuns(cfg, topo, d, n', r, v, f, k, Dispatch(cfg, n.du.cells, q).1);
    end := Network.Next(cfg, topo, n', ReaderGets(k));
    OneMore(cfg, topo, d, a, run + [DuReads(k)], n', ReaderGets(k), end);
  }

  lemma RoundIs(run: seq<Move>, k: Key)
    ensures run + [Move.Issue(0)] + [Transmit(0)] + [DuReads(k)] + [ReaderGets(k)] + [Resume(0, true)] == run + Round(k)
  {
  }

  lemma AnsweredFuture(f: F1State, reply: Reply)
    ensures var f' := TakeReply(F1Link.Issue(f), f.next, reply);
      f.next in f'.futures && f'.futures[f.next] == Answered(reply) && f'.next == f.next + 1
  {
  }

  /** A task that has called F1.request gets the DU's answer. */
  lemma RoundRuns(cfg: Config, topo: Topology, d: Conduct, a: Net, run: seq<Move>, n: Net, r: RuId, q: Request)
    returns (end: Net)
    requires cfg.Valid() && Reaches(cfg, topo, d, a, run, n)
    requires Calm(topo, n, r) && n.socks[0].phase == Calling(q)
    ensures Reaches(cfg, topo, d, a, run + Round(Key(r, n.rus[r].next)), end)
    ensures Calm(topo, end, r) && end.socks[0] == AfterReply(n.socks[0], q, true)
    ensures end.rus[r].next == n.rus[r].next + 1 && end.du.cells == Dispatch(cfg, n.du.cells, q).0
    ensures HeardBy(end, 0) == HeardBy(n, 0) + [Heard(q, Dispatch(cfg, n.du.cells, q).1)]
  {
    var t := n.rus[r].next;
    var v := n.socks[0].(phase := Sent(q, t));
    var reply := Dispatch(cfg, n.du.cells, q).1;
    var n' := CallIsSent(cfg, topo, d, a, run, n, r, q);
    var sent := run + [Move.Issue(0)] + [Transmit(0)];
    n' := SentIsAnswered(cfg, topo, d, a, sent, n', r, v, F1Link.Issue(n.rus[r]), q, t);
    AnsweredFuture(n.rus[r], reply);
    ResumeRuns(cfg, topo, d, n', r, v, TakeReply(F1Link.Issue(n.rus[r]), t, reply), q, t, reply);
    end := Network.Next(cfg, topo, n', Resume(0, true));
    OneMore(cfg, topo, d, a, sent + [DuReads(Key(r, t))] + [ReaderGets(Key(r, t))], n', Resume(0, true), end);
    RoundIs(run, Key(r, t));
  }

  lemma UplinkRuns(cfg: Config, topo: Topology, d: Conduct, n: Net, r: RuId, q: Request)
    requires cfg.Valid() && Calm(topo, n, r) && n.socks[0].phase == Reading && q.cell in topo.sectors[r]
    requires d == Anything || (d == OneUeEach && OneUe(n.socks[0], q))
    ensures var m := Move.Uplink(0, q, q.cell, None); Moved(cfg, topo, d, n, m) == Some(Network.Next(cfg, topo, n, m))
    ensures var n' := Network.Next(cfg, topo, n, Move.Uplink(0, q, q.cell, None));
      && Calm(topo, n', r) && n'.socks[0] == Asking(n.socks[0], q)
      && n'.du == n.du && n'.rus == n.rus && n'.heard == n.heard
  {
  }

  lemma ExchangeRuns(cfg: Config, topo: Topology, d: Conduct, a: Net, run: seq<Move>, n: Net, r: RuId, q: Request)
    returns (end: Net)
    requires cfg.Valid() && Reaches(cfg, topo, d, a, run, n)
    requires Calm(topo, n, r) && n.socks[0].phase == Reading && !n.socks[0].closing && q.cell in topo.sectors[r]
    requires d == Anything || (d == OneUeEach && OneUe(n.socks[0], q))
    ensures Reaches(cfg, topo, d, a, run + Exchange(q, Key(r, n.rus[r].next)), end)
    ensures Calm(topo, end, r) && end.rus[r].next == n.rus[r].next + 1
    ensures end.socks[0] == AfterReply(Asking(n.socks[0], q), q, true)
    ensures end.du.cells == Dispatch(cfg, n.du.cells, q).0
    ensures HeardBy(end, 0) == HeardBy(n, 0) + [Heard(q, Dispatch(cfg, n.du.cells, q).1)]
  {
    var m := Move.Uplink(0, q, q.cell, None);
    UplinkRuns(cfg, topo, d, n, r, q);
    var n' := Network.Next(cfg, topo, n, m);
    OneMore(cfg, topo, d, a, run, n, m, n');
    end := RoundRuns(cfg, topo, d, a, run + [m], n', r, q);
    assert run + [m] + Round(Key(r, n.rus[r].next)) == run + Exchange(q, Key(r, n.rus[r].next));
  }

  /** The RU connects and a UE opens a socket. */
  function Opening(r: RuId): seq<Move> {
    [Connect(r, 0), Open(0, r)]
  }

  lemma ConnectRuns(cfg: Config, topo: Topology, d: Conduct, r: RuId)
    requires cfg.Valid() && topo.Valid() && r in topo.sectors
    ensures Moved(cfg, topo, d, Network.Start(topo), Connect(r, 0)).Some?
    ensures var n := Moved(cfg, topo, d, Network.Start(topo), Connect(r, 0)).value;
      && r in n.alive && r in n.rus && r in n.site && n.site[r] == r
      && n.rus[r] == Connected(Idle, 0) && n.du == Server(map[], map[0 := {}]) && n.owner == map[0 := r]
      && n.socks == map[] && n.up == map[] && n.down == map[] && n.heard == map[]
  {
  }

  lemma OpeningRuns(cfg: Config, topo: Topology, d: Conduct, r: RuId) returns (n: Net)
    requires cfg.Valid() && topo.Valid() && r in topo.sectors
    ensures Reaches(cfg, topo, d, Network.Start(topo), Opening(r), n)
    ensures Calm(topo, n, r) && n.rus[r].next == 1 && n.du.cells == map[]
    ensures n.socks[0].phase == Reading && !n.socks[0].closing && n.socks[0].ue == "" && HeardBy(n, 0) == []
  {
    var start := Network.Start(topo);
    assert Reaches(cfg, topo, d, start, [], start);
    ConnectRuns(cfg, topo, d, r);
    var up := Moved(cfg, topo, d, start, Connect(r, 0)).value;
    OneMore(cfg, topo, d, start, [], start, Connect(r, 0), up);
    n := Network.Next(cfg, topo, up, Open(0, r));
    OneMore(cfg, topo, d, start, [] + [Connect(r, 0)], up, Open(0, r), n);
    assert [] + [Connect(r, 0)] + [Open(0, r)] == Opening(r);
  }

  // ---- any list of exchanges on one socket ----

  /** The uplinks of the socket, each answered before the next. */
  function Exchanges(r: RuId, qs: seq<Request>): seq<Move> {
    if qs == [] then []
    else Exchanges(r, qs[..|qs| - 1]) + Exchange(qs[|qs| - 1], Key(r, |qs|))
  }

  /** The pools after these uplinks. */
  function After(cfg: Config, qs: seq<Request>): Cells
    requires cfg.Valid()
  {
    if qs == [] then map[] else Dispatch(cfg, After(cfg, qs[..|qs| - 1]), qs[|qs| - 1]).0
  }

  /** The same uplinks with their answers. */
  function Answers(cfg: Config, qs: seq<Request>): seq<Heard>
    requires cfg.Valid()
  {
    if qs == [] then []
    else
      var init, last := qs[..|qs| - 1], qs[|qs| - 1];
      Answers(cfg, init) + [Heard(last, Dispatch(cfg, After(cfg, init), last).1)]
  }

  lemma {:induction false} AfterFollowsAnswers(cfg: Config, qs: seq<Request>, ue: UeId, c: CellId)
    requires cfg.Valid()
    ensures Holds(After(cfg, qs), ue, c) <==> HeldBy(Answers(cfg, qs), ue, c)
  {
    if qs != [] {
      var init, last := qs[..|qs| - 1], qs[|qs| - 1];
      AfterFollowsAnswers(cfg, init, ue, c);
      DispatchHolds(cfg, After(cfg, init), last, ue, c);
      HeldBySnoc(Answers(cfg, init), Heard(last, Dispatch(cfg, After(cfg, init), last).1), ue, c);
    }
  }

  /** The last of them, if any, is the final uplink. */
  predicate EndsFinal(qs: seq<Request>) {
    qs != [] && IsFinal(qs[|qs| - 1])
  }

  /** A socket of site r may carry these uplinks: its cells, and nothing behind a final one. */
  predicate Carries(topo: Topology, r: RuId, qs: seq<Request>)
    requires r in topo.sectors
  {
    forall i | 0 <= i < |qs| :: qs[i].cell in topo.sectors[r] && (i < |qs| - 1 ==> !IsFinal(qs[i]))
  }

  /** All for one UE and one cell. */
  predicate OneUeAndCell(qs: seq<Request>) {
    forall i | 0 <= i < |qs| :: qs[i].ue != "" && qs[i].ue == qs[0].ue && qs[i].cell == qs[0].cell
  }

  function LastUe(qs: seq<Request>): UeId {
    if qs == [] then "" else qs[|qs| - 1].ue
  }

  /** The socket between two uplinks, or behind the final one. */
  ghost predicate SockAfter(v: Sock, qs: seq<Request>) {
    && v.phase == (if EndsFinal(qs) then Closed else Reading) && !v.closing
    && v.ue == LastUe(qs) && (qs != [] ==> v.cell == qs[|qs| - 1].cell)
  }

  lemma Associates<T>(a: seq<T>, b: seq<T>, c: seq<T>)
    ensures a + b + c == a + (b + c)
  {
  }

  lemma NothingMore<T>(a: seq<T>)
    ensures a + [] == a
  {
  }

  lemma OneMoreExchange(cfg: Config, topo: Topology, d: Conduct, n: Net, r: RuId, init: seq<Request>, last: Request)
    returns (end: Net)
    requires cfg.Valid() && topo.Valid() && r in topo.sectors && last.cell in topo.sectors[r] && !EndsFinal(init)
    requires Reaches(cfg, topo, d, Network.Start(topo), Opening(r) + Exchanges(r, init), n)
    requires Calm(topo, n, r) && n.rus[r].next == |init| + 1 && SockAfter(n.socks[0], init)
    requires d == Anything || (d == OneUeEach && OneUe(n.socks[0], last))
    ensures Reaches(cfg, topo, d, Network.Start(topo),
                    Opening(r) + (Exchanges(r, init) + Exchange(last, Key(r, |init| + 1))), end)
    ensures Calm(topo, end, r) && end.rus[r].next == |init| + 2 && SockAfter(end.socks[0], init + [last])
    ensures end.du.cells == Dispatch(cfg, n.du.cells, last).0
    ensures HeardBy(end, 0) == HeardBy(n, 0) + [Heard(last, Dispatch(cfg, n.du.cells, last).1)]
  {
    end := ExchangeRuns(cfg, topo, d, Network.Start(topo), Opening(r) + Exchanges(r, init), n, r, last);
    Associates(Opening(r), Exchanges(r, init), Exchange(last, Key(r, |init| + 1)));
  }

  lemma {:induction false} ExchangesRun(cfg: Config, topo: Topology, d: Conduct, r: RuId, qs: seq<Request>)
    returns (n: Net)
    requires cfg.Valid() && topo.Valid() && r in topo.sectors && Carries(topo, r, qs)
    requires d == Anything || (d == OneUeEach && OneUeAndCell(qs))
    ensures Reaches(cfg, topo, d, Network.Start(topo), Opening(r) + Exchanges(r, qs), n)
    ensures Calm(topo, n, r) && n.rus[r].next == |qs| + 1 && SockAfter(n.socks[0], qs)
    ensures n.du.cells == After(cfg, qs) && HeardBy(n, 0) == Answers(cfg, qs)
    decreases |qs|
  {
    if qs == [] {
      n := OpeningRuns(cfg, topo, d, r);
      NothingMore(Opening(r));
    } else {
      var init, last := qs[..|qs| - 1], qs[|qs| - 1];
      Snoc(qs);
      n := ExchangesRun(cfg, topo, d, r, init);
      n := OneMoreExchange(cfg, topo, d, n, r, init, last);
    }
  }

  lemma VanishRuns(cfg: Config, topo: Topology, a: Net, run: seq<Move>, n: Net, r: RuId) returns (end: Net)
    requires cfg.Valid() && Reaches(cfg, topo, Anything, a, run, n) && Calm(topo, n, r) && n.socks[0].phase == Reading
    ensures Reaches(cfg, topo, Anything, a, run + [Vanish(0)], end) && Calm(topo, end, r)
    ensures end.socks[0] == Unwind(n.socks[0]) && end.du == n.du && end.rus == n.rus && end.heard == n.heard
  {
    end := Network.Next(cfg, topo, n, Vanish(0));
    OneMore(cfg, topo, Anything, a, run, n, Vanish(0), end);
  }

  /**
   How the socket ends: by its final uplink, or its UE vanishes and the RU sends one
   synthetic release if it knows a UE id.
   */
  function Ending(r: RuId, qs: seq<Request>): seq<Move> {
    if EndsFinal(qs) then []
    else [Vanish(0)] + if LastUe(qs) == "" then [] else Round(Key(r, |qs| + 1))
  }

  function SocketRun(r: RuId, qs: seq<Request>): seq<Move> {
    Opening(r) + Exchanges(r, qs) + Ending(r, qs)
  }

  /** The synthetic release names the last UE and cell. */
  predicate GivenBack(qs: seq<Request>, ue: UeId, c: CellId) {
    qs != [] && !EndsFinal(qs) && ue != "" && ue == qs[|qs| - 1].ue && c == qs[|qs| - 1].cell
  }

  /** A release takes exactly the grant it names. */
  lemma ReleaseIsExact(cfg: Config, cells: Cells, q: Request, ue: UeId, c: CellId)
    requires cfg.Valid() && StepOf(q) == Some(ReleaseRequest)
    ensures Holds(Dispatch(cfg, cells, q).0, ue, c) <==> Holds(cells, ue, c) && !(ue == q.ue && c == q.cell)
  {
  }

  lemma ReleasedRuns(cfg: Config, topo: Topology, run: seq<Move>, n: Net, r: RuId, release: Request) returns (end: Net)
    requires cfg.Valid() && Reaches(cfg, topo, Anything, Network.Start(topo), run, n)
    requires Calm(topo, n, r) && n.socks[0].closing && n.socks[0].phase == Calling(release)
    requires StepOf(release) == Some(ReleaseRequest)
    ensures Reaches(cfg, topo, Anything, Network.Start(topo), run + Round(Key(r, n.rus[r].next)), end)
    ensures Calm(topo, end, r) && end.socks[0].phase == Closed && HeardBy(n, 0) <= HeardBy(end, 0)
    ensures forall ue, c ::
      Holds(end.du.cells, ue, c) <==> Holds(n.du.cells, ue, c) && !(ue == release.ue && c == release.cell)
  {
    end := RoundRuns(cfg, topo, Anything, Network.Start(topo), run, n, r, release);
    forall ue, c
      ensures Holds(end.du.cells, ue, c) <==> Holds(n.du.cells, ue, c) && !(ue == release.ue && c == release.cell)
    {
      ReleaseIsExact(cfg, n.du.cells, release, ue, c);
    }
  }

  lemma GoneRuns(cfg: Config, topo: Topology, n: Net, r: RuId, qs: seq<Request>) returns (end: Net)
    requires cfg.Valid() && topo.Valid() && r in topo.sectors && !EndsFinal(qs)
    requires Reaches(cfg, topo, Anything, Network.Start(topo), Opening(r) + Exchanges(r, qs), n)
    requires Calm(topo, n, r) && n.rus[r].next == |qs| + 1 && SockAfter(n.socks[0], qs)
    ensures Reaches(cfg, topo, Anything, Network.Start(topo), SocketRun(r, qs), end)
    ensures Calm(topo, end, r) && end.socks[0].phase == Closed && HeardBy(n, 0) <= HeardBy(end, 0)
    ensures forall ue, c :: Holds(end.du.cells, ue, c) <==> Holds(n.du.cells, ue, c) && !GivenBack(qs, ue, c)
  {
    var run := Opening(r) + Exchanges(r, qs);
    end := VanishRuns(cfg, topo, Network.Start(topo), run, n, r);
    if LastUe(qs) == "" {
      NothingMore([Vanish(0)]);
    } else {
      end := ReleasedRuns(cfg, topo, run + [Vanish(0)], end, r, ReleaseFor(n.socks[0]));
      Associates(run, [Vanish(0)], Round(Key(r, |qs| + 1)));
    }
  }

  lemma SocketRuns(cfg: Config, topo: Topology, r: RuId, qs: seq<Request>) returns (n: Net)
    requires cfg.Valid() && topo.Valid() && r in topo.sectors && Carries(topo, r, qs)
    ensures Reaches(cfg, topo, Anything, Network.Start(topo), SocketRun(r, qs), n)
    ensures Calm(topo, n, r) && n.socks[0].phase == Closed && Answers(cfg, qs) <= HeardBy(n, 0)
    ensures forall ue, c :: Holds(n.du.cells, ue, c) <==> Holds(After(cfg, qs), ue, c) && !GivenBack(qs, ue, c)
  {
    n := ExchangesRun(cfg, topo, Anything, r, qs);
    if EndsFinal(qs) {
      NothingMore(Opening(r) + Exchanges(r, qs));
    } else {
      n := GoneRuns(cfg, topo, n, r, qs);
    }
  }

  lemma CalmBacksNothing(topo: Topology, n: Net, r: RuId, ue: UeId, c: CellId)
    requires Calm(topo, n, r) && n.socks[0].phase == Closed
    ensures !Backed(n, ue, c) && forall l | l in n.du.conns :: Current(n, l)
  {
  }

  /** Everything has been answered, the socket is closed and F1 is up. */
  ghost predicate AllDone(n: Net) {
    && n.socks.Keys == {0} && n.socks[0].phase == Closed
    && n.up == map[] && n.down == map[] && n.du.conns.Keys == {0} && Current(n, 0)
  }

  /**
   For any uplinks a socket may carry, to any UEs and cells and in any order: once it has ended,
   by a final uplink or because its UE vanished, exactly those grants are left for nobody that
   the answers it got say are held, but for the one the synthetic release names.
   */
  lemma SocketLeaksIff(cfg: Config, topo: Topology, r: RuId, qs: seq<Request>)
    requires cfg.Valid() && topo.Valid() && r in topo.sectors && Carries(topo, r, qs)
    ensures exists n ::
      && Reaches(cfg, topo, Anything, Network.Start(topo), SocketRun(r, qs), n)
      && AllDone(n) && Answers(cfg, qs) <= HeardBy(n, 0)
      && forall ue, c :: Leaks(n, ue, c) <==> HeldBy(Answers(cfg, qs), ue, c) && !GivenBack(qs, ue, c)
  {
    var n := SocketRuns(cfg, topo, r, qs);
    CalmBacksNothing(topo, n, r, "", "");
    forall ue, c ensures Leaks(n, ue, c) <==> HeldBy(Answers(cfg, qs), ue, c) && !GivenBack(qs, ue, c) {
      AfterFollowsAnswers(cfg, qs, ue, c);
      CalmBacksNothing(topo, n, r, ue, c);
    }
  }

  // ---- the final uplink without a release request ----

  /** A setup that an empty cell accepts. */
  ghost predicate Admissible(cfg: Config, q: Request)
    requires cfg.Valid()
  {
    && q.ue != "" && StepOf(q) == Some(ContextSetup)
    && var required := PrbsForTraffic(q.demand, q.radio, cfg.scsKhz, cfg.profile);
       required.Some? && required.value <= cfg.totalPrbs
  }

  /** The first setup is accepted and its UE is the only holder. */
  lemma FirstSetupHolds(cfg: Config, q: Request)
    requires cfg.Valid() && Admissible(cfg, q)
    ensures forall ue, c :: Holds(After(cfg, [q]), ue, c) <==> ue == q.ue && c == q.cell
  {
    assert After(cfg, [q]) == Dispatch(cfg, map[], q).0;
    SetupIsExact(cfg, map[], q, ContextSetup);
    DispatchHolders(cfg, map[], q);
  }

  lemma AfterTwo(cfg: Config, first: Request, second: Request)
    requires cfg.Valid()
    ensures After(cfg, [first, second]) == Dispatch(cfg, After(cfg, [first]), second).0
  {
    assert [first, second][..1] == [first];
  }

  lemma FinalChangesNothing(cfg: Config, cells: Cells, q: Request)
    requires cfg.Valid() && IsFinal(q)
    ensures Dispatch(cfg, cells, q).0 == cells
  {
  }

  lemma FinalRuns(cfg: Config, topo: Topology, r: RuId, qs: seq<Request>) returns (n: Net)
    requires cfg.Valid() && topo.Valid() && r in topo.sectors
    requires Carries(topo, r, qs) && OneUeAndCell(qs) && EndsFinal(qs)
    ensures Reaches(cfg, topo, OneUeEach, Network.Start(topo), SocketRun(r, qs), n)
    ensures Calm(topo, n, r) && n.socks[0].phase == Closed && n.du.cells == After(cfg, qs)
  {
    n := ExchangesRun(cfg, topo, OneUeEach, r, qs);
    NothingMore(Opening(r) + Exchanges(r, qs));
  }

  lemma FinalKeepsSetup(cfg: Config, setup: Request, final: Request)
    requires cfg.Valid() && Admissible(cfg, setup) && IsFinal(final)
    ensures Holds(After(cfg, [setup, final]), setup.ue, setup.cell)
  {
    FirstSetupHolds(cfg, setup);
    AfterTwo(cfg, setup, final);
    FinalChangesNothing(cfg, After(cfg, [setup]), final);
  }

  /**
   An attach whose UE skips the release request: one UE id, one cell, no failure, every
   message answered and every link up, and yet the grant stays for ever.
   */
  lemma FinalUplinkLeaks(cfg: Config, topo: Topology, r: RuId, setup: Request, final: Request)
    requires cfg.Valid() && topo.Valid() && r in topo.sectors && setup.cell in topo.sectors[r] && Admissible(cfg, setup)
    requires IsFinal(final) && final.ue == setup.ue && final.cell == setup.cell
    ensures exists n ::
      && Reaches(cfg, topo, OneUeEach, Network.Start(topo), SocketRun(r, [setup, final]), n)
      && Leaks(n, setup.ue, setup.cell) && AllDone(n)
  {
    var n := FinalRuns(cfg, topo, r, [setup, final]);
    FinalKeepsSetup(cfg, setup, final);
    CalmBacksNothing(topo, n, r, setup.ue, setup.cell);
  }

  const ONE_SECTOR := Topology(map[0 := {"A"}], map[0 := "A"])
  const VOICE_CELL := Config(2, 30, Voip)
  const SETUP := Request(Known(UeCapabilityInformation), None, "u", "A", Radio(20.0, 4.0), 0.03)
  const FINAL := Request(Known(ContextReleaseComplete), None, "u", "A", Radio(20.0, 4.0), 0.0)

  /** One such run, with all its numbers. */
  lemma AFinalUplinkLeaks()
    ensures exists n ::
      && Reaches(VOICE_CELL, ONE_SECTOR, OneUeEach, Network.Start(ONE_SECTOR), SocketRun(0, [SETUP, FINAL]), n)
      && Leaks(n, "u", "A")
  {
    FinalUplinkLeaks(VOICE_CELL, ONE_SECTOR, 0, SETUP, FINAL);
  }

  // ---- a socket used for a second UE or a second cell ----

  /** Who holds what after the two messages and the synthetic release for the second. */
  lemma MixedHolders(cfg: Config, setup: Request, other: Request)
    requires cfg.Valid() && Admissible(cfg, setup) && !IsFinal(other)
    ensures (exists ue, c :: Holds(After(cfg, [setup, other]), ue, c) && !GivenBack([setup, other], ue, c))
       <==> other.ue != setup.ue || (other.cell != setup.cell && StepOf(other) != Some(ContextSetup))
  {
    var first, after := After(cfg, [setup]), After(cfg, [setup, other]);
    FirstSetupHolds(cfg, setup);
    AfterTwo(cfg, setup, other);
    DispatchHolders(cfg, first, other);
    if other.ue != setup.ue {
      assert Holds(after, setup.ue, setup.cell) && !GivenBack([setup, other], setup.ue, setup.cell);
    } else if other.cell != setup.cell && StepOf(other) != Some(ContextSetup) {
      OtherCellsKeep(cfg, first, other, setup.cell);
      assert Holds(after, setup.ue, setup.cell) && !GivenBack([setup, other], setup.ue, setup.cell);
    }
  }

  /**
   A socket that has a setup accepted, sends one more message and vanishes leaves a grant
   for nobody exactly when that message was for another UE, or named another cell without
   moving the UE there.
   */
  lemma MixedSocketLeaksIff(cfg: Config, topo: Topology, r: RuId, setup: Request, other: Request)
    requires cfg.Valid() && topo.Valid() && r in topo.sectors && setup.cell in topo.sectors[r] && Admissible(cfg, setup)
    requires other.cell in topo.sectors[r] && !IsFinal(other)
    ensures exists n ::
      && Reaches(cfg, topo, Anything, Network.Start(topo), SocketRun(r, [setup, other]), n) && AllDone(n)
      && ((exists ue, c :: Leaks(n, ue, c))
            <==> other.ue != setup.ue || (other.cell != setup.cell && StepOf(other) != Some(ContextSetup)))
  {
    var n := SocketRuns(cfg, topo, r, [setup, other]);
    MixedHolders(cfg, setup, other);
    forall ue, c
      ensures Leaks(n, ue, c) <==> Holds(After(cfg, [setup, other]), ue, c) && !GivenBack([setup, other], ue, c)
    {
      CalmBacksNothing(topo, n, r, ue, c);
    }
    CalmBacksNothing(topo, n, r, "", "");
  }
}
