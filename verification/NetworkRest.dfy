/**
 The orderly way to rest: with F1 up, every UE goes, every task gets its answers and sends its
 synthetic release, and the releases alone empty the cells. No move here fails or loses anything.
 */
module NetworkRest {
  import opened Collections
  import opened Signalling
  import opened Du
  import opened DuRuns
  import opened F1Link
  import opened Network
  import opened NetworkShape
  import opened NetworkSafety
  import opened NetworkDrains

  /** Moves in which nothing fails and nothing is lost. */
  predicate Gentle(a: Move) {
    a.Vanish? || a.Issue? || a.Transmit? || a.DuReads? || a.ReaderGets? || a.Resume?
  }

  predicate AllGentle(run: seq<Move>) {
    forall a | a in run :: Gentle(a)
  }

  /** The RU writes to one link, its reader waits on the same link, and the DU holds it. */
  ghost predicate F1Up(n: Net, r: RuId) {
    && r in n.rus && n.rus[r].writer.Some?
    && n.rus[r].writer == n.rus[r].reader == n.rus[r].loop
    && n.rus[r].writer.value in n.du.conns
  }

  /** F1 is up for every RU that has an open socket, and no live link has been given up. */
  ghost predicate AllUp(n: Net) {
    && (forall l | l in n.du.conns :: Current(n, l))
    && (forall s | s in n.socks && n.socks[s].phase != Closed :: F1Up(n, n.socks[s].ru))
  }

  /** The request is on a live link, or its reply on the link the RU's reader waits on. */
  ghost predicate Coming(n: Net, k: Key) {
    || (k in n.up && n.up[k].link in n.du.conns)
    || (k in n.down && k.ru in n.rus && n.rus[k.ru].loop == Some(n.down[k].link))
  }

  /** The future a transaction has made. */
  ghost function Promised(n: Net, k: Key): Option<Future> {
    if Made(n, k) then Some(n.rus[k.ru].futures[k.txn]) else None
  }

  /** The task's transaction has not failed, and if it awaits an answer, the answer can still come. */
  ghost predicate Hopeful(n: Net, v: Sock) {
    Held(v).Some? ==>
      && Promised(n, Held(v).value).Some? && !Promised(n, Held(v).value).value.Broken?
      && (v.phase.Sent? && Promised(n, Held(v).value).value.Waiting? ==> Coming(n, Held(v).value))
  }

  ghost predicate AllHopeful(n: Net) {
    forall s | s in n.socks :: Hopeful(n, n.socks[s])
  }

  // ---- what the moves keep ----

  /** The links and the RUs' hold on them are as they were. */
  ghost predicate SameF1(n: Net, n': Net) {
    && n'.owner == n.owner && n'.du.conns.Keys == n.du.conns.Keys && n'.rus.Keys == n.rus.Keys
    && forall r | r in n.rus ::
         n'.rus[r].writer == n.rus[r].writer && n'.rus[r].reader == n.rus[r].reader && n'.rus[r].loop == n.rus[r].loop
  }

  /** One socket changes, and keeps its RU. */
  ghost predicate OnlySock(n: Net, n': Net, s: SockId) {
    && s in n.socks && s in n'.socks
    && n'.socks == n.socks[s := n'.socks[s]] && n'.socks.Keys == n.socks.Keys && n'.socks[s].ru == n.socks[s].ru
  }

  lemma UpKept(n: Net, n': Net, s: SockId)
    requires AllUp(n) && SameF1(n, n') && OnlySock(n, n', s) && n.socks[s].phase != Closed
    ensures AllUp(n')
  {
    forall l | l in n'.du.conns ensures Current(n', l) {
      assert Current(n, l);
    }
    forall x | x in n'.socks && n'.socks[x].phase != Closed ensures F1Up(n', n'.socks[x].ru) {
      assert F1Up(n, n.socks[x].ru);
    }
  }

  /** Nothing about a transaction differs. */
  ghost predicate SameFate(n: Net, n': Net, k: Key) {
    && (Promised(n, k).Some? ==> Promised(n', k) == Promised(n, k))
    && (k in n.up <==> k in n'.up) && (k in n.up ==> n'.up[k] == n.up[k])
    && (k in n.down <==> k in n'.down) && (k in n.down ==> n'.down[k] == n.down[k])
  }

  /** Only socket s's own transaction has moved on. */
  ghost predicate OthersSame(n: Net, n': Net, s: SockId) {
    forall x | x in n.socks && x != s && Held(n.socks[x]).Some? :: SameFate(n, n', Held(n.socks[x]).value)
  }

  lemma HopeKept(n: Net, n': Net, s: SockId)
    requires AllHopeful(n) && SameF1(n, n') && OnlySock(n, n', s) && OthersSame(n, n', s) && Hopeful(n', n'.socks[s])
    ensures AllHopeful(n')
  {
    forall x | x in n'.socks ensures Hopeful(n', n'.socks[x]) {
      assert Hopeful(n, n.socks[x]);
      if x != s && Held(n.socks[x]).Some? {
        assert SameFate(n, n', Held(n.socks[x]).value);
      }
    }
  }

  // ---- a task moves on ----

  ghost predicate Resolved(n: Net, v: Sock) {
    Held(v).Some? && Promised(n, Held(v).value).Some? && Promised(n, Held(v).value).value.Answered?
  }

  ghost predicate Readable(n: Net, k: Key) {
    k in n.down && k.ru in n.rus && n.rus[k.ru].loop == Some(n.down[k].link)
  }

  /** How many gentle moves a task is from its end: through its current request, then through its release. */
  ghost function Steps(n: Net, v: Sock): nat {
    var after := if v.closing then 0 else 6;
    match v.phase
    case Closed => 0
    case Reading => 6
    case Calling(_) => after + 5
    case Queued(_, _) => after + 4
    case Sent(_, _) => if Resolved(n, v) then after + 1 else if Readable(n, Held(v).value) then after + 2 else after + 3
  }

  /** The next gentle move of a task. */
  ghost function GentleMove(n: Net, s: SockId): Move
    requires s in n.socks && n.socks[s].phase != Closed
  {
    var v := n.socks[s];
    match v.phase
    case Reading => Vanish(s)
    case Calling(_) => Move.Issue(s)
    case Queued(_, _) => Transmit(s)
    case Sent(_, _) =>
      if Resolved(n, v) then Resume(s, true)
      else if Readable(n, Held(v).value) then ReaderGets(Held(v).value)
      else DuReads(Held(v).value)
  }

  lemma GentleMoveIsGentle(n: Net, s: SockId)
    requires s in n.socks && n.socks[s].phase != Closed
    ensures Gentle(GentleMove(n, s))
  {
  }

  /** The move brings the task nearer to its end and leaves the others and the links alone. */
  ghost predicate Advances(n: Net, n': Net, s: SockId) {
    && OnlySock(n, n', s) && SameF1(n, n') && OthersSame(n, n', s) && Hopeful(n', n'.socks[s])
    && Steps(n', n'.socks[s]) < Steps(n, n.socks[s])
  }

  /** Only the socket and what it heard change. */
  lemma SockAdvances(n: Net, s: SockId, v: Sock, h: map<SockId, seq<Heard>>)
    requires s in n.socks && v.ru == n.socks[s].ru && Held(v).None?
    requires Steps(n, v) < Steps(n, n.socks[s])
    ensures Advances(n, WithSock(n, s, v).(heard := h), s)
  {
    var n' := WithSock(n, s, v).(heard := h);
    assert Steps(n', v) == Steps(n, v);
  }

  lemma VanishAdvances(cfg: Config, topo: Topology, n: Net, s: SockId)
    requires cfg.Valid() && s in n.socks && SockOk(topo, n, n.socks[s]) && n.socks[s].phase == Reading
    ensures var m := Moved(cfg, topo, Orderly, n, Vanish(s)); m.Some? && Advances(n, m.value, s)
  {
    SockAdvances(n, s, Unwind(n.socks[s]), n.heard);
    assert WithSock(n, s, Unwind(n.socks[s])).(heard := n.heard) == WithSock(n, s, Unwind(n.socks[s]));
  }

  lemma ResumeAdvances(cfg: Config, topo: Topology, n: Net, s: SockId)
    requires cfg.Valid() && s in n.socks && SockOk(topo, n, n.socks[s])
    requires n.socks[s].phase.Sent? && Resolved(n, n.socks[s])
    ensures var m := Moved(cfg, topo, Orderly, n, Resume(s, true)); m.Some? && Advances(n, m.value, s)
  {
    var n' := Network.Next(cfg, topo, n, Resume(s, true));
    SockAdvances(n, s, AfterReply(n.socks[s], n.socks[s].phase.q, true), n'.heard);
  }

  lemma IssueKeepsFates(n: Net, s: SockId)
    requires FuturesOk(n) && s in n.socks && n.socks[s].phase.Calling? && n.socks[s].ru in n.rus
    ensures OthersSame(n, WithSock(IssuedFor(n, s), s, Holding(n, s)), s)
  {
    assert F1Ok(n.rus[n.socks[s].ru]);
    var n' := WithSock(IssuedFor(n, s), s, Holding(n, s));
    forall x | x in n.socks && x != s && Held(n.socks[x]).Some? ensures SameFate(n, n', Held(n.socks[x]).value) {
    }
  }

  lemma HoldingIsHopeful(n: Net, s: SockId)
    requires s in n.socks && n.socks[s].phase.Calling? && n.socks[s].ru in n.rus
    ensures Hopeful(WithSock(IssuedFor(n, s), s, Holding(n, s)), Holding(n, s))
  {
  }

  lemma IssueKeepsF1(n: Net, s: SockId)
    requires s in n.socks && n.socks[s].phase.Calling? && n.socks[s].ru in n.rus
    ensures SameF1(n, WithSock(IssuedFor(n, s), s, Holding(n, s)))
    ensures OnlySock(n, WithSock(IssuedFor(n, s), s, Holding(n, s)), s)
  {
  }

  lemma IssueAdvances(cfg: Config, topo: Topology, n: Net, s: SockId)
    requires cfg.Valid() && FuturesOk(n) && s in n.socks && n.socks[s].phase.Calling? && n.socks[s].ru in n.rus
    ensures var m := Moved(cfg, topo, Orderly, n, Move.Issue(s)); m.Some? && Advances(n, m.value, s)
  {
    IssueKeepsFates(n, s);
    HoldingIsHopeful(n, s);
    IssueKeepsF1(n, s);
  }

  /** What a held transaction can look like. */
  lemma HeldIsMade(topo: Topology, n: Net, s: SockId)
    requires WireOk(n) && SocksOk(topo, n) && s in n.socks && Held(n.socks[s]).Some?
    ensures Promised(n, Held(n.socks[s]).value).Some? && Held(n.socks[s]).value.ru == n.socks[s].ru
  {
    assert SockOk(topo, n, n.socks[s]) && KeyOk(n, Held(n.socks[s]).value);
  }

  // ---- a request is written ----

  lemma WrittenIsHopeful(n: Net, s: SockId, l: LinkId)
    requires s in n.socks && n.socks[s].phase.Queued? && Hopeful(n, n.socks[s]) && l in n.du.conns
    ensures Hopeful(Written(n, s, l), Written(n, s, l).socks[s])
  {
    var k := Held(n.socks[s]).value;
    assert Promised(Written(n, s, l), k) == Promised(n, k);
  }

  lemma WrittenKeepsFates(topo: Topology, n: Net, s: SockId, l: LinkId)
    requires SocksOk(topo, n) && s in n.socks && n.socks[s].phase.Queued?
    ensures OthersSame(n, Written(n, s, l), s)
  {
    forall x | x in n.socks && x != s && Held(n.socks[x]).Some?
      ensures SameFate(n, Written(n, s, l), Held(n.socks[x]).value)
    {
      assert Held(n.socks[x]) != Held(n.socks[s]);
    }
  }

  lemma WrittenAdvances(topo: Topology, n: Net, s: SockId, l: LinkId)
    requires SocksOk(topo, n) && s in n.socks && n.socks[s].phase.Queued? && Hopeful(n, n.socks[s]) && l in n.du.conns
    ensures Advances(n, Written(n, s, l), s)
  {
    WrittenIsHopeful(n, s, l);
    WrittenKeepsFates(topo, n, s, l);
  }

  lemma TransmitAdvances(cfg: Config, topo: Topology, n: Net, s: SockId)
    requires cfg.Valid() && SocksOk(topo, n) && s in n.socks && n.socks[s].phase.Queued?
    requires Hopeful(n, n.socks[s]) && F1Up(n, n.socks[s].ru)
    ensures var m := Moved(cfg, topo, Orderly, n, Transmit(s)); m.Some? && Advances(n, m.value, s)
  {
    var w := n.rus[n.socks[s].ru].writer;
    assert Sending(n, s, w) == Written(n, s, w.value);
    WrittenAdvances(topo, n, s, w.value);
  }

  // ---- the DU answers, and the reader gets the answer ----

  /** The task awaits transaction k. */
  ghost predicate Awaits(n: Net, s: SockId, k: Key) {
    s in n.socks && n.socks[s].phase.Sent? && Held(n.socks[s]) == Some(k)
  }

  lemma LiveIsHeard(n: Net, k: Key)
    requires k in n.up && FrameOk(n, k) && Current(n, n.up[k].link) && F1Up(n, k.ru)
    ensures n.rus[k.ru].loop == Some(n.up[k].link)
  {
  }

  lemma ReadKeepsFates(topo: Topology, n: Net, s: SockId, k: Key, du: Server, reply: Reply)
    requires SocksOk(topo, n) && Awaits(n, s, k) && k in n.up
    ensures OthersSame(n, ReadAs(n, k, du, reply), s)
  {
    forall x | x in n.socks && x != s && Held(n.socks[x]).Some?
      ensures SameFate(n, ReadAs(n, k, du, reply), Held(n.socks[x]).value)
    {
      assert Held(n.socks[x]) != Held(n.socks[s]);
    }
  }

  lemma ReadAdvances(topo: Topology, n: Net, s: SockId, k: Key, du: Server, reply: Reply)
    requires SocksOk(topo, n) && Awaits(n, s, k) && k in n.up && Hopeful(n, n.socks[s]) && !Resolved(n, n.socks[s])
    requires !Readable(n, k) && k.ru in n.rus && n.rus[k.ru].loop == Some(n.up[k].link)
    requires du.conns.Keys == n.du.conns.Keys
    ensures Advances(n, ReadAs(n, k, du, reply), s)
  {
    ReadKeepsFates(topo, n, s, k, du, reply);
    assert Promised(ReadAs(n, k, du, reply), k) == Promised(n, k);
    assert Readable(ReadAs(n, k, du, reply), k);
  }

  lemma DuReadsAdvances(cfg: Config, topo: Topology, n: Net, s: SockId, k: Key)
    requires cfg.Valid() && SocksOk(topo, n) && Awaits(n, s, k) && Hopeful(n, n.socks[s]) && !Resolved(n, n.socks[s])
    requires k in n.up && n.up[k].link in n.du.conns && FrameOk(n, k) && Current(n, n.up[k].link) && F1Up(n, k.ru)
    requires !Readable(n, k)
    ensures var m := Moved(cfg, topo, Orderly, n, DuReads(k)); m.Some? && Advances(n, m.value, s)
  {
    LiveIsHeard(n, k);
    DuReadsIsReadAs(cfg, topo, n, k);
    ReadAdvances(topo, n, s, k, AfterReading(cfg, n, k), Answer(cfg, n, k));
  }

  lemma TakenResolves(n: Net, k: Key)
    requires FuturesOk(n) && k in n.down && Promised(n, k) == Some(Waiting)
    ensures var n' := WithRu(Without(n, k), k.ru, Taken(n, k));
      Promised(n', k).Some? && Promised(n', k).value.Answered?
  {
    assert F1Ok(n.rus[k.ru]);
  }

  lemma TakenKeepsFate(n: Net, k: Key, j: Key)
    requires k in n.down && k.ru in n.rus && j != k
    ensures SameFate(n, WithRu(Without(n, k), k.ru, Taken(n, k)), j)
  {
    assert k == Key(k.ru, k.txn) && j == Key(j.ru, j.txn);
  }

  lemma TakenKeepsF1(n: Net, k: Key)
    requires k in n.down && F1Up(n, k.ru)
    ensures SameF1(n, WithRu(Without(n, k), k.ru, Taken(n, k)))
  {
  }

  lemma TakenKeepsFates(topo: Topology, n: Net, s: SockId, k: Key)
    requires SocksOk(topo, n) && Awaits(n, s, k) && k in n.down && k.ru in n.rus
    ensures OthersSame(n, WithRu(Without(n, k), k.ru, Taken(n, k)), s)
  {
    forall x | x in n.socks && x != s && Held(n.socks[x]).Some?
      ensures SameFate(n, WithRu(Without(n, k), k.ru, Taken(n, k)), Held(n.socks[x]).value)
    {
      assert Held(n.socks[x]) != Held(n.socks[s]);
      TakenKeepsFate(n, k, Held(n.socks[x]).value);
    }
  }

  lemma TakenIsNearer(n: Net, s: SockId, k: Key)
    requires FuturesOk(n) && Awaits(n, s, k) && Promised(n, k) == Some(Waiting) && Readable(n, k)
    ensures var n' := WithRu(Without(n, k), k.ru, Taken(n, k));
      Hopeful(n', n.socks[s]) && Steps(n', n.socks[s]) < Steps(n, n.socks[s])
  {
    TakenResolves(n, k);
  }

  lemma TakenAdvances(topo: Topology, n: Net, s: SockId, k: Key)
    requires FuturesOk(n) && SocksOk(topo, n) && Awaits(n, s, k) && F1Up(n, k.ru)
    requires Promised(n, k) == Some(Waiting) && Readable(n, k)
    ensures Advances(n, WithRu(Without(n, k), k.ru, Taken(n, k)), s)
  {
    TakenIsNearer(n, s, k);
    TakenKeepsF1(n, k);
    TakenKeepsFates(topo, n, s, k);
  }

  lemma ReaderGetsAdvances(cfg: Config, topo: Topology, n: Net, s: SockId, k: Key)
    requires cfg.Valid() && FuturesOk(n) && SocksOk(topo, n) && Awaits(n, s, k) && F1Up(n, k.ru)
    requires Promised(n, k) == Some(Waiting) && Readable(n, k)
    ensures var m := Moved(cfg, topo, Orderly, n, ReaderGets(k)); m.Some? && Advances(n, m.value, s)
  {
    ReaderGetsIs(cfg, topo, n, k);
    TakenAdvances(topo, n, s, k);
  }

  // ---- every task reaches its end ----

  /** The answer a task waits for is on its way to the DU, or back. */
  lemma SentAdvances(cfg: Config, topo: Topology, n: Net, s: SockId)
    requires cfg.Valid() && FuturesOk(n) && WireOk(n) && SocksOk(topo, n) && FramesOk(n) && AllUp(n)
    requires s in n.socks && n.socks[s].phase.Sent? && Hopeful(n, n.socks[s])
    ensures var m := Moved(cfg, topo, Orderly, n, GentleMove(n, s)); m.Some? && Advances(n, m.value, s)
  {
    var k := Held(n.socks[s]).value;
    HeldIsMade(topo, n, s);
    if Resolved(n, n.socks[s]) {
      ResumeAdvances(cfg, topo, n, s);
    } else if Readable(n, k) {
      ReaderGetsAdvances(cfg, topo, n, s, k);
    } else {
      assert FrameOk(n, k) && Current(n, n.up[k].link);
      DuReadsAdvances(cfg, topo, n, s, k);
    }
  }

  lemma TaskAdvances(cfg: Config, topo: Topology, n: Net, s: SockId)
    requires cfg.Valid() && FuturesOk(n) && WireOk(n) && SocksOk(topo, n) && FramesOk(n) && AllUp(n) && AllHopeful(n)
    requires s in n.socks && n.socks[s].phase != Closed
    ensures var m := Moved(cfg, topo, Orderly, n, GentleMove(n, s)); m.Some? && Advances(n, m.value, s)
  {
    assert SockOk(topo, n, n.socks[s]);
    match n.socks[s].phase {
      case Reading => VanishAdvances(cfg, topo, n, s);
      case Calling(_) => IssueAdvances(cfg, topo, n, s);
      case Queued(_, _) => TransmitAdvances(cfg, topo, n, s);
      case Sent(_, _) => SentAdvances(cfg, topo, n, s);
    }
  }

  /** A gentle run that leaves the links alone. */
  ghost predicate Leads(cfg: Config, topo: Topology, n: Net, run: seq<Move>, end: Net)
    requires cfg.Valid()
  {
    Reaches(cfg, topo, Orderly, n, run, end) && AllGentle(run) && SameF1(n, end)
  }

  lemma SameF1Through(a: Net, b: Net, c: Net)
    requires SameF1(a, b) && SameF1(b, c)
    ensures SameF1(a, c)
  {
  }

  lemma OnlySockThrough(a: Net, b: Net, c: Net, s: SockId)
    requires OnlySock(a, b, s) && OnlySock(b, c, s)
    ensures OnlySock(a, c, s)
  {
  }

  lemma LeadsFirst(cfg: Config, topo: Topology, n: Net, a: Move, n': Net, run: seq<Move>, end: Net)
    requires cfg.Valid() && Moved(cfg, topo, Orderly, n, a) == Some(n') && Gentle(a) && SameF1(n, n')
    requires Leads(cfg, topo, n', run, end)
    ensures Leads(cfg, topo, n, [a] + run, end)
  {
    FirstThen(cfg, topo, Orderly, n, a, n', run, end);
    SameF1Through(n, n', end);
  }

  lemma LeadsThrough(cfg: Config, topo: Topology, a: Net, run: seq<Move>, b: Net, more: seq<Move>, end: Net)
    requires cfg.Valid() && Leads(cfg, topo, a, run, b) && Leads(cfg, topo, b, more, end)
    ensures Leads(cfg, topo, a, run + more, end)
  {
    ReachesThrough(cfg, topo, Orderly, a, run, b, more, end);
    SameF1Through(a, b, end);
  }

  lemma ReachableTaskAdvances(cfg: Config, topo: Topology, n: Net, s: SockId)
    requires cfg.Valid() && topo.Valid() && Reachable(cfg, topo, n) && AllUp(n) && AllHopeful(n)
    requires s in n.socks && n.socks[s].phase != Closed
    ensures var m := Moved(cfg, topo, Orderly, n, GentleMove(n, s)); m.Some? && Advances(n, m.value, s)
  {
    ReachableInv(cfg, topo, n);
    TaskAdvances(cfg, topo, n, s);
  }

  lemma MovedReachable(cfg: Config, topo: Topology, n: Net, a: Move, n': Net)
    requires cfg.Valid() && Reachable(cfg, topo, n) && Moved(cfg, topo, Orderly, n, a) == Some(n')
    ensures Reachable(cfg, topo, n')
  {
    FirstThen(cfg, topo, Orderly, n, a, n', [], n');
    ReachableOn(cfg, topo, n, [a] + [], n');
  }

  /** One gentle move of a task. */
  lemma OneStep(cfg: Config, topo: Topology, n: Net, s: SockId) returns (n': Net)
    requires cfg.Valid() && topo.Valid() && Reachable(cfg, topo, n) && AllUp(n) && AllHopeful(n)
    requires s in n.socks && n.socks[s].phase != Closed
    ensures Moved(cfg, topo, Orderly, n, GentleMove(n, s)) == Some(n')
    ensures OnlySock(n, n', s) && SameF1(n, n') && Steps(n', n'.socks[s]) < Steps(n, n.socks[s])
    ensures Reachable(cfg, topo, n') && AllUp(n') && AllHopeful(n')
  {
    ReachableTaskAdvances(cfg, topo, n, s);
    n' := Moved(cfg, topo, Orderly, n, GentleMove(n, s)).value;
    UpKept(n, n', s);
    HopeKept(n, n', s);
    MovedReachable(cfg, topo, n, GentleMove(n, s), n');
  }

  lemma {:induction false} SocketRests(cfg: Config, topo: Topology, n: Net, s: SockId)
    returns (run: seq<Move>, end: Net)
    requires cfg.Valid() && topo.Valid() && Reachable(cfg, topo, n) && AllUp(n) && AllHopeful(n) && s in n.socks
    ensures Leads(cfg, topo, n, run, end)
    ensures Reachable(cfg, topo, end) && AllUp(end) && AllHopeful(end)
    ensures OnlySock(n, end, s) && end.socks[s].phase == Closed
    decreases Steps(n, n.socks[s])
  {
    if n.socks[s].phase == Closed {
      run, end := [], n;
    } else {
      var n' := OneStep(cfg, topo, n, s);
      var more;
      more, end := SocketRests(cfg, topo, n', s);
      var a := GentleMove(n, s);
      GentleMoveIsGentle(n, s);
      run := [a] + more;
      LeadsFirst(cfg, topo, n, a, n', more, end);
      OnlySockThrough(n, n', end, s);
    }
  }

  lemma OneFewer(n: Net, n': Net, s: SockId)
    requires s in OpenSocks(n) && OnlySock(n, n', s) && n'.socks[s].phase == Closed
    ensures OpenSocks(n') == OpenSocks(n) - {s}
  {
  }

  lemma {:induction false} SocketsRest(cfg: Config, topo: Topology, n: Net) returns (run: seq<Move>, end: Net)
    requires cfg.Valid() && topo.Valid() && Reachable(cfg, topo, n) && AllUp(n) && AllHopeful(n)
    ensures Leads(cfg, topo, n, run, end)
    ensures Reachable(cfg, topo, end) && AllUp(end) && OpenSocks(end) == {}
    decreases |OpenSocks(n)|
  {
    if OpenSocks(n) == {} {
      run, end := [], n;
    } else {
      var s :| s in OpenSocks(n);
      var first, n' := SocketRests(cfg, topo, n, s);
      OneFewer(n, n', s);
      var more;
      more, end := SocketsRest(cfg, topo, n');
      run := first + more;
      LeadsThrough(cfg, topo, n, first, n', more, end);
    }
  }

  /** With all tasks at their end nothing is left on a live link. */
  lemma RestedIsQuiet(topo: Topology, n: Net)
    requires FramesOk(n) && AllUp(n) && OpenSocks(n) == {}
    ensures Quiet(n)
  {
    forall s | s in n.socks ensures n.socks[s].phase == Closed {
      assert s !in OpenSocks(n);
    }
    forall k | k in n.up ensures n.up[k].link !in n.du.conns {
      assert FrameOk(n, k);
    }
  }

  // ---- what cannot come back ----

  /** The task holds a transaction that has failed, or awaits an answer that is lost. */
  ghost predicate Stuck(n: Net, s: SockId) {
    && s in n.socks && F1Up(n, n.socks[s].ru)
    && Held(n.socks[s]).Some? && Promised(n, Held(n.socks[s]).value).Some?
    && !Hopeful(n, n.socks[s])
  }

  /** One RU's hold on its link is as it was. */
  ghost predicate SameEnd(n: Net, n': Net, r: RuId) {
    && r in n.rus && r in n'.rus && n'.du.conns.Keys == n.du.conns.Keys
    && n'.rus[r].writer == n.rus[r].writer && n'.rus[r].reader == n.rus[r].reader && n'.rus[r].loop == n.rus[r].loop
  }

  /** Its socket, its fate and its RU's link are as they were. */
  lemma SameStaysStuck(n: Net, n': Net, s: SockId)
    requires Stuck(n, s) && SameEnd(n, n', n.socks[s].ru) && s in n'.socks && n'.socks[s] == n.socks[s]
    requires SameFate(n, n', Held(n.socks[s]).value)
    ensures Stuck(n', s)
  {
  }

  /** A failed transaction stays failed whatever becomes of its request. */
  lemma BrokenStaysStuck(n: Net, n': Net, s: SockId)
    requires Stuck(n, s) && SameEnd(n, n', n.socks[s].ru) && s in n'.socks
    requires n'.socks[s].ru == n.socks[s].ru && Held(n'.socks[s]) == Held(n.socks[s])
    requires Promised(n, Held(n.socks[s]).value) == Promised(n', Held(n.socks[s]).value) == Some(Broken)
    ensures Stuck(n', s)
  {
  }

  lemma OthersIssueStaysStuck(n: Net, x: SockId, s: SockId)
    requires FuturesOk(n) && Stuck(n, s) && x != s && x in n.socks
    requires n.socks[x].phase.Calling? && n.socks[x].ru in n.rus
    ensures Stuck(WithSock(IssuedFor(n, x), x, Holding(n, x)), s)
  {
    IssueKeepsFates(n, x);
    IssueKeepsF1(n, x);
    SameStaysStuck(n, WithSock(IssuedFor(n, x), x, Holding(n, x)), s);
  }

  lemma OthersSockStaysStuck(n: Net, x: SockId, v: Sock, h: map<SockId, seq<Heard>>, s: SockId)
    requires Stuck(n, s) && x != s
    ensures Stuck(WithSock(n, x, v).(heard := h), s)
  {
    SameStaysStuck(n, WithSock(n, x, v).(heard := h), s);
  }

  lemma OthersTaskStaysStuck(cfg: Config, topo: Topology, n: Net, a: Move, s: SockId)
    requires cfg.Valid() && FuturesOk(n) && Stuck(n, s) && Possible(topo, n, a)
    requires (a.Vanish? || a.Issue? || a.Resume?) && a.sock != s
    ensures Stuck(Network.Next(cfg, topo, n, a), s)
  {
    match a {
      case Issue(x) => OthersIssueStaysStuck(n, x, s);
      case Vanish(x) => OthersSockStaysStuck(n, x, Unwind(n.socks[x]), n.heard, s);
      case Resume(x, delivered) =>
        var v := AfterReply(n.socks[x], n.socks[x].phase.q, delivered);
        OthersSockStaysStuck(n, x, v, Network.Next(cfg, topo, n, a).heard, s);
    }
  }

  lemma SendingStaysStuck(topo: Topology, n: Net, x: SockId, w: Option<LinkId>, s: SockId)
    requires SocksOk(topo, n) && Stuck(n, s) && x in n.socks && n.socks[x].phase.Queued?
    requires x == s ==> w.Some?
    ensures Stuck(Sending(n, x, w), s)
  {
    if x == s {
      assert Promised(Sending(n, x, w), Held(n.socks[s]).value) == Promised(n, Held(n.socks[s]).value);
      BrokenStaysStuck(n, Sending(n, x, w), s);
    } else {
      if w.Some? {
        WrittenKeepsFates(topo, n, x, w.value);
      }
      SameStaysStuck(n, Sending(n, x, w), s);
    }
  }

  lemma ReadStaysStuck(topo: Topology, n: Net, k: Key, du: Server, reply: Reply, s: SockId)
    requires Stuck(n, s) && k in n.up && n.up[k].link in n.du.conns && du.conns.Keys == n.du.conns.Keys
    ensures Stuck(ReadAs(n, k, du, reply), s)
  {
    var n' := ReadAs(n, k, du, reply);
    if Held(n.socks[s]) == Some(k) {
      assert Promised(n', k) == Promised(n, k);
      BrokenStaysStuck(n, n', s);
    } else {
      SameStaysStuck(n, n', s);
    }
  }

  lemma TakenKeepsEnd(n: Net, k: Key, r: RuId)
    requires k in n.down && k.ru in n.rus && F1Up(n, r)
    ensures SameEnd(n, WithRu(Without(n, k), k.ru, Taken(n, k)), r)
  {
  }

  lemma TakenKeepsBroken(n: Net, k: Key)
    requires FuturesOk(n) && k in n.down && Promised(n, k) == Some(Broken)
    ensures Promised(WithRu(Without(n, k), k.ru, Taken(n, k)), k) == Some(Broken)
  {
    assert F1Ok(n.rus[k.ru]);
  }

  lemma TakenStaysStuck(n: Net, k: Key, s: SockId)
    requires FuturesOk(n) && Stuck(n, s) && k in n.down && k.ru in n.rus && n.rus[k.ru].loop == Some(n.down[k].link)
    ensures Stuck(WithRu(Without(n, k), k.ru, Taken(n, k)), s)
  {
    var n' := WithRu(Without(n, k), k.ru, Taken(n, k));
    TakenKeepsEnd(n, k, n.socks[s].ru);
    if Held(n.socks[s]) == Some(k) {
      TakenKeepsBroken(n, k);
      BrokenStaysStuck(n, n', s);
    } else {
      TakenKeepsFate(n, k, Held(n.socks[s]).value);
      SameStaysStuck(n, n', s);
    }
  }

  lemma StuckStays(cfg: Config, topo: Topology, n: Net, a: Move, s: SockId)
    requires cfg.Valid() && FuturesOk(n) && SocksOk(topo, n) && Stuck(n, s) && Possible(topo, n, a) && Gentle(a)
    ensures Stuck(Network.Next(cfg, topo, n, a), s)
  {
    if a.Transmit? {
      SendingStaysStuck(topo, n, a.sock, n.rus[n.socks[a.sock].ru].writer, s);
    } else if a.DuReads? {
      DuReadsIsReadAs(cfg, topo, n, a.key);
      ReadStaysStuck(topo, n, a.key, AfterReading(cfg, n, a.key), Answer(cfg, n, a.key), s);
    } else if a.ReaderGets? {
      ReaderGetsIs(cfg, topo, n, a.key);
      TakenStaysStuck(n, a.key, s);
    } else {
      OthersTaskStaysStuck(cfg, topo, n, a, s);
    }
  }

  lemma {:induction false} StuckForGood(cfg: Config, topo: Topology, n: Net, run: seq<Move>, end: Net, s: SockId)
    requires cfg.Valid() && topo.Valid() && Shape(topo, n) && Stuck(n, s)
    requires Reaches(cfg, topo, Orderly, n, run, end) && AllGentle(run)
    ensures Stuck(end, s)
    decreases |run|
  {
    if run != [] {
      StuckStays(cfg, topo, n, run[0], s);
      MoveKeepsShape(cfg, topo, n, run[0]);
      StuckForGood(cfg, topo, Network.Next(cfg, topo, n, run[0]), run[1..], end, s);
    }
  }

  lemma HopelessIsStuck(cfg: Config, topo: Topology, n: Net, s: SockId)
    requires cfg.Valid() && topo.Valid() && Reachable(cfg, topo, n)
    requires AllUp(n) && s in n.socks && !Hopeful(n, n.socks[s])
    ensures Shape(topo, n) && Stuck(n, s)
  {
    ReachableInv(cfg, topo, n);
    HeldIsMade(topo, n, s);
  }

  // ---- the orderly way to rest ----

  /** Some run of gentle moves ends with all at rest, every link still up and every cell empty. */
  ghost predicate RestsGently(cfg: Config, topo: Topology, n: Net)
    requires cfg.Valid()
  {
    exists run, end ::
      && Reaches(cfg, topo, Orderly, n, run, end) && AllGentle(run) && Quiet(end) && SameF1(n, end)
      && forall c | c in end.du.cells :: end.du.cells[c].sessions == map[] && end.du.cells[c].used == 0
  }

  lemma HopefulRests(cfg: Config, topo: Topology, n: Net)
    requires cfg.Valid() && topo.Valid() && Reachable(cfg, topo, n) && AllUp(n) && AllHopeful(n)
    ensures RestsGently(cfg, topo, n)
  {
    var run, end := SocketsRest(cfg, topo, n);
    ReachableInv(cfg, topo, end);
    RestedIsQuiet(topo, end);
    forall c | c in end.du.cells ensures end.du.cells[c].sessions == map[] && end.du.cells[c].used == 0 {
      QuietMeansEmpty(cfg, topo, end, c);
    }
  }

  lemma GentleRestNeedsHope(cfg: Config, topo: Topology, n: Net, run: seq<Move>, end: Net, s: SockId)
    requires cfg.Valid() && topo.Valid() && Reachable(cfg, topo, n) && AllUp(n) && s in n.socks
    requires Reaches(cfg, topo, Orderly, n, run, end) && AllGentle(run) && Quiet(end)
    ensures Hopeful(n, n.socks[s])
  {
    if !Hopeful(n, n.socks[s]) {
      HopelessIsStuck(cfg, topo, n, s);
      StuckForGood(cfg, topo, n, run, end, s);
      assert false;
    }
  }

  /**
   From every reachable state in which F1 is up wherever a socket is open, the UEs' going, the
   tasks' releases and the DU's answers to them bring the system to rest with every cell empty
   and every link up, without any failure, exactly when no held transaction has failed and no
   awaited answer was lost with a link.
   */
  lemma RestsGentlyIff(cfg: Config, topo: Topology, n: Net)
    requires cfg.Valid() && topo.Valid() && Reachable(cfg, topo, n) && AllUp(n)
    ensures RestsGently(cfg, topo, n) <==> AllHopeful(n)
  {
    if AllHopeful(n) {
      HopefulRests(cfg, topo, n);
    }
    if RestsGently(cfg, topo, n) {
      var run, end :| Reaches(cfg, topo, Orderly, n, run, end) && AllGentle(run) && Quiet(end);
      forall s | s in n.socks ensures Hopeful(n, n.socks[s]) {
        GentleRestNeedsHope(cfg, topo, n, run, end, s);
      }
    }
  }
}
