/**
 The way to rest when F1 cannot be relied on: sends that fail end the tasks, and the loss of
 every link at the DU empties the cells. It is open from every reachable state. The orderly
 way, by releases, is in NetworkRest.dfy.
 */
module NetworkDrains {
  import opened Du
  import opened Network
  import opened NetworkShape
  import opened NetworkSafety

  /** How far a task is from its end when its UE is gone and its link breaks under it. */
  function Distance(s: Sock): nat {
    match s.phase
    case Closed => 0
    case Calling(_) => if s.closing then 2 else 4
    case _ => if s.closing then 1 else 3
  }

  /** The move that ends what the task is in. */
  function WayOut(s: SockId, v: Sock): Move
    requires v.phase != Closed
  {
    match v.phase
    case Reading => Vanish(s)
    case Calling(_) => Move.Issue(s)
    case Queued(_, _) => TransmitFails(s)
    case Sent(_, _) => DrainFails(s)
  }

  ghost predicate Housed(n: Net) {
    forall s | s in n.socks :: n.socks[s].ru in n.rus
  }

  /** A move by which one socket comes nearer to its end and nothing else at the DU or the sockets changes. */
  ghost predicate Helps(n: Net, n': Net, s: SockId)
    requires s in n.socks
  {
    && n'.du == n.du && Housed(n') && n'.socks.Keys == n.socks.Keys
    && n'.socks == n.socks[s := n'.socks[s]] && Distance(n'.socks[s]) < Distance(n.socks[s])
  }

  lemma BreakHelps(n: Net, s: SockId)
    requires Housed(n) && s in n.socks && (n.socks[s].phase.Queued? || n.socks[s].phase.Sent?)
    ensures Helps(n, BreakUnder(n, s), s)
  {
  }

  lemma WayOutHelps(cfg: Config, topo: Topology, n: Net, s: SockId)
    requires cfg.Valid() && Housed(n) && s in n.socks && n.socks[s].phase != Closed
    ensures Moved(cfg, topo, Orderly, n, WayOut(s, n.socks[s])).Some?
    ensures Helps(n, Moved(cfg, topo, Orderly, n, WayOut(s, n.socks[s])).value, s)
  {
    if n.socks[s].phase.Queued? || n.socks[s].phase.Sent? {
      BreakHelps(n, s);
    }
  }

  lemma {:induction false} SocketCloses(cfg: Config, topo: Topology, n: Net, s: SockId)
    returns (run: seq<Move>, end: Net)
    requires cfg.Valid() && Housed(n) && s in n.socks
    ensures Reaches(cfg, topo, Orderly, n, run, end) && Housed(end) && end.du == n.du
    ensures end.socks.Keys == n.socks.Keys && end.socks == n.socks[s := end.socks[s]] && end.socks[s].phase == Closed
    decreases Distance(n.socks[s])
  {
    if n.socks[s].phase == Closed {
      run, end := [], n;
    } else {
      var a := WayOut(s, n.socks[s]);
      WayOutHelps(cfg, topo, n, s);
      var n' := Moved(cfg, topo, Orderly, n, a).value;
      var more;
      more, end := SocketCloses(cfg, topo, n', s);
      run := [a] + more;
      FirstThen(cfg, topo, Orderly, n, a, n', more, end);
    }
  }

  function OpenSocks(n: Net): set<SockId> {
    set s | s in n.socks && n.socks[s].phase != Closed
  }

  lemma {:induction false} SocketsClose(cfg: Config, topo: Topology, n: Net) returns (run: seq<Move>, end: Net)
    requires cfg.Valid() && Housed(n)
    ensures Reaches(cfg, topo, Orderly, n, run, end) && end.du == n.du && OpenSocks(end) == {}
    decreases |OpenSocks(n)|
  {
    if OpenSocks(n) == {} {
      run, end := [], n;
    } else {
      var s :| s in OpenSocks(n);
      var first, n' := SocketCloses(cfg, topo, n, s);
      assert OpenSocks(n') == OpenSocks(n) - {s};
      var more;
      more, end := SocketsClose(cfg, topo, n');
      run := first + more;
      ReachesThrough(cfg, topo, Orderly, n, first, n', more, end);
    }
  }

  lemma {:induction false} LinksGo(cfg: Config, topo: Topology, n: Net) returns (run: seq<Move>, end: Net)
    requires cfg.Valid()
    ensures Reaches(cfg, topo, Orderly, n, run, end) && end.du.conns == map[] && end.socks == n.socks
    decreases |n.du.conns|
  {
    if n.du.conns == map[] {
      run, end := [], n;
    } else {
      var l :| l in n.du.conns;
      var n' := Network.Next(cfg, topo, n, DuLoses(l));
      assert n'.du.conns == n.du.conns - {l};
      var more;
      more, end := LinksGo(cfg, topo, n');
      run := [DuLoses(l)] + more;
      FirstThen(cfg, topo, Orderly, n, DuLoses(l), n', more, end);
    }
  }

  lemma ReachableHoused(cfg: Config, topo: Topology, n: Net)
    requires cfg.Valid() && topo.Valid() && Reachable(cfg, topo, n)
    ensures Housed(n)
  {
    ReachableInv(cfg, topo, n);
    forall s | s in n.socks ensures n.socks[s].ru in n.rus {
      assert SockOk(topo, n, n.socks[s]);
    }
  }

  lemma ReachableOn(cfg: Config, topo: Topology, n: Net, run: seq<Move>, end: Net)
    requires cfg.Valid() && Reachable(cfg, topo, n) && Reaches(cfg, topo, Orderly, n, run, end)
    ensures Reachable(cfg, topo, end)
  {
    var before :| Reaches(cfg, topo, Orderly, Network.Start(topo), before, n);
    ReachesThrough(cfg, topo, Orderly, Network.Start(topo), before, n, run, end);
  }

  lemma RestIsQuiet(n: Net)
    requires OpenSocks(n) == {} && n.du.conns == map[]
    ensures Quiet(n)
  {
    forall s | s in n.socks ensures n.socks[s].phase == Closed {
      assert s !in OpenSocks(n);
    }
  }

  lemma DrainRun(cfg: Config, topo: Topology, n: Net) returns (run: seq<Move>, end: Net)
    requires cfg.Valid() && topo.Valid() && Reachable(cfg, topo, n)
    ensures Reaches(cfg, topo, Orderly, n, run, end) && Quiet(end)
  {
    ReachableHoused(cfg, topo, n);
    var first, closed := SocketsClose(cfg, topo, n);
    var more;
    more, end := LinksGo(cfg, topo, closed);
    run := first + more;
    ReachesThrough(cfg, topo, Orderly, n, first, closed, more, end);
    assert OpenSocks(end) == OpenSocks(closed);
    RestIsQuiet(end);
  }

  /**
   From every reachable state, by failing sends and the loss of every link, some run comes
   to rest with no PRB held.
   */
  lemma AlwaysDrains(cfg: Config, topo: Topology, n: Net)
    requires cfg.Valid() && topo.Valid() && Reachable(cfg, topo, n)
    ensures exists run, end ::
      && Reaches(cfg, topo, Orderly, n, run, end) && Reachable(cfg, topo, end) && Quiet(end)
      && forall c | c in end.du.cells :: end.du.cells[c].sessions == map[] && end.du.cells[c].used == 0
  {
    var run, end := DrainRun(cfg, topo, n);
    ReachableOn(cfg, topo, n, run, end);
    forall c | c in end.du.cells ensures end.du.cells[c].sessions == map[] && end.du.cells[c].used == 0 {
      QuietMeansEmpty(cfg, topo, end, c);
    }
  }
}
