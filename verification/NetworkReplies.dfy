/**
 Replies reach the request they answer, whatever the UEs send and whatever fails
 (poc_StressTest/ru/ru_server.py, class F1Link).
 */
module NetworkReplies {
  import opened Collections
  import opened Du
  import opened DuRuns
  import opened F1Link
  import opened Network
  import opened NetworkShape

  /** Every recorded answer is what the DU's handlers say to that request, in the state it was read in. */
  ghost predicate HistoryOk(cfg: Config, n: Net)
    requires cfg.Valid()
  {
    forall k | k in n.served :: n.served[k].reply == Dispatch(cfg, n.served[k].before, n.served[k].q).1
  }

  // ---- what a move leaves as it was ----

  lemma SendingKeeps(n: Net, s: SockId, w: Option<LinkId>)
    requires s in n.socks && n.socks[s].phase.Queued?
    ensures var n' := Sending(n, s, w); n'.du == n.du && n'.served == n.served && n'.rus == n.rus
  {
  }

  lemma UeMovesKeepDu(cfg: Config, topo: Topology, n: Net, a: Move)
    requires cfg.Valid() && Possible(topo, n, a)
    requires a.Open? || a.Uplink? || a.Vanish? || a.Issue? || a.Transmit? || a.Resume?
    ensures Network.Next(cfg, topo, n, a).du == n.du && Network.Next(cfg, topo, n, a).served == n.served
  {
    if a.Transmit? {
      SendingKeeps(n, a.sock, n.rus[n.socks[a.sock].ru].writer);
    }
  }

  lemma FailuresKeepDu(cfg: Config, topo: Topology, n: Net, a: Move)
    requires cfg.Valid() && Possible(topo, n, a)
    requires a.TransmitFails? || a.DrainFails? || a.ResumeBroken? || a.ReaderGets? || a.ReaderBreaks? || a.RuCrashes?
    ensures Network.Next(cfg, topo, n, a).du == n.du && Network.Next(cfg, topo, n, a).served == n.served
  {
  }

  /** Only new links, lost links and reading change what the DU has. */
  lemma OtherMovesKeepDu(cfg: Config, topo: Topology, n: Net, a: Move)
    requires cfg.Valid() && Possible(topo, n, a) && !a.Connect? && !a.DuReads? && !a.DuLoses?
    ensures Network.Next(cfg, topo, n, a).du == n.du && Network.Next(cfg, topo, n, a).served == n.served
  {
    if a.Open? || a.Uplink? || a.Vanish? || a.Issue? || a.Transmit? || a.Resume? {
      UeMovesKeepDu(cfg, topo, n, a);
    } else {
      FailuresKeepDu(cfg, topo, n, a);
    }
  }

  lemma DuReadsKeepsHistory(cfg: Config, topo: Topology, n: Net, k: Key)
    requires cfg.Valid() && Possible(topo, n, DuReads(k)) && HistoryOk(cfg, n)
    ensures HistoryOk(cfg, Network.Next(cfg, topo, n, DuReads(k)))
  {
  }

  lemma MoveKeepsHistory(cfg: Config, topo: Topology, n: Net, a: Move)
    requires cfg.Valid() && Possible(topo, n, a) && HistoryOk(cfg, n)
    ensures HistoryOk(cfg, Network.Next(cfg, topo, n, a))
  {
    match a {
      case Connect(_, _) =>
      case DuReads(k) => DuReadsKeepsHistory(cfg, topo, n, k);
      case DuLoses(_) =>
      case _ => OtherMovesKeepDu(cfg, topo, n, a);
    }
  }

  /** States some run reaches, whatever the UEs send. */
  ghost predicate Occurs(cfg: Config, topo: Topology, n: Net)
    requires cfg.Valid()
  {
    exists run :: Reaches(cfg, topo, Anything, Network.Start(topo), run, n)
  }

  lemma {:induction false} RunKeepsHistory(cfg: Config, topo: Topology, d: Conduct, n: Net, run: seq<Move>, end: Net)
    requires cfg.Valid() && HistoryOk(cfg, n) && Reaches(cfg, topo, d, n, run, end)
    ensures HistoryOk(cfg, end)
    decreases |run|
  {
    if run != [] {
      MoveKeepsHistory(cfg, topo, n, run[0]);
      RunKeepsHistory(cfg, topo, d, Network.Next(cfg, topo, n, run[0]), run[1..], end);
    }
  }

  lemma OccursShape(cfg: Config, topo: Topology, n: Net)
    requires cfg.Valid() && topo.Valid() && Occurs(cfg, topo, n)
    ensures Shape(topo, n) && HistoryOk(cfg, n)
  {
    var run :| Reaches(cfg, topo, Anything, Network.Start(topo), run, n);
    StartShape(topo);
    RunKeepsShape(cfg, topo, Anything, Network.Start(topo), run, n);
    RunKeepsHistory(cfg, topo, Anything, Network.Start(topo), run, n);
  }

  // ---- replies ----

  /**
   The reply a serve_ue task resumes with is the one answer on record to the very
   transaction the task issued, and what the DU's handlers said to that request in the
   state they read it in.
   */
  lemma ResumesWithOwnReply(cfg: Config, topo: Topology, n: Net, s: SockId)
    requires cfg.Valid() && topo.Valid() && Occurs(cfg, topo, n)
    requires s in n.socks && FutureOf(n, n.socks[s]).Some? && FutureOf(n, n.socks[s]).value.Answered?
    ensures Held(n.socks[s]).Some?
    ensures var k := Held(n.socks[s]).value;
      && k in n.issued && k in n.served
      && n.served[k].q == n.issued[k] == n.socks[s].phase.q
      && FutureOf(n, n.socks[s]).value.reply == n.served[k].reply
      && n.served[k].reply == Dispatch(cfg, n.served[k].before, n.served[k].q).1
  {
    OccursShape(cfg, topo, n);
    assert SockOk(topo, n, n.socks[s]) && KeyOk(n, Held(n.socks[s]).value);
  }

  lemma ReadingKeepsServed(cfg: Config, topo: Topology, n: Net, j: Key, k: Key)
    requires cfg.Valid() && WireOk(n) && Possible(topo, n, DuReads(j)) && k in n.served
    ensures var end := Network.Next(cfg, topo, n, DuReads(j));
      j in end.served && end.served == n.served[j := end.served[j]]
    ensures j != k
  {
    assert KeyOk(n, j);
  }

  lemma MoveKeepsServed(cfg: Config, topo: Topology, n: Net, a: Move, k: Key)
    requires cfg.Valid() && WireOk(n) && Possible(topo, n, a) && k in n.served
    ensures k in Network.Next(cfg, topo, n, a).served && Network.Next(cfg, topo, n, a).served[k] == n.served[k]
  {
    match a {
      case DuReads(j) => ReadingKeepsServed(cfg, topo, n, j, k);
      case Connect(_, _) =>
      case DuLoses(_) =>
      case _ => OtherMovesKeepDu(cfg, topo, n, a);
    }
  }

  lemma {:induction false} AnswersStay(cfg: Config, topo: Topology, d: Conduct, n: Net, run: seq<Move>, end: Net,
                                       k: Key)
    requires cfg.Valid() && topo.Valid() && Shape(topo, n) && Reaches(cfg, topo, d, n, run, end) && k in n.served
    ensures k in end.served && end.served[k] == n.served[k]
    decreases |run|
  {
    if run != [] {
      MoveKeepsServed(cfg, topo, n, run[0], k);
      MoveKeepsShape(cfg, topo, n, run[0]);
      AnswersStay(cfg, topo, d, Network.Next(cfg, topo, n, run[0]), run[1..], end, k);
    }
  }

  /** The answer on record to a transaction is never replaced, in no run, so it is the one the DU gave. */
  lemma AnsweredOnce(cfg: Config, topo: Topology, n: Net, run: seq<Move>, end: Net, k: Key)
    requires cfg.Valid() && topo.Valid() && Occurs(cfg, topo, n) && Reaches(cfg, topo, Anything, n, run, end)
    requires k in n.served
    ensures k in end.served && end.served[k] == n.served[k]
  {
    OccursShape(cfg, topo, n);
    AnswersStay(cfg, topo, Anything, n, run, end, k);
  }

  /** What one move can do to one RU's end of F1. */
  ghost predicate F1Step(f: F1State, f': F1State) {
    || f' == f || f' == Abandon(f) || f' == ReaderFails(f) || f' == F1Link.Issue(f)
    || (exists t, r :: f' == TakeReply(f, t, r))
    || (exists l :: f' == Connected(f, l))
  }

  lemma UeMovesKeepRus(cfg: Config, topo: Topology, n: Net, a: Move)
    requires cfg.Valid() && Possible(topo, n, a)
    requires a.Open? || a.Uplink? || a.Vanish? || a.Transmit? || a.Resume? || a.DuReads? || a.DuLoses?
    ensures Network.Next(cfg, topo, n, a).rus == n.rus
  {
    if a.Transmit? {
      SendingKeeps(n, a.sock, n.rus[n.socks[a.sock].ru].writer);
    }
  }

  lemma RuMovesAreF1Steps(cfg: Config, topo: Topology, n: Net, a: Move, r: RuId)
    requires cfg.Valid() && Possible(topo, n, a) && r in n.rus
    requires a.Issue? || a.Connect? || a.ReaderGets? || a.ReaderBreaks? || a.RuCrashes?
    ensures r in Network.Next(cfg, topo, n, a).rus && F1Step(n.rus[r], Network.Next(cfg, topo, n, a).rus[r])
  {
    match a {
      case Connect(_, l) =>
        assert F1Step(n.rus[r], Connected(n.rus[r], l));
      case ReaderGets(k) =>
        assert F1Step(n.rus[r], TakeReply(n.rus[r], k.txn, n.down[k].reply));
      case _ =>
    }
  }

  lemma MovesAreF1Steps(cfg: Config, topo: Topology, n: Net, a: Move, r: RuId)
    requires cfg.Valid() && Possible(topo, n, a) && r in n.rus
    ensures r in Network.Next(cfg, topo, n, a).rus && F1Step(n.rus[r], Network.Next(cfg, topo, n, a).rus[r])
  {
    if a.Issue? || a.Connect? || a.ReaderGets? || a.ReaderBreaks? || a.RuCrashes? {
      RuMovesAreF1Steps(cfg, topo, n, a, r);
    } else if a.TransmitFails? || a.DrainFails? || a.ResumeBroken? {
      assert F1Step(n.rus[r], Abandon(n.rus[r]));
    } else {
      UeMovesKeepRus(cfg, topo, n, a);
    }
  }

  lemma F1StepsResolveOnce(f: F1State, f': F1State)
    requires F1Ok(f) && F1Step(f, f')
    ensures ResolvedKept(f, f') && f.futures.Keys <= f'.futures.Keys
  {
  }

  /** A resolved future keeps its result for ever, and no transaction is forgotten. */
  lemma ResolvedOnce(cfg: Config, topo: Topology, n: Net, a: Move, r: RuId)
    requires cfg.Valid() && topo.Valid() && Occurs(cfg, topo, n) && Possible(topo, n, a) && r in n.rus
    ensures var n' := Network.Next(cfg, topo, n, a);
      r in n'.rus && ResolvedKept(n.rus[r], n'.rus[r]) && n.rus[r].futures.Keys <= n'.rus[r].futures.Keys
  {
    OccursShape(cfg, topo, n);
    MovesAreF1Steps(cfg, topo, n, a, r);
    F1StepsResolveOnce(n.rus[r], Network.Next(cfg, topo, n, a).rus[r]);
  }

  lemma WaitersAreRegistered(topo: Topology, n: Net, s: Sock)
    requires FuturesOk(n) && WireOk(n) && SockOk(topo, n, s) && s.phase.Sent?
    ensures FutureOf(n, s).Some?
    ensures FutureOf(n, s).value.Waiting? <==> s.phase.txn in n.rus[s.ru].pending
  {
    assert KeyOk(n, Held(s).value) && F1Ok(n.rus[s.ru]);
  }

  /** At every moment an awaiting task's future is resolved, or registered where a link failure will find it. */
  lemma NoCallerStranded(cfg: Config, topo: Topology, n: Net, s: SockId)
    requires cfg.Valid() && topo.Valid() && Occurs(cfg, topo, n) && s in n.socks && n.socks[s].phase.Sent?
    ensures FutureOf(n, n.socks[s]).Some?
    ensures FutureOf(n, n.socks[s]).value.Waiting? <==> n.socks[s].phase.txn in n.rus[n.socks[s].ru].pending
  {
    OccursShape(cfg, topo, n);
    WaitersAreRegistered(topo, n, n.socks[s]);
  }

  /** What a waiting caller can do once the reader has failed: give up, or go on with a reply it already had. */
  lemma BreakWakes(topo: Topology, n: Net, s: SockId)
    requires s in n.socks && n.socks[s].phase.Sent? && FutureOf(n, n.socks[s]).Some? && F1Ok(n.rus[n.socks[s].ru])
    ensures var broken := WithRu(n, n.socks[s].ru, ReaderFails(n.rus[n.socks[s].ru]));
      Possible(topo, broken, ResumeBroken(s)) || Possible(topo, broken, Resume(s, true))
  {
    AbandonStrandsNoOne(n.rus[n.socks[s].ru], n.socks[s].phase.txn);
  }

  lemma CallersHaveFutures(cfg: Config, topo: Topology, n: Net, s: SockId)
    requires cfg.Valid() && topo.Valid() && Occurs(cfg, topo, n) && s in n.socks && n.socks[s].phase.Sent?
    ensures FutureOf(n, n.socks[s]).Some? && F1Ok(n.rus[n.socks[s].ru])
  {
    OccursShape(cfg, topo, n);
    WaitersAreRegistered(topo, n, n.socks[s]);
  }

  /** When the reader task of an RU fails, every task awaiting a reply on that RU can go on. */
  lemma FailureWakesEveryCaller(cfg: Config, topo: Topology, n: Net, s: SockId)
    requires cfg.Valid() && topo.Valid() && Occurs(cfg, topo, n) && s in n.socks && n.socks[s].phase.Sent?
    requires Possible(topo, n, ReaderBreaks(n.socks[s].ru))
    ensures var broken := Network.Next(cfg, topo, n, ReaderBreaks(n.socks[s].ru));
      Possible(topo, broken, ResumeBroken(s)) || Possible(topo, broken, Resume(s, true))
  {
    CallersHaveFutures(cfg, topo, n, s);
    BreakWakes(topo, n, s);
  }
}
