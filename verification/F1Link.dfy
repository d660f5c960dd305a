/**
 The RU's end of the F1 association: one connection, many callers, replies matched to
 callers by transaction id (poc_StressTest/ru/ru_server.py, class F1Link).
 */
module F1Link {
  import opened Collections
  import opened Signalling
  import opened DuRuns

  type Txn = nat

  /** An asyncio future: unresolved, carrying the DU's reply, or carrying an exception. */
  datatype Future = Waiting | Answered(reply: Reply) | Broken

  /**
   `writer` and `reader` name the current connection; `loop` is the connection the reader
   task is blocked on, None when no reader task runs. `futures` keeps every future ever
   made, `pending` only those still registered.
   */
  datatype F1State = F1State(
    pending: set<Txn>, futures: map<Txn, Future>, next: Txn,
    writer: Option<LinkId>, reader: Option<LinkId>, loop: Option<LinkId>)

  const Idle := F1State({}, map[], 1, None, None, None)

  function Break(futures: map<Txn, Future>, ts: set<Txn>): map<Txn, Future> {
    map t | t in futures :: if t in ts && futures[t].Waiting? then Broken else futures[t]
  }

  /** `_fail_pending` */
  function FailPending(f: F1State): F1State {
    f.(futures := Break(f.futures, f.pending), pending := {})
  }

  /** What both request() and the reader do when the link breaks under them. */
  function Abandon(f: F1State): F1State {
    FailPending(f).(reader := None, writer := None)
  }

  /** The reader task's own failure: it also ends. */
  function ReaderFails(f: F1State): F1State {
    Abandon(f).(loop := None)
  }

  /** A new transaction with its future registered. */
  function Issue(f: F1State): F1State {
    f.(next := f.next + 1, pending := f.pending + {f.next}, futures := f.futures[f.next := Waiting])
  }

  /** The reader takes a reply off its connection, then turns to whatever is current. */
  function TakeReply(f: F1State, t: Txn, r: Reply): F1State {
    var f' := f.(loop := f.reader);
    if t !in f.pending then f'
    else if t in f.futures && f.futures[t].Waiting? then
      f'.(pending := f.pending - {t}, futures := f.futures[t := Answered(r)])
    else f'.(pending := f.pending - {t})
  }

  /** A connection is established; a reader task is started only if none is running. */
  function Connected(f: F1State, l: LinkId): F1State {
    f.(writer := Some(l), reader := Some(l), loop := if f.loop.None? then Some(l) else f.loop)
  }

  /** A transaction is registered exactly as long as its future is unresolved, and ids are never reused. */
  ghost predicate F1Ok(f: F1State) {
    && (forall t | t in f.futures :: t < f.next)
    && (forall t :: t in f.pending <==> t in f.futures && f.futures[t].Waiting?)
  }

  lemma OperationsKeepF1Ok(f: F1State, t: Txn, r: Reply, l: LinkId)
    requires F1Ok(f)
    ensures F1Ok(Abandon(f)) && F1Ok(ReaderFails(f)) && F1Ok(Issue(f))
    ensures F1Ok(TakeReply(f, t, r)) && F1Ok(Connected(f, l))
  {
  }

  /** A resolved future is never touched again. */
  ghost predicate ResolvedKept(f: F1State, f': F1State) {
    forall t | t in f.futures && !f.futures[t].Waiting? :: t in f'.futures && f'.futures[t] == f.futures[t]
  }

  lemma OperationsKeepResolved(f: F1State, t: Txn, r: Reply, l: LinkId)
    requires F1Ok(f)
    ensures ResolvedKept(f, Abandon(f)) && ResolvedKept(f, ReaderFails(f)) && ResolvedKept(f, Issue(f))
    ensures ResolvedKept(f, TakeReply(f, t, r)) && ResolvedKept(f, Connected(f, l))
  {
  }

  /** A link failure leaves no caller waiting. */
  lemma AbandonStrandsNoOne(f: F1State, t: Txn)
    requires F1Ok(f) && t in f.futures
    ensures !Abandon(f).futures[t].Waiting?
    ensures f.futures[t].Waiting? ==> Abandon(f).futures[t] == Broken
  {
  }
}

/** The same association as the object the program keeps: one field per component, updated in place. */
module F1Client {
  import opened Collections
  import opened Signalling
  import opened DuRuns
  import opened F1Link

  class Link {
    var pending: set<Txn>
    var futures: map<Txn, Future>
    var next: Txn
    var writer: Option<LinkId>
    var reader: Option<LinkId>
    var loop: Option<LinkId>

    ghost function View(): F1State
      reads this
    {
      F1State(pending, futures, next, writer, reader, loop)
    }

    constructor ()
      ensures View() == Idle
    {
      pending, futures, next := {}, map[], 1;
      writer, reader, loop := None, None, None;
    }

    method FailPending()
      modifies this`pending, this`futures
      ensures View() == F1Link.FailPending(old(View()))
    {
      var todo := pending;
      while todo != {}
        invariant pending == old(pending) && todo <= pending
        invariant futures == Break(old(futures), pending - todo)
        decreases todo
      {
        var t :| t in todo;
        todo := todo - {t};
        if t in futures && futures[t].Waiting? {
          futures := futures[t := Broken];
        }
      }
      assert pending - todo == pending;
      pending := {};
    }

    /** The except branch of request(). */
    method Abandon()
      modifies this
      ensures View() == F1Link.Abandon(old(View()))
    {
      FailPending();
      reader, writer := None, None;
    }

    /** The except branch of the reader task. */
    method ReaderFails()
      modifies this
      ensures View() == F1Link.ReaderFails(old(View()))
    {
      Abandon();
      loop := None;
    }

    /** The part of request() up to the first await after the link is up. */
    method Issue() returns (t: Txn)
      modifies this
      ensures View() == F1Link.Issue(old(View())) && t == old(next)
    {
      t := next;
      next := next + 1;
      futures := futures[t := Waiting];
      pending := pending + {t};
    }

    /** One turn of the reader loop. */
    method TakeReply(t: Txn, r: Reply)
      modifies this
      ensures View() == F1Link.TakeReply(old(View()), t, r)
    {
      if t in pending {
        pending := pending - {t};
        if t in futures && futures[t].Waiting? {
          futures := futures[t := Answered(r)];
        }
      }
      loop := reader;
    }

    method Connected(l: LinkId)
      modifies this
      ensures View() == F1Link.Connected(old(View()), l)
    {
      writer, reader := Some(l), Some(l);
      if loop.None? {
        loop := Some(l);
      }
    }
  }
}
