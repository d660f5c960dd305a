/**
 Stitching decoded records into one timeline per UE
 (srsTwin/integration/trace_stitch/stitch_engine.py). A session is a value that is
 replaced in its list whenever it absorbs a record.
 */
module Stitch {
  import opened Collections
  import opened Identity

  /** One decoded record; `ts` is its parsed timestamp (0 when unreadable), `rank` its label's flow rank. */
  datatype Rec = Rec(
    ts: real, enb: Option<int>, mme: Option<int>, mTmsi: Option<int>, procedureId: Option<int>,
    rank: int, starts: bool, ident: UeIdentity, source: string)

  datatype Session = Session(
    id: string, files: set<string>, enb: Option<int>, mme: Option<int>,
    identity: Option<UeIdentity>, records: seq<Rec>, start: real, end: real)

  function Fresh(id: string): Session {
    Session(id, {}, None, None, None, [], 0.0, 0.0)
  }

  /** `UeSession.absorb`: a start time of 0 counts as not set yet. */
  function Absorb(s: Session, r: Rec): Session {
    s.(records := s.records + [r], files := s.files + {r.source},
       start := if s.start == 0.0 || r.ts < s.start then r.ts else s.start,
       end := if r.ts > s.end then r.ts else s.end,
       enb := if r.enb.Some? then r.enb else s.enb,
       mme := if r.mme.Some? then r.mme else s.mme)
  }

  // ---- what a session's times say about its records ----

  function AbsorbAll(id: string, records: seq<Rec>): Session {
    if records == [] then Fresh(id) else Absorb(AbsorbAll(id, records[..|records| - 1]), records[|records| - 1])
  }

  function EarliestTs(records: seq<Rec>): (t: real)
    requires records != []
    ensures forall i | 0 <= i < |records| :: t <= records[i].ts
    ensures exists i :: 0 <= i < |records| && records[i].ts == t
  {
    var last := records[|records| - 1];
    if |records| == 1 then last.ts
    else
      var t := EarliestTs(records[..|records| - 1]);
      assert exists i :: 0 <= i < |records| - 1 && records[i].ts == t;
      if last.ts < t then last.ts else t
  }

  /** The last id given, if any is. */
  ghost predicate IsLast(v: Option<int>, ids: Rec -> Option<int>, records: seq<Rec>) {
    if v.None? then forall i | 0 <= i < |records| :: ids(records[i]).None?
    else exists i :: 0 <= i < |records| && ids(records[i]) == v
                     && forall j | i < j < |records| :: ids(records[j]).None?
  }

  lemma LastSnoc(v: Option<int>, ids: Rec -> Option<int>, records: seq<Rec>, r: Rec)
    requires IsLast(v, ids, records)
    ensures IsLast(if ids(r).Some? then ids(r) else v, ids, records + [r])
  {
    var more := records + [r];
    assert more[|records|] == r;
    if ids(r).None? && v.Some? {
      var i :| 0 <= i < |records| && ids(records[i]) == v && forall j | i < j < |records| :: ids(records[j]).None?;
      assert more[i] == records[i];
    }
  }

  /** A session's end is behind all of its records, its files are theirs, its ids the last they give. */
  ghost predicate Covers(s: Session) {
    && IsLast(s.enb, (r: Rec) => r.enb, s.records) && IsLast(s.mme, (r: Rec) => r.mme, s.records)
    && (forall i | 0 <= i < |s.records| :: s.records[i].ts <= s.end)
    && (forall f :: f in s.files <==> exists i :: 0 <= i < |s.records| && s.records[i].source == f)
  }

  lemma AbsorbKeepsCovers(s: Session, r: Rec)
    requires Covers(s)
    ensures Covers(Absorb(s, r))
  {
    var more := Absorb(s, r).records;
    assert more[|s.records|] == r && forall i | 0 <= i < |s.records| :: more[i] == s.records[i];
    LastSnoc(s.enb, (x: Rec) => x.enb, s.records, r);
    LastSnoc(s.mme, (x: Rec) => x.mme, s.records, r);
  }

  lemma {:induction false} AbsorbedAll(id: string, records: seq<Rec>)
    ensures Covers(AbsorbAll(id, records))
  {
    if records != [] {
      var init := AbsorbAll(id, records[..|records| - 1]);
      AbsorbedAll(id, records[..|records| - 1]);
      AbsorbKeepsCovers(init, records[|records| - 1]);
    }
  }

  lemma {:induction false} StartAfter(id: string, records: seq<Rec>)
    requires records != []
    ensures var start, min, last := AbsorbAll(id, records).start, EarliestTs(records), records[|records| - 1].ts;
      if min != 0.0 then start == min else start >= 0.0 && (start == 0.0 <==> last == 0.0)
  {
    var init := records[..|records| - 1];
    if init != [] {
      StartAfter(id, init);
    }
  }

  /**
   The session's start is its earliest record, except when the earliest timestamp is 0
   (an unreadable one) and a readable one was absorbed last.
   */
  lemma StartIsEarliestIff(id: string, records: seq<Rec>)
    requires records != []
    ensures AbsorbAll(id, records).start == EarliestTs(records)
       <==> EarliestTs(records) != 0.0 || records[|records| - 1].ts == 0.0
  {
    StartAfter(id, records);
  }

  // ---- the dictionary of sessions, in insertion order ----

  predicate DistinctIds(ss: seq<Session>) {
    forall i, j | 0 <= i < j < |ss| :: ss[i].id != ss[j].id
  }

  function IndexOf(ss: seq<Session>, id: string): (i: nat)
    ensures i <= |ss|
    ensures i < |ss| ==> ss[i].id == id
    ensures forall j | 0 <= j < i :: ss[j].id != id
  {
    if ss == [] || ss[0].id == id then 0 else 1 + IndexOf(ss[1..], id)
  }

  /** `by_key.setdefault(id, UeSession(id)).absorb(rec)` */
  function AbsorbAt(ss: seq<Session>, id: string, r: Rec): seq<Session> {
    var i := IndexOf(ss, id);
    if i < |ss| then ss[i := Absorb(ss[i], r)] else ss + [Absorb(Fresh(id), r)]
  }

  /** `_session_key_for` */
  function SessionKey(r: Rec): Option<string> {
    if r.mme.Some? && r.enb.Some? then Some("s1:" + Show(r.mme.value) + ":" + Show(r.enb.value))
    else if r.enb.Some? then Some("enb:" + Show(r.enb.value))
    else None
  }

  function ShowOptional(n: Option<int>): string {
    if n.Some? then Show(n.value) else "None"
  }

  /** The id of the session of its own that an orphan gets. */
  function OwnId(r: Rec): string {
    if Given(r.ident.randomValue) then "rrc:" + r.ident.randomValue.value
    else if r.starts then "rrc:" + ShowOptional(r.procedureId)
    else "orphan:" + ShowOptional(r.procedureId) + ":" + r.source
  }

  // ---- the session an orphan belongs to ----

  const SLACK := 5.0
  const NO_GAP := 999999.0

  function Distance(a: real, b: real): real {
    if a < b then b - a else a - b
  }

  function Gap(s: Session, r: Rec): real {
    var a, b := Distance(r.ts, s.start), Distance(r.ts, s.end);
    if b < a then b else a
  }

  predicate Fits(s: Session, r: Rec) {
    && r.mTmsi.Some? && (exists i :: 0 <= i < |s.records| && s.records[i].mTmsi == r.mTmsi)
    && s.start - SLACK <= r.ts <= s.end + SLACK
    && Gap(s, r) < NO_GAP
  }

  /** The first of the fitting sessions that are nearest in time. */
  predicate IsBest(ss: seq<Session>, r: Rec, best: Option<nat>) {
    match best
    case None => forall j | 0 <= j < |ss| :: !Fits(ss[j], r)
    case Some(i) =>
      && i < |ss| && Fits(ss[i], r)
      && (forall j | 0 <= j < |ss| && Fits(ss[j], r) :: Gap(ss[i], r) <= Gap(ss[j], r))
      && (forall j | 0 <= j < i && Fits(ss[j], r) :: Gap(ss[i], r) < Gap(ss[j], r))
  }

  lemma BestIsUnique(ss: seq<Session>, r: Rec, a: Option<nat>, b: Option<nat>)
    requires IsBest(ss, r, a) && IsBest(ss, r, b)
    ensures a == b
  {
    if a.Some? && b.Some? {
      assert Gap(ss[a.value], r) == Gap(ss[b.value], r);
    }
  }

  function Best(ss: seq<Session>, r: Rec): (best: Option<nat>)
    ensures IsBest(ss, r, best)
  {
    if ss == [] then None
    else
      var last := |ss| - 1;
      var best := Best(ss[..last], r);
      if Fits(ss[last], r) && (best.None? || Gap(ss[last], r) < Gap(ss[best.value], r)) then Some(last) else best
  }

  /** The search loop over by_key.values(). */
  method FindBest(ss: seq<Session>, r: Rec) returns (best: Option<nat>)
    ensures IsBest(ss, r, best) && best == Best(ss, r)
  {
    best := None;
    var bestGap := NO_GAP;
    for k := 0 to |ss|
      invariant IsBest(ss[..k], r, best)
      invariant bestGap == if best.Some? then Gap(ss[best.value], r) else NO_GAP
    {
      if r.mTmsi.Some? && exists i :: 0 <= i < |ss[k].records| && ss[k].records[i].mTmsi == r.mTmsi {
        if ss[k].start - SLACK <= r.ts <= ss[k].end + SLACK {
          var gap := Gap(ss[k], r);
          if gap < bestGap {
            bestGap, best := gap, Some(k);
          }
        }
      }
    }
    assert ss[..|ss|] == ss;
    BestIsUnique(ss, r, best, Best(ss, r));
  }

  // ---- segmentation as a function ----

  function KeyedStep(ss: seq<Session>, r: Rec): seq<Session> {
    if SessionKey(r).Some? then AbsorbAt(ss, SessionKey(r).value, r) else ss
  }

  function KeyedPass(recs: seq<Rec>): seq<Session> {
    if recs == [] then [] else KeyedStep(KeyedPass(recs[..|recs| - 1]), recs[|recs| - 1])
  }

  function Orphans(recs: seq<Rec>): seq<Rec> {
    if recs == [] then []
    else
      var last := recs[|recs| - 1];
      Orphans(recs[..|recs| - 1]) + if SessionKey(last).None? then [last] else []
  }

  function PlaceOrphan(ss: seq<Session>, r: Rec): seq<Session> {
    var best := Best(ss, r);
    if best.Some? then ss[best.value := Absorb(ss[best.value], r)] else AbsorbAt(ss, OwnId(r), r)
  }

  function PlaceAll(ss: seq<Session>, orphans: seq<Rec>): seq<Session> {
    if orphans == [] then ss
    else PlaceOrphan(PlaceAll(ss, orphans[..|orphans| - 1]), orphans[|orphans| - 1])
  }

  predicate StartsBefore(a: Session, b: Session) {
    a.start <= b.start
  }

  function Segments(recs: seq<Rec>): seq<Session> {
    StableSort(StartsBefore, PlaceAll(KeyedPass(recs), Orphans(recs)))
  }

  // ---- what segmentation keeps ----

  /** All records of all sessions. */
  function Held(ss: seq<Session>): multiset<Rec> {
    if ss == [] then multiset{} else Held(ss[..|ss| - 1]) + multiset(ss[|ss| - 1].records)
  }

  /**
   A session is the result of absorbing its records one by one, and of records that name
   an S1AP connection it holds only those of the connection it is named after.
   */
  ghost predicate SessionOk(s: Session) {
    && s.records != [] && s == AbsorbAll(s.id, s.records)
    && forall i | 0 <= i < |s.records| && SessionKey(s.records[i]).Some? :: SessionKey(s.records[i]) == Some(s.id)
  }

  ghost predicate SessionsOk(ss: seq<Session>) {
    DistinctIds(ss) && forall i | 0 <= i < |ss| :: SessionOk(ss[i])
  }

  lemma {:induction false} HeldUpdate(ss: seq<Session>, i: nat, s: Session, r: Rec)
    requires i < |ss| && s.records == ss[i].records + [r]
    ensures Held(ss[i := s]) == Held(ss) + multiset{r}
  {
    var last := |ss| - 1;
    if i < last {
      HeldUpdate(ss[..last], i, s, r);
      assert ss[i := s][..last] == ss[..last][i := s];
    } else {
      assert ss[i := s][..last] == ss[..last];
    }
  }

  lemma AbsorbKeepsOk(s: Session, r: Rec)
    requires s == AbsorbAll(s.id, s.records)
    requires forall i | 0 <= i < |s.records| && SessionKey(s.records[i]).Some? ::
      SessionKey(s.records[i]) == Some(s.id)
    requires SessionKey(r).Some? ==> SessionKey(r) == Some(s.id)
    ensures SessionOk(Absorb(s, r))
  {
    assert (s.records + [r])[..|s.records|] == s.records;
  }

  lemma UpdateKeepsOk(ss: seq<Session>, i: nat, r: Rec)
    requires i < |ss| && SessionsOk(ss) && (SessionKey(r).Some? ==> SessionKey(r) == Some(ss[i].id))
    ensures SessionsOk(ss[i := Absorb(ss[i], r)])
  {
    AbsorbKeepsOk(ss[i], r);
  }

  lemma AppendKeepsOk(ss: seq<Session>, s: Session)
    requires SessionsOk(ss) && SessionOk(s) && forall j | 0 <= j < |ss| :: ss[j].id != s.id
    ensures SessionsOk(ss + [s])
  {
  }

  lemma AbsorbAtKeepsOk(ss: seq<Session>, id: string, r: Rec)
    requires SessionsOk(ss) && (SessionKey(r).Some? ==> SessionKey(r) == Some(id))
    ensures SessionsOk(AbsorbAt(ss, id, r))
  {
    var i := IndexOf(ss, id);
    if i < |ss| {
      UpdateKeepsOk(ss, i, r);
    } else {
      AbsorbKeepsOk(Fresh(id), r);
      AppendKeepsOk(ss, Absorb(Fresh(id), r));
    }
  }

  lemma AbsorbAtHolds(ss: seq<Session>, id: string, r: Rec)
    ensures Held(AbsorbAt(ss, id, r)) == Held(ss) + multiset{r}
  {
    var i := IndexOf(ss, id);
    if i < |ss| {
      HeldUpdate(ss, i, Absorb(ss[i], r), r);
    } else {
      assert (ss + [Absorb(Fresh(id), r)])[..|ss|] == ss;
    }
  }

  lemma PlaceKeepsOk(ss: seq<Session>, r: Rec)
    requires SessionsOk(ss) && SessionKey(r).None?
    ensures SessionsOk(PlaceOrphan(ss, r))
  {
    var best := Best(ss, r);
    if best.Some? {
      UpdateKeepsOk(ss, best.value, r);
    } else {
      AbsorbAtKeepsOk(ss, OwnId(r), r);
    }
  }

  lemma PlaceHolds(ss: seq<Session>, r: Rec)
    ensures Held(PlaceOrphan(ss, r)) == Held(ss) + multiset{r}
  {
    var best := Best(ss, r);
    if best.Some? {
      HeldUpdate(ss, best.value, Absorb(ss[best.value], r), r);
    } else {
      AbsorbAtHolds(ss, OwnId(r), r);
    }
  }

  lemma {:induction false} KeyedPassIsOk(recs: seq<Rec>)
    ensures SessionsOk(KeyedPass(recs))
  {
    if recs != [] {
      var init, last := recs[..|recs| - 1], recs[|recs| - 1];
      KeyedPassIsOk(init);
      if SessionKey(last).Some? { AbsorbAtKeepsOk(KeyedPass(init), SessionKey(last).value, last); }
    }
  }

  lemma {:induction false} KeyedPassHolds(recs: seq<Rec>)
    ensures Held(KeyedPass(recs)) + multiset(Orphans(recs)) == multiset(recs)
  {
    if recs != [] {
      var init, last := recs[..|recs| - 1], recs[|recs| - 1];
      KeyedPassHolds(init);
      Snoc(recs);
      if SessionKey(last).Some? {
        AbsorbAtHolds(KeyedPass(init), SessionKey(last).value, last);
        assert Orphans(recs) == Orphans(init) + [];
      } else {
        assert multiset(Orphans(recs)) == multiset(Orphans(init)) + multiset{last};
      }
    }
  }

  lemma {:induction false} OrphansAre(recs: seq<Rec>)
    ensures forall i | 0 <= i < |Orphans(recs)| :: SessionKey(Orphans(recs)[i]).None?
  {
    if recs != [] { OrphansAre(recs[..|recs| - 1]); }
  }

  lemma {:induction false} PlaceAllKeepsOk(ss: seq<Session>, orphans: seq<Rec>)
    requires SessionsOk(ss) && forall i | 0 <= i < |orphans| :: SessionKey(orphans[i]).None?
    ensures SessionsOk(PlaceAll(ss, orphans))
  {
    if orphans != [] {
      var init, last := orphans[..|orphans| - 1], orphans[|orphans| - 1];
      PlaceAllKeepsOk(ss, init);
      PlaceKeepsOk(PlaceAll(ss, init), last);
    }
  }

  lemma {:induction false} PlaceAllHolds(ss: seq<Session>, orphans: seq<Rec>)
    ensures Held(PlaceAll(ss, orphans)) == Held(ss) + multiset(orphans)
  {
    if orphans != [] {
      var init, last := orphans[..|orphans| - 1], orphans[|orphans| - 1];
      Snoc(orphans);
      PlaceAllHolds(ss, init);
      PlaceHolds(PlaceAll(ss, init), last);
    }
  }

  // ---- rearranging sessions ----

  lemma {:induction false} HeldConcat(a: seq<Session>, b: seq<Session>)
    ensures Held(a + b) == Held(a) + Held(b)
  {
    if b == [] {
      assert a + b == a;
    } else {
      assert (a + b)[..|a + b| - 1] == a + b[..|b| - 1];
      HeldConcat(a, b[..|b| - 1]);
    }
  }

  lemma HeldAround(l: seq<Session>, s: Session, r: seq<Session>)
    ensures Held(l + [s] + r) == Held(l + r) + multiset(s.records)
  {
    HeldConcat(l, r);
    HeldConcat(l + [s], r);
    assert (l + [s])[..|l|] == l;
  }

  lemma TakenOut(ss: seq<Session>, j: nat)
    requires j < |ss|
    ensures multiset(ss[..j] + ss[j + 1..]) == multiset(ss) - multiset{ss[j]}
    ensures Held(ss) == Held(ss[..j] + ss[j + 1..]) + multiset(ss[j].records)
  {
    Around(ss, j);
    HeldAround(ss[..j], ss[j], ss[j + 1..]);
  }

  lemma {:induction false} HeldPermutation(a: seq<Session>, b: seq<Session>)
    requires multiset(a) == multiset(b)
    ensures Held(a) == Held(b)
    decreases |a|
  {
    assert |a| == |multiset(a)| == |multiset(b)| == |b|;
    if a != [] {
      var init, last := a[..|a| - 1], a[|a| - 1];
      Snoc(a);
      assert last in multiset(b);
      var j :| 0 <= j < |b| && b[j] == last;
      var l, r := b[..j], b[j + 1..];
      TakenOut(b, j);
      assert multiset(init) == multiset(a) - multiset{last};
      HeldPermutation(init, l + r);
    }
  }

  lemma {:induction false} DistinctMeansOnce(ss: seq<Session>, s: Session)
    requires DistinctIds(ss)
    ensures multiset(ss)[s] <= 1
  {
    if ss != [] {
      var init, last := ss[..|ss| - 1], ss[|ss| - 1];
      Snoc(ss);
      DistinctMeansOnce(init, s);
      assert last !in init;
    }
  }

  lemma TwiceCounts(ss: seq<Session>, i: nat, j: nat)
    requires i < j < |ss| && ss[i] == ss[j]
    ensures multiset(ss)[ss[i]] >= 2
  {
    assert ss == ss[..i] + [ss[i]] + ss[i + 1..j] + [ss[j]] + ss[j + 1..];
  }

  lemma DistinctWithin(a: seq<Session>, b: seq<Session>)
    requires multiset(b) <= multiset(a) && DistinctIds(a)
    ensures DistinctIds(b)
  {
    forall i, j | 0 <= i < j < |b| ensures b[i].id != b[j].id {
      assert b[i] in multiset(a) && b[j] in multiset(a);
      if b[i] == b[j] {
        TwiceCounts(b, i, j);
        DistinctMeansOnce(a, b[i]);
      }
    }
  }

  lemma StartOrder()
    ensures TotalPreorder(StartsBefore)
  {
  }

  // ---- where each record lands ----

  /** The input's records with this session key, in order. */
  function Keyed(recs: seq<Rec>, id: string): seq<Rec> {
    if recs == [] then []
    else
      var last := recs[|recs| - 1];
      Keyed(recs[..|recs| - 1], id) + if SessionKey(last) == Some(id) then [last] else []
  }

  lemma KeyedSnoc(recs: seq<Rec>, r: Rec, id: string)
    ensures Keyed(recs + [r], id) == Keyed(recs, id) + if SessionKey(r) == Some(id) then [r] else []
  {
    assert (recs + [r])[..|recs|] == recs;
  }

  ghost predicate HasId(ss: seq<Session>, id: string) {
    exists j :: 0 <= j < |ss| && ss[j].id == id
  }

  /** Session i, and no other, gets the record. */
  ghost predicate Gets(ss: seq<Session>, i: nat, r: Rec, after: seq<Session>) {
    && i < |ss| == |after| && after == ss[i := after[i]]
    && after[i].id == ss[i].id && after[i].records == ss[i].records + [r]
  }

  ghost predicate Opens(ss: seq<Session>, id: string, r: Rec, after: seq<Session>) {
    |after| == |ss| + 1 && after[..|ss|] == ss && after[|ss|].id == id && after[|ss|].records == [r]
  }

  /** `setdefault` and absorb: one session gets the record, and a new one is opened only for a new id. */
  lemma AbsorbAtIs(ss: seq<Session>, id: string, r: Rec)
    ensures var after := AbsorbAt(ss, id, r);
      if HasId(ss, id) then exists i: nat :: Gets(ss, i, r, after) && ss[i].id == id else Opens(ss, id, r, after)
  {
    var i := IndexOf(ss, id);
    if i < |ss| {
      assert Gets(ss, i, r, AbsorbAt(ss, id, r));
    }
  }

  /** Every session holds what its key selects. */
  ghost predicate Filed(ss: seq<Session>, recs: seq<Rec>) {
    forall i | 0 <= i < |ss| :: ss[i].records == Keyed(recs, ss[i].id)
  }

  ghost predicate AllKeysFiled(ss: seq<Session>, recs: seq<Rec>) {
    forall id | Keyed(recs, id) != [] :: HasId(ss, id)
  }

  lemma FilingOne(ss: seq<Session>, key: string, r: Rec, recs: seq<Rec>)
    requires DistinctIds(ss) && SessionKey(r) == Some(key) && Filed(ss, recs) && AllKeysFiled(ss, recs)
    ensures Filed(AbsorbAt(ss, key, r), recs + [r])
  {
    var after := AbsorbAt(ss, key, r);
    AbsorbAtIs(ss, key, r);
    forall i | 0 <= i < |after| ensures after[i].records == Keyed(recs + [r], after[i].id) {
      KeyedSnoc(recs, r, after[i].id);
    }
  }

  lemma FilingKeepsKeys(ss: seq<Session>, key: string, r: Rec, recs: seq<Rec>)
    requires SessionKey(r) == Some(key) && AllKeysFiled(ss, recs)
    ensures AllKeysFiled(AbsorbAt(ss, key, r), recs + [r])
  {
    var after := AbsorbAt(ss, key, r);
    AbsorbAtIs(ss, key, r);
    forall id | Keyed(recs + [r], id) != [] ensures HasId(after, id) {
      KeyedSnoc(recs, r, id);
      if id == key {
        assert HasId(after, key);
      } else {
        var j :| 0 <= j < |ss| && ss[j].id == id;
        assert after[j].id == id;
      }
    }
  }

  /** Before any orphan is placed, a session holds exactly the records with its key, in order. */
  lemma {:induction false} KeyedPassFilters(recs: seq<Rec>)
    ensures Filed(KeyedPass(recs), recs) && AllKeysFiled(KeyedPass(recs), recs)
  {
    if recs != [] {
      var init, last := recs[..|recs| - 1], recs[|recs| - 1];
      assert recs == init + [last];
      KeyedPassFilters(init);
      KeyedPassIsOk(init);
      if SessionKey(last).Some? {
        FilingOne(KeyedPass(init), SessionKey(last).value, last, init);
        FilingKeepsKeys(KeyedPass(init), SessionKey(last).value, last, init);
      }
    }
  }

  /** Sessions stay in their places, keep their ids and lose nothing in front. */
  ghost predicate GrowsTo(a: seq<Session>, b: seq<Session>) {
    |a| <= |b| && forall i | 0 <= i < |a| :: b[i].id == a[i].id && a[i].records <= b[i].records
  }

  ghost predicate SomeFits(ss: seq<Session>, r: Rec) {
    exists j :: 0 <= j < |ss| && Fits(ss[j], r)
  }

  /**
   The rule for an orphan: the first of the nearest sessions that fit it gets it; with none
   that fits it goes to the session of its own id, which is opened if it is not there.
   */
  ghost predicate Lodges(ss: seq<Session>, r: Rec, after: seq<Session>) {
    if SomeFits(ss, r) then exists i: nat :: IsBest(ss, r, Some(i)) && Gets(ss, i, r, after)
    else if HasId(ss, OwnId(r)) then exists i: nat :: Gets(ss, i, r, after) && ss[i].id == OwnId(r)
    else Opens(ss, OwnId(r), r, after)
  }

  lemma OrphanLodges(ss: seq<Session>, r: Rec)
    ensures Lodges(ss, r, PlaceOrphan(ss, r))
  {
    var best := Best(ss, r);
    if best.Some? {
      assert Fits(ss[best.value], r);
      assert IsBest(ss, r, Some(best.value)) && Gets(ss, best.value, r, PlaceOrphan(ss, r));
    } else {
      AbsorbAtIs(ss, OwnId(r), r);
    }
  }

  lemma LodgingGrows(ss: seq<Session>, r: Rec, after: seq<Session>)
    requires Lodges(ss, r, after)
    ensures GrowsTo(ss, after)
  {
    forall i | 0 <= i < |ss| && i < |after|
      ensures after[i].id == ss[i].id && ss[i].records <= after[i].records
    {
      if |after| > |ss| { assert after[..|ss|][i] == after[i]; }
    }
  }

  lemma {:induction false} PlacingGrows(ss: seq<Session>, orphans: seq<Rec>, k: nat)
    requires k <= |orphans|
    ensures GrowsTo(PlaceAll(ss, orphans[..k]), PlaceAll(ss, orphans))
    decreases |orphans|
  {
    if k == |orphans| {
      assert orphans[..k] == orphans;
    } else {
      var init, last := orphans[..|orphans| - 1], orphans[|orphans| - 1];
      PlacingGrows(ss, init, k);
      assert init[..k] == orphans[..k];
      OrphanLodges(PlaceAll(ss, init), last);
      LodgingGrows(PlaceAll(ss, init), last, PlaceAll(ss, orphans));
      GrowsThrough(PlaceAll(ss, orphans[..k]), PlaceAll(ss, init), PlaceAll(ss, orphans));
    }
  }

  lemma GrowsThrough(a: seq<Session>, b: seq<Session>, c: seq<Session>)
    requires GrowsTo(a, b) && GrowsTo(b, c)
    ensures GrowsTo(a, c)
  {
    forall i | 0 <= i < |a| ensures a[i].records <= c[i].records {
      assert a[i].records <= b[i].records <= c[i].records;
    }
  }

  /** The sessions as they stand when the k-th orphan is placed. */
  function Standing(recs: seq<Rec>, k: nat): seq<Session>
    requires k <= |Orphans(recs)|
  {
    PlaceAll(KeyedPass(recs), Orphans(recs)[..k])
  }

  /** A session of the result has this id and begins with these records. */
  ghost predicate EndsUp(recs: seq<Rec>, id: string, records: seq<Rec>) {
    exists s :: s in Segments(recs) && s.id == id && records <= s.records
  }

  lemma StandingEndsUp(recs: seq<Rec>, k: nat, i: nat)
    requires k <= |Orphans(recs)| && i < |Standing(recs, k)|
    ensures EndsUp(recs, Standing(recs, k)[i].id, Standing(recs, k)[i].records)
  {
    var placed := PlaceAll(KeyedPass(recs), Orphans(recs));
    PlacingGrows(KeyedPass(recs), Orphans(recs), k);
    StartOrder();
    SortedMembers(StartsBefore, placed);
    assert placed[i] in placed && placed[i] in Segments(recs);
  }

  /** The records with an S1AP id stand at the head of the session of their key, in order. */
  lemma KeyedEndUp(recs: seq<Rec>, id: string)
    requires Keyed(recs, id) != []
    ensures EndsUp(recs, id, Keyed(recs, id))
  {
    KeyedPassFilters(recs);
    var i :| 0 <= i < |KeyedPass(recs)| && KeyedPass(recs)[i].id == id;
    assert Standing(recs, 0) == KeyedPass(recs);
    StandingEndsUp(recs, 0, i);
  }

  /**
   Where each orphan ends up: behind the records of the first of the nearest sessions that
   fitted it when it was placed, or, exactly if none did, in the session of its own id, which
   it opens if it has to.
   */
  lemma OrphansEndUp(recs: seq<Rec>, k: nat)
    requires k < |Orphans(recs)|
    ensures var ss, r := Standing(recs, k), Orphans(recs)[k];
      if SomeFits(ss, r) then
        exists i: nat :: IsBest(ss, r, Some(i)) && EndsUp(recs, ss[i].id, ss[i].records + [r])
      else if HasId(ss, OwnId(r)) then
        exists i: nat :: i < |ss| && ss[i].id == OwnId(r) && EndsUp(recs, OwnId(r), ss[i].records + [r])
      else EndsUp(recs, OwnId(r), [r])
  {
    var ss, r, after := Standing(recs, k), Orphans(recs)[k], Standing(recs, k + 1);
    assert Orphans(recs)[..k + 1][..k] == Orphans(recs)[..k];
    OrphanLodges(ss, r);
    forall i: nat | i < |after| ensures EndsUp(recs, after[i].id, after[i].records) {
      StandingEndsUp(recs, k + 1, i);
    }
    if SomeFits(ss, r) {
      var i: nat :| IsBest(ss, r, Some(i)) && Gets(ss, i, r, after);
      assert EndsUp(recs, after[i].id, after[i].records);
    } else if HasId(ss, OwnId(r)) {
      var i: nat :| Gets(ss, i, r, after) && ss[i].id == OwnId(r);
      assert EndsUp(recs, after[i].id, after[i].records);
    } else {
      assert EndsUp(recs, after[|ss|].id, after[|ss|].records);
    }
  }

  lemma SessionCovers(s: Session)
    requires SessionOk(s)
    ensures Covers(s)
  {
    AbsorbedAll(s.id, s.records);
  }

  lemma SortedIsOk(placed: seq<Session>)
    requires SessionsOk(placed)
    ensures SessionsOk(StableSort(StartsBefore, placed))
  {
    var sorted := StableSort(StartsBefore, placed);
    StartOrder();
    StableSortLaws(StartsBefore, placed);
    DistinctWithin(placed, sorted);
    SortedMembers(StartsBefore, placed);
    forall i | 0 <= i < |sorted| ensures SessionOk(sorted[i]) {
      assert sorted[i] in sorted;
    }
  }

  lemma SegmentsAreOk(recs: seq<Rec>)
    ensures SessionsOk(Segments(recs))
  {
    KeyedPassIsOk(recs);
    OrphansAre(recs);
    PlaceAllKeepsOk(KeyedPass(recs), Orphans(recs));
    SortedIsOk(PlaceAll(KeyedPass(recs), Orphans(recs)));
  }

  lemma SegmentsHold(recs: seq<Rec>)
    ensures Held(Segments(recs)) == multiset(recs)
    ensures Ordered(StartsBefore, Segments(recs))
  {
    KeyedPassHolds(recs);
    var placed := PlaceAll(KeyedPass(recs), Orphans(recs));
    PlaceAllHolds(KeyedPass(recs), Orphans(recs));
    StartOrder();
    StableSortLaws(StartsBefore, placed);
    HeldPermutation(placed, Segments(recs));
  }

  /**
   Segmentation loses and doubles no record: the sessions hold exactly the input's
   records, their ids differ, each holds only its own connection's S1AP records, and they
   stand in order of their starts; a session's end is behind all of its records, its files
   are the ones they come from, and its S1AP ids the last ones they give.
   */
  lemma SegmentsAreExact(recs: seq<Rec>)
    ensures Held(Segments(recs)) == multiset(recs)
    ensures SessionsOk(Segments(recs))
    ensures Ordered(StartsBefore, Segments(recs))
    ensures forall s | s in Segments(recs) :: Covers(s)
  {
    SegmentsHold(recs);
    SegmentsAreOk(recs);
    forall s | s in Segments(recs) ensures Covers(s) {
      SessionCovers(s);
    }
  }

  lemma PairTextsTell(m: string, e: string, n: string, f: string)
    requires ':' !in m && ':' !in n && "s1:" + m + ":" + e == "s1:" + n + ":" + f
    ensures m == n && e == f
  {
    assert "s1:" + (m + ":" + e) == "s1:" + m + ":" + e && "s1:" + (n + ":" + f) == "s1:" + n + ":" + f;
    SamePrefix("s1:", m + ":" + e, n + ":" + f);
    ColonSplits(m, e, n, f);
  }

  lemma PairsTell(m: int, e: int, n: int, f: int)
    requires "s1:" + Show(m) + ":" + Show(e) == "s1:" + Show(n) + ":" + Show(f)
    ensures m == n && e == f
  {
    ShowHasNoColon(m);
    ShowHasNoColon(n);
    PairTextsTell(Show(m), Show(e), Show(n), Show(f));
    ShowTells(m, n);
    ShowTells(e, f);
  }

  lemma SinglesTell(e: int, f: int)
    requires "enb:" + Show(e) == "enb:" + Show(f)
    ensures e == f
  {
    SamePrefix("enb:", Show(e), Show(f));
    ShowTells(e, f);
  }

  /** Key texts are equal exactly when the pairs of S1AP ids are. */
  lemma KeyTellsIds(r: Rec, q: Rec)
    requires r.enb.Some? && q.enb.Some?
    ensures SessionKey(r) == SessionKey(q) <==> r.mme == q.mme && r.enb == q.enb
  {
    if SessionKey(r) == SessionKey(q) {
      assert r.mme.Some? <==> SessionKey(r).value[0] == 's';
      assert q.mme.Some? <==> SessionKey(q).value[0] == 's';
      if r.mme.Some? {
        PairsTell(r.mme.value, r.enb.value, q.mme.value, q.enb.value);
      } else {
        SinglesTell(r.enb.value, q.enb.value);
      }
    }
  }

  /** A record that names an S1AP connection is in the session of that name. */
  lemma KeyIsId(s: Session, i: nat)
    requires SessionOk(s) && i < |s.records| && SessionKey(s.records[i]).Some?
    ensures SessionKey(s.records[i]) == Some(s.id)
  {
  }

  lemma IdTells(ss: seq<Session>, a: Session, b: Session)
    requires DistinctIds(ss) && a in ss && b in ss
    ensures a == b <==> a.id == b.id
  {
  }

  /**
   Two records that name S1AP connections share a session exactly when they name the same
   one: the same pair of S1AP ids.
   */
  lemma SameConnectionSameSession(recs: seq<Rec>, a: Session, b: Session, i: nat, j: nat)
    requires a in Segments(recs) && b in Segments(recs) && i < |a.records| && j < |b.records|
    requires a.records[i].enb.Some? && b.records[j].enb.Some?
    ensures a == b <==> a.records[i].mme == b.records[j].mme && a.records[i].enb == b.records[j].enb
  {
    SegmentsAreOk(recs);
    KeyIsId(a, i);
    KeyIsId(b, j);
    IdTells(Segments(recs), a, b);
    KeyTellsIds(a.records[i], b.records[j]);
  }

  /** The first loop of segment_sessions. */
  method CollectKeyed(recs: seq<Rec>) returns (byKey: seq<Session>, orphans: seq<Rec>)
    ensures byKey == KeyedPass(recs) && orphans == Orphans(recs)
  {
    byKey, orphans := [], [];
    for k := 0 to |recs|
      invariant byKey == KeyedPass(recs[..k]) && orphans == Orphans(recs[..k])
    {
      assert recs[..k + 1][..k] == recs[..k];
      var key := SessionKey(recs[k]);
      if key.Some? {
        byKey := AbsorbAt(byKey, key.value, recs[k]);
      } else {
        orphans := orphans + [recs[k]];
      }
    }
    assert recs[..|recs|] == recs;
  }

  /** One orphan: into the best session, or into one of its own. */
  method Place(ss: seq<Session>, r: Rec) returns (placed: seq<Session>)
    ensures placed == PlaceOrphan(ss, r)
  {
    var best := FindBest(ss, r);
    if best.Some? {
      placed := ss[best.value := Absorb(ss[best.value], r)];
    } else {
      placed := AbsorbAt(ss, OwnId(r), r);
    }
  }

  lemma PlacedOneMore(ss: seq<Session>, orphans: seq<Rec>, k: nat)
    requires k < |orphans|
    ensures PlaceAll(ss, orphans[..k + 1]) == PlaceOrphan(PlaceAll(ss, orphans[..k]), orphans[k])
  {
    assert orphans[..k + 1][..k] == orphans[..k];
  }

  /** `segment_sessions` */
  method SegmentSessions(recs: seq<Rec>) returns (sessions: seq<Session>)
    ensures sessions == Segments(recs)
  {
    var byKey, orphans := CollectKeyed(recs);
    for k := 0 to |orphans|
      invariant byKey == PlaceAll(KeyedPass(recs), orphans[..k])
    {
      PlacedOneMore(KeyedPass(recs), orphans, k);
      byKey := Place(byKey, orphans[k]);
    }
    assert orphans[..|orphans|] == orphans;
    sessions := StableSort(StartsBefore, byKey);
  }

  // ---- the rules in the records' own terms ----

  /**
   A session fits an orphan when one of its records has the orphan's M-TMSI and the orphan
   comes within five seconds of the session's span.
   */
  lemma FitsMeans(s: Session, r: Rec)
    ensures Fits(s, r)
       <==> && (exists i :: 0 <= i < |s.records| && s.records[i].mTmsi == r.mTmsi && r.mTmsi.Some?)
            && -5.0 <= r.ts - s.start && r.ts - s.end <= 5.0
            && (-999999.0 < r.ts - s.start < 999999.0 || -999999.0 < r.ts - s.end < 999999.0)
  {
  }

  /** The gap is the distance to the nearer of the session's two ends. */
  lemma GapIsNearer(s: Session, r: Rec, e: real)
    requires e == s.start || e == s.end
    ensures -Gap(s, r) <= 0.0 && (Gap(s, r) <= r.ts - e || Gap(s, r) <= e - r.ts)
    ensures Gap(s, r) in {r.ts - s.start, s.start - r.ts, r.ts - s.end, s.end - r.ts}
  {
  }

  /** No orphan's own session is one of an S1AP connection. */
  lemma OwnIdIsNoKey(r: Rec, q: Rec)
    ensures SessionKey(q) != Some(OwnId(r))
  {
    if SessionKey(q).Some? {
      assert SessionKey(q).value[0] == 's' || SessionKey(q).value[0] == 'e';
      assert OwnId(r)[0] == 'r' || OwnId(r)[0] == 'o';
    }
  }

  /**
   Orphans with random values share their own session exactly when the values are equal; one
   that starts a session without one shares it with them exactly when its procedure id reads
   like their value.
   */
  lemma OwnIdsMeetIff(r: Rec, q: Rec)
    requires Given(r.ident.randomValue)
    ensures Given(q.ident.randomValue) ==> (OwnId(r) == OwnId(q) <==> r.ident.randomValue == q.ident.randomValue)
    ensures !Given(q.ident.randomValue) && q.starts ==>
      (OwnId(r) == OwnId(q) <==> r.ident.randomValue == Some(ShowOptional(q.procedureId)))
    ensures !Given(q.ident.randomValue) && !q.starts ==> OwnId(r) != OwnId(q)
  {
    if Given(q.ident.randomValue) && OwnId(r) == OwnId(q) {
      SamePrefix("rrc:", r.ident.randomValue.value, q.ident.randomValue.value);
    } else if !Given(q.ident.randomValue) && q.starts && OwnId(r) == OwnId(q) {
      SamePrefix("rrc:", r.ident.randomValue.value, ShowOptional(q.procedureId));
    } else if !Given(q.ident.randomValue) && !q.starts {
      assert OwnId(r)[0] == 'r' && OwnId(q)[0] == 'o';
    }
  }

  lemma OptionalTells(a: Option<int>, b: Option<int>)
    ensures ShowOptional(a) == ShowOptional(b) <==> a == b
    ensures ':' !in ShowOptional(a)
  {
    if a.Some? { NumeralBegins(a.value); ShowHasNoColon(a.value); }
    if b.Some? { NumeralBegins(b.value); }
    if a.Some? && b.Some? && ShowOptional(a) == ShowOptional(b) { ShowTells(a.value, b.value); }
    assert "None"[0] == 'N';
  }

  lemma NumeralBegins(n: int)
    ensures Show(n) != "" && Show(n)[0] != 'N'
  {
    var x := if n < 0 then -n else n;
    DecimalHasDigits(x, Decimal(x)[0]);
  }

  /** The rest share one exactly when they are of one procedure and one file. */
  lemma OrphanIdsMeetIff(r: Rec, q: Rec)
    requires !Given(r.ident.randomValue) && !r.starts && !Given(q.ident.randomValue) && !q.starts
    ensures OwnId(r) == OwnId(q) <==> r.procedureId == q.procedureId && r.source == q.source
  {
    var a, b := ShowOptional(r.procedureId), ShowOptional(q.procedureId);
    OptionalTells(r.procedureId, q.procedureId);
    OptionalTells(q.procedureId, r.procedureId);
    if OwnId(r) == OwnId(q) {
      assert OwnId(r) == "orphan:" + (a + ":" + r.source) && OwnId(q) == "orphan:" + (b + ":" + q.source);
      SamePrefix("orphan:", a + ":" + r.source, b + ":" + q.source);
      ColonSplits(a, r.source, b, q.source);
    }
  }
}
