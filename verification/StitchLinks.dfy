/**
 Which sessions belong to one UE, and the timelines built from them
 (srsTwin/integration/trace_stitch/stitch_engine.py).
 */
module StitchLinks {
  import opened Collections
  import opened Identity
  import opened Stitch

  // ---- the tables of _link_sessions, over the sessions' identities in order of start ----

  /** What a canonical identity's key says about it. */
  ghost predicate Proper(w: UeIdentity) {
    && (w.imsi.Some? ==> Given(w.imsi) && w.ueKey == "imsi:" + w.imsi.value)
    && (w.randomValue.Some? ==> Given(w.randomValue))
    && (w.imsi.None? && w.randomValue.Some? ==> w.ueKey == "random:" + w.randomValue.value)
    && (forall i :: w.ueKey == "imsi:" + i ==> w.imsi == Some(i))
    && (forall r :: w.ueKey == "random:" + r ==> w.imsi == None && w.randomValue == Some(r))
  }

  /** `imsi_to_key` and `random_to_key`: the first to show a value decides its key. */
  function Table(values: seq<Option<string>>, keys: seq<string>): map<string, string>
    requires |values| == |keys|
  {
    if values == [] then map[]
    else
      var last := |values| - 1;
      var table := Table(values[..last], keys[..last]);
      if Given(values[last]) && values[last].value !in table then table[values[last].value := keys[last]] else table
  }

  /** The first position that shows this value. */
  function First(values: seq<Option<string>>, v: string): (i: nat)
    ensures i <= |values|
    ensures i < |values| ==> values[i] == Some(v)
    ensures forall j | 0 <= j < i :: values[j] != Some(v)
  {
    if values == [] || values[0] == Some(v) then 0 else 1 + First(values[1..], v)
  }

  lemma {:induction false} TableIs(values: seq<Option<string>>, keys: seq<string>, v: string)
    requires |values| == |keys| && v != ""
    ensures v in Table(values, keys) <==> First(values, v) < |values|
    ensures First(values, v) < |values| ==> Table(values, keys)[v] == keys[First(values, v)]
  {
    if values != [] {
      var last := |values| - 1;
      TableIs(values[..last], keys[..last], v);
      var i, k := First(values[..last], v), First(values, v);
      assert forall j | 0 <= j < last :: values[j] == values[..last][j];
      assert i < last ==> k == i;
      assert i == last ==> k >= last;
    }
  }

  function Imsi(ws: seq<UeIdentity>): (r: seq<Option<string>>)
    ensures |r| == |ws|
  {
    seq(|ws|, i requires 0 <= i < |ws| => ws[i].imsi)
  }

  function Random(ws: seq<UeIdentity>): (r: seq<Option<string>>)
    ensures |r| == |ws|
  {
    seq(|ws|, i requires 0 <= i < |ws| => ws[i].randomValue)
  }

  function Keys(ws: seq<UeIdentity>): (r: seq<string>)
    ensures |r| == |ws|
  {
    seq(|ws|, i requires 0 <= i < |ws| => ws[i].ueKey)
  }

  /** `resolve_key` */
  function ResolveKey(imsiToKey: map<string, string>, randomToKey: map<string, string>, w: UeIdentity): string {
    if Given(w.imsi) && w.imsi.value in imsiToKey then imsiToKey[w.imsi.value]
    else if Given(w.randomValue) && w.randomValue.value in randomToKey then randomToKey[w.randomValue.value]
    else w.ueKey
  }

  /** The key of the timeline an identity ends up in. */
  function Root(ws: seq<UeIdentity>, w: UeIdentity): string {
    ResolveKey(Table(Imsi(ws), Keys(ws)), Table(Random(ws), Keys(ws)), w)
  }

  ghost predicate AllProper(ws: seq<UeIdentity>) {
    forall i | 0 <= i < |ws| :: Proper(ws[i])
  }

  /** Where the random value of w was first shown. */
  function FirstSharing(ws: seq<UeIdentity>, w: UeIdentity): nat
    requires w.randomValue.Some?
  {
    First(Random(ws), w.randomValue.value)
  }

  /** The root of an identity with an IMSI is that IMSI. */
  lemma ImsiRoot(ws: seq<UeIdentity>, w: UeIdentity)
    requires AllProper(ws) && w in ws && w.imsi.Some?
    ensures Root(ws, w) == "imsi:" + w.imsi.value
  {
    var k :| 0 <= k < |ws| && ws[k] == w;
    assert Imsi(ws)[k] == w.imsi;
    TableIs(Imsi(ws), Keys(ws), w.imsi.value);
    var i := First(Imsi(ws), w.imsi.value);
    assert i <= k && Imsi(ws)[i] == ws[i].imsi;
  }

  /** An identity known only by a random value goes where the first one showing that value goes. */
  lemma RandomRoot(ws: seq<UeIdentity>, w: UeIdentity)
    requires AllProper(ws) && w in ws && w.imsi.None? && w.randomValue.Some?
    ensures FirstSharing(ws, w) < |ws|
    ensures Root(ws, w) == ws[FirstSharing(ws, w)].ueKey
  {
    var k :| 0 <= k < |ws| && ws[k] == w;
    assert Random(ws)[k] == w.randomValue;
    TableIs(Random(ws), Keys(ws), w.randomValue.value);
    var i := FirstSharing(ws, w);
    assert i <= k && Keys(ws)[i] == ws[i].ueKey;
  }

  /** Two that show IMSIs share a timeline exactly when the IMSIs are equal. */
  lemma SameUeIffSameImsi(ws: seq<UeIdentity>, w: UeIdentity, v: UeIdentity)
    requires AllProper(ws) && w in ws && v in ws && w.imsi.Some? && v.imsi.Some?
    ensures Root(ws, w) == Root(ws, v) <==> w.imsi == v.imsi
  {
    ImsiRoot(ws, w);
    ImsiRoot(ws, v);
    if Root(ws, w) == Root(ws, v) {
      SamePrefix("imsi:", w.imsi.value, v.imsi.value);
    }
  }

  /**
   A session known only by a random value joins a UE with an IMSI exactly when the first
   session showing that random value shows that IMSI too. A later one does not link them.
   */
  lemma RandomJoinsImsiIff(ws: seq<UeIdentity>, w: UeIdentity, v: UeIdentity)
    requires AllProper(ws) && w in ws && v in ws
    requires w.imsi.None? && w.randomValue.Some? && v.imsi.Some?
    ensures FirstSharing(ws, w) < |ws|
    ensures Root(ws, w) == Root(ws, v) <==> ws[FirstSharing(ws, w)].imsi == v.imsi
  {
    RandomRoot(ws, w);
    ImsiRoot(ws, v);
    assert Proper(ws[FirstSharing(ws, w)]);
  }

  /** Sessions known only by the same random value stay together, whatever else shows it. */
  lemma SameRandomStaysTogether(ws: seq<UeIdentity>, w: UeIdentity, v: UeIdentity)
    requires AllProper(ws) && w in ws && v in ws && w.imsi.None? && v.imsi.None?
    requires w.randomValue.Some? && w.randomValue == v.randomValue
    ensures Root(ws, w) == Root(ws, v)
  {
    RandomRoot(ws, w);
    RandomRoot(ws, v);
  }

  /**
   One UE whose sessions stay apart: the first shows only the random value, the second the
   same random value and the IMSI.
   */
  lemma RandomOnlyStaysApart()
    ensures var early := WithKey(Anonymous.(randomValue := Some("ab")));
      var late := WithKey(Anonymous.(randomValue := Some("ab"), imsi := Some("302210000000001")));
      Root([early, late], early) != Root([early, late], late)
  {
    var early := Anonymous.(randomValue := Some("ab"));
    var late := Anonymous.(randomValue := Some("ab"), imsi := Some("302210000000001"));
    KeyTells(early);
    KeyTells(late);
    var ws := [WithKey(early), WithKey(late)];
    assert ws[0].randomValue == Some("ab");
    assert First(Random(ws), "ab") == 0;
    assert ws[1] == WithKey(late);
    RandomJoinsImsiIff(ws, ws[0], ws[1]);
  }

  /** Sessions of one bucket share their root, so the first one may speak for them. */
  lemma SameKeySameRoot(ws: seq<UeIdentity>, w: UeIdentity, v: UeIdentity)
    requires AllProper(ws) && w in ws && v in ws && w.ueKey == v.ueKey
    ensures Root(ws, w) == Root(ws, v)
  {
    assert Proper(w) && Proper(v);
    if w.imsi.Some? {
      assert v.imsi == w.imsi;
      SameUeIffSameImsi(ws, w, v);
    } else if w.randomValue.Some? {
      assert v.randomValue == w.randomValue && v.imsi.None?;
      SameRandomStaysTogether(ws, w, v);
    } else {
      assert v.imsi.None? && v.randomValue.None?;
    }
  }

  // ---- identities of sessions ----

  function Idents(s: Session): (r: seq<UeIdentity>)
    ensures |r| == |s.records|
  {
    seq(|s.records|, i requires 0 <= i < |s.records| => s.records[i].ident)
  }

  /** `sess.identity = pick_canonical_key(...)` */
  function Identified(s: Session): Session {
    s.(identity := Some(Canonical(Idents(s))))
  }

  function IdentifiedAll(ss: seq<Session>): (r: seq<Session>)
    ensures |r| == |ss|
  {
    seq(|ss|, i requires 0 <= i < |ss| => Identified(ss[i]))
  }

  function Who(s: Session): UeIdentity {
    if s.identity.Some? then s.identity.value else Anonymous
  }

  function Whos(ss: seq<Session>): (r: seq<UeIdentity>)
    ensures |r| == |ss|
  {
    seq(|ss|, i requires 0 <= i < |ss| => Who(ss[i]))
  }

  lemma {:induction false} MergedKeepsKey(idents: seq<UeIdentity>)
    ensures MergedAll(idents).ueKey == Anonymous.ueKey
    ensures MergedAll(idents).imsi.Some? ==> Given(MergedAll(idents).imsi)
    ensures MergedAll(idents).randomValue.Some? ==> Given(MergedAll(idents).randomValue)
  {
    if idents != [] { MergedKeepsKey(idents[..|idents| - 1]); }
  }

  lemma CanonicalIsProper(idents: seq<UeIdentity>)
    ensures Proper(Canonical(idents))
  {
    MergedKeepsKey(idents);
    KeyTells(MergedAll(idents));
  }

  lemma IdentifiedAreProper(ss: seq<Session>)
    ensures AllProper(Whos(IdentifiedAll(ss)))
  {
    forall i | 0 <= i < |ss| ensures Proper(Whos(IdentifiedAll(ss))[i]) {
      CanonicalIsProper(Idents(ss[i]));
    }
  }

  lemma {:induction false} IdentifiedHold(ss: seq<Session>)
    ensures Held(IdentifiedAll(ss)) == Held(ss)
  {
    if ss != [] {
      IdentifiedHold(ss[..|ss| - 1]);
      assert IdentifiedAll(ss)[..|ss| - 1] == IdentifiedAll(ss[..|ss| - 1]);
    }
  }

  // ---- buckets and their merging ----

  /** `buckets[canon.ue_key].append(sess)` over the sessions. */
  function Buckets(ss: seq<Session>): Grouping<Session> {
    if ss == [] then NoGroups()
    else
      var last := ss[|ss| - 1];
      Extend(Buckets(ss[..|ss| - 1]), Who(last).ueKey, [last])
  }

  /** Every bucket has members, all of them with its key. */
  ghost predicate BucketsRight(ss: seq<Session>, g: Grouping<Session>) {
    forall k | k in g.lists :: g.lists[k] != [] && forall s :: s in g.lists[k] ==> s in ss && Who(s).ueKey == k
  }

  lemma BucketGrows(ss: seq<Session>, g: Grouping<Session>, s: Session)
    requires BucketsRight(ss, g)
    ensures BucketsRight(ss + [s], Extend(g, Who(s).ueKey, [s]))
  {
  }

  lemma {:induction false} BucketsAreRight(ss: seq<Session>)
    ensures BucketsRight(ss, Buckets(ss))
  {
    if ss != [] {
      var init, last := ss[..|ss| - 1], ss[|ss| - 1];
      Snoc(ss);
      BucketsAreRight(init);
      BucketGrows(init, Buckets(init), last);
    }
  }

  lemma {:induction false} BucketsKeep(ss: seq<Session>)
    ensures GroupingOk(Buckets(ss)) && multiset(Concat(Buckets(ss).order, Buckets(ss).lists)) == multiset(ss)
  {
    if ss != [] {
      var init, last := ss[..|ss| - 1], ss[|ss| - 1];
      Snoc(ss);
      BucketsKeep(init);
      ExtendKeeps(Buckets(init), Who(last).ueKey, [last]);
    }
  }

  predicate NoneEmpty(g: Grouping<Session>) {
    forall i | 0 <= i < |g.order| :: g.order[i] in g.lists && g.lists[g.order[i]] != []
  }

  /** `merged[root].extend(group)` over the first k buckets. */
  function MergeUpTo(ws: seq<UeIdentity>, g: Grouping<Session>, k: nat): Grouping<Session>
    requires k <= |g.order| && NoneEmpty(g)
  {
    if k == 0 then NoGroups()
    else
      var group := g.lists[g.order[k - 1]];
      Extend(MergeUpTo(ws, g, k - 1), Root(ws, Who(group[0])), group)
  }

  ghost predicate RootsRight(ss: seq<Session>, ws: seq<UeIdentity>, g: Grouping<Session>) {
    forall root, s | root in g.lists && s in g.lists[root] :: s in ss && Root(ws, Who(s)) == root
  }

  lemma {:induction false} MergeKeeps(ws: seq<UeIdentity>, g: Grouping<Session>, k: nat)
    requires GroupingOk(g) && k <= |g.order| && NoneEmpty(g)
    ensures var m := MergeUpTo(ws, g, k);
      GroupingOk(m) && multiset(Concat(m.order, m.lists)) == multiset(Concat(g.order[..k], g.lists))
  {
    if k > 0 {
      MergeKeeps(ws, g, k - 1);
      var group := g.lists[g.order[k - 1]];
      ExtendKeeps(MergeUpTo(ws, g, k - 1), Root(ws, Who(group[0])), group);
      ConcatPrefix(g.order, g.lists, k - 1);
    }
  }

  lemma {:induction false} MergeRoots(ss: seq<Session>, g: Grouping<Session>, k: nat)
    requires BucketsRight(ss, g) && AllProper(Whos(ss))
    requires k <= |g.order| && NoneEmpty(g)
    ensures RootsRight(ss, Whos(ss), MergeUpTo(Whos(ss), g, k))
  {
    if k > 0 {
      MergeRoots(ss, g, k - 1);
      var key := g.order[k - 1];
      BucketShares(ss, g, key);
      ExtendRoots(ss, MergeUpTo(Whos(ss), g, k - 1), Root(Whos(ss), Who(g.lists[key][0])), g.lists[key]);
    }
  }

  lemma BucketShares(ss: seq<Session>, g: Grouping<Session>, key: string)
    requires BucketsRight(ss, g) && AllProper(Whos(ss)) && key in g.lists
    ensures forall s | s in g.lists[key] :: s in ss && Root(Whos(ss), Who(s)) == Root(Whos(ss), Who(g.lists[key][0]))
  {
    var first := g.lists[key][0];
    assert first in g.lists[key];
    forall s | s in g.lists[key] ensures s in ss && Root(Whos(ss), Who(s)) == Root(Whos(ss), Who(first)) {
      InWhos(ss, s);
      InWhos(ss, first);
      SameKeySameRoot(Whos(ss), Who(s), Who(first));
    }
  }

  lemma InWhos(ss: seq<Session>, s: Session)
    requires s in ss
    ensures Who(s) in Whos(ss)
  {
    var i :| 0 <= i < |ss| && ss[i] == s;
    assert Whos(ss)[i] == Who(s);
  }

  lemma ExtendRoots(ss: seq<Session>, m: Grouping<Session>, root: string, group: seq<Session>)
    requires RootsRight(ss, Whos(ss), m)
    requires forall s | s in group :: s in ss && Root(Whos(ss), Who(s)) == root
    ensures RootsRight(ss, Whos(ss), Extend(m, root, group))
  {
  }

  // ---- one list per UE ----

  function Ids(ss: seq<Session>): set<string> {
    set s | s in ss :: s.id
  }

  /** Keeps the first session of every id. */
  function Dedupe(ss: seq<Session>): (r: seq<Session>)
    ensures forall s | s in r :: s in ss
  {
    if ss == [] then []
    else
      var init, last := Dedupe(ss[..|ss| - 1]), ss[|ss| - 1];
      if last.id in Ids(init) then init else init + [last]
  }

  lemma {:induction false} NothingToDedupe(ss: seq<Session>)
    requires DistinctIds(ss)
    ensures Dedupe(ss) == ss
  {
    if ss != [] { NothingToDedupe(ss[..|ss| - 1]); }
  }

  function Sessions(ss: seq<Session>): seq<Session> {
    Dedupe(StableSort(StartsBefore, ss))
  }

  function Tidied(m: Grouping<Session>): Grouping<Session> {
    Grouping(m.order, map k | k in m.lists :: Sessions(m.lists[k]))
  }

  /** `_link_sessions`, given the sessions with their identities. */
  function LinkedUp(ss: seq<Session>): Grouping<Session>
  {
    BucketsKeep(ss);
    BucketsAreRight(ss);
    Tidied(MergeUpTo(Whos(ss), Buckets(ss), |Buckets(ss).order|))
  }

  function Link(sessions: seq<Session>): Grouping<Session> {
    LinkedUp(IdentifiedAll(sessions))
  }

  /** Merging in two facts: nothing lost, and everything under its root. */
  lemma MergedAre(ss: seq<Session>)
    requires AllProper(Whos(ss))
    ensures NoneEmpty(Buckets(ss))
    ensures var m := MergeUpTo(Whos(ss), Buckets(ss), |Buckets(ss).order|);
      GroupingOk(m) && RootsRight(ss, Whos(ss), m) && multiset(Concat(m.order, m.lists)) == multiset(ss)
  {
    var g := Buckets(ss);
    BucketsKeep(ss);
    BucketsAreRight(ss);
    MergeKeeps(Whos(ss), g, |g.order|);
    MergeRoots(ss, g, |g.order|);
    assert g.order[..|g.order|] == g.order;
  }

  lemma SessionsAre(list: seq<Session>)
    requires DistinctIds(list)
    ensures Sessions(list) == StableSort(StartsBefore, list)
    ensures multiset(Sessions(list)) == multiset(list) && Ordered(StartsBefore, Sessions(list))
  {
    StartOrder();
    StableSortLaws(StartsBefore, list);
    DistinctWithin(list, StableSort(StartsBefore, list));
    NothingToDedupe(StableSort(StartsBefore, list));
  }

  /** No two of the sessions are merged away: each merged list is only rearranged. */
  lemma TidyingKeeps(ss: seq<Session>, m: Grouping<Session>, k: string)
    requires DistinctIds(ss) && GroupingOk(m) && multiset(Concat(m.order, m.lists)) == multiset(ss) && k in m.lists
    ensures multiset(Tidied(m).lists[k]) == multiset(m.lists[k]) && Ordered(StartsBefore, Tidied(m).lists[k])
  {
    ListWithin(m.order, m.lists, k);
    DistinctWithin(ss, m.lists[k]);
    SessionsAre(m.lists[k]);
  }

  lemma RearrangedRoots(ss: seq<Session>, m: Grouping<Session>, g: Grouping<Session>)
    requires RootsRight(ss, Whos(ss), m)
    requires g.lists.Keys == m.lists.Keys && forall k | k in m.lists :: multiset(g.lists[k]) == multiset(m.lists[k])
    ensures RootsRight(ss, Whos(ss), g)
  {
    forall k, s | k in g.lists && s in g.lists[k] ensures s in ss && Root(Whos(ss), Who(s)) == k {
      assert s in multiset(g.lists[k]);
      assert s in m.lists[k];
    }
  }

  lemma TidyingKeepsAll(ss: seq<Session>, m: Grouping<Session>)
    requires DistinctIds(ss) && GroupingOk(m) && multiset(Concat(m.order, m.lists)) == multiset(ss)
    ensures GroupingOk(Tidied(m)) && multiset(Concat(m.order, Tidied(m).lists)) == multiset(ss)
    ensures Tidied(m).lists.Keys == m.lists.Keys
    ensures forall k | k in m.lists ::
      multiset(Tidied(m).lists[k]) == multiset(m.lists[k]) && Ordered(StartsBefore, Tidied(m).lists[k])
  {
    forall k | k in m.lists
      ensures multiset(Tidied(m).lists[k]) == multiset(m.lists[k]) && Ordered(StartsBefore, Tidied(m).lists[k])
    {
      TidyingKeeps(ss, m, k);
    }
    ConcatRearranged(m.order, m.lists, Tidied(m).lists);
  }

  lemma EverySessionPlaced(ss: seq<Session>, g: Grouping<Session>, s: Session)
    requires multiset(Concat(g.order, g.lists)) == multiset(ss) && RootsRight(ss, Whos(ss), g) && s in ss
    ensures Root(Whos(ss), Who(s)) in g.lists && s in g.lists[Root(Whos(ss), Who(s))]
  {
    assert s in multiset(Concat(g.order, g.lists));
    ConcatMembers(g.order, g.lists, s);
  }

  lemma AllPlaced(ss: seq<Session>, g: Grouping<Session>)
    requires multiset(Concat(g.order, g.lists)) == multiset(ss) && RootsRight(ss, Whos(ss), g)
    ensures forall s | s in ss :: var root := Root(Whos(ss), Who(s)); root in g.lists && s in g.lists[root]
  {
    forall s | s in ss ensures var root := Root(Whos(ss), Who(s)); root in g.lists && s in g.lists[root] {
      EverySessionPlaced(ss, g, s);
    }
  }

  /** Each session in exactly one UE's list, once: the one of its root; each list in order of start. */
  lemma LinkIsExact(sessions: seq<Session>)
    requires DistinctIds(sessions)
    ensures GroupingOk(Link(sessions))
    ensures multiset(Concat(Link(sessions).order, Link(sessions).lists)) == multiset(IdentifiedAll(sessions))
    ensures forall k | k in Link(sessions).lists :: Ordered(StartsBefore, Link(sessions).lists[k])
    ensures RootsRight(IdentifiedAll(sessions), Whos(IdentifiedAll(sessions)), Link(sessions))
    ensures forall s | s in IdentifiedAll(sessions) ::
      var root := Root(Whos(IdentifiedAll(sessions)), Who(s));
      root in Link(sessions).lists && s in Link(sessions).lists[root]
  {
    var ss := IdentifiedAll(sessions);
    IdentifiedAreProper(sessions);
    MergedAre(ss);
    var m := MergeUpTo(Whos(ss), Buckets(ss), |Buckets(ss).order|);
    TidyingKeepsAll(ss, m);
    RearrangedRoots(ss, m, Link(sessions));
    AllPlaced(ss, Link(sessions));
  }

  // ---- timelines ----

  function OrZero(n: Option<int>): int {
    if n.Some? then n.value else 0
  }

  /** `(ts_sort, flow_rank, procedure_id or 0)` */
  predicate FlowsBefore(a: Rec, b: Rec) {
    || a.ts < b.ts
    || (a.ts == b.ts && a.rank < b.rank)
    || (a.ts == b.ts && a.rank == b.rank && OrZero(a.procedureId) <= OrZero(b.procedureId))
  }

  lemma FlowOrder()
    ensures TotalPreorder(FlowsBefore)
  {
  }

  function Records(ss: seq<Session>): seq<Rec> {
    if ss == [] then [] else Records(ss[..|ss| - 1]) + ss[|ss| - 1].records
  }

  lemma {:induction false} RecordsAreHeld(ss: seq<Session>)
    ensures multiset(Records(ss)) == Held(ss)
  {
    if ss != [] { RecordsAreHeld(ss[..|ss| - 1]); }
  }

  /** `_build_timeline` */
  function Timeline(ss: seq<Session>): seq<Rec> {
    StableSort(FlowsBefore, Records(ss))
  }

  lemma TimelineIsExact(ss: seq<Session>)
    ensures multiset(Timeline(ss)) == Held(ss) && Ordered(FlowsBefore, Timeline(ss))
  {
    FlowOrder();
    StableSortLaws(FlowsBefore, Records(ss));
    RecordsAreHeld(ss);
  }

  function Timelines(g: Grouping<Session>): Grouping<Rec> {
    Grouping(g.order, map k | k in g.lists :: Timeline(g.lists[k]))
  }

  lemma {:induction false} TimelinesHold(order: seq<string>, g: Grouping<Session>)
    ensures multiset(Concat(order, Timelines(g).lists)) == Held(Concat(order, g.lists))
  {
    if order != [] {
      var init, last := order[..|order| - 1], order[|order| - 1];
      TimelinesHold(init, g);
      if last !in g.lists {
        assert Concat(init, g.lists) + [] == Concat(init, g.lists);
        assert Concat(init, Timelines(g).lists) + [] == Concat(init, Timelines(g).lists);
      } else {
        HeldConcat(Concat(init, g.lists), g.lists[last]);
        TimelineIsExact(g.lists[last]);
      }
    }
  }

  /** `build` */
  function Stitched(recs: seq<Rec>): Grouping<Rec> {
    Timelines(Link(Segments(recs)))
  }

  /** Every input record lands in exactly one timeline, exactly once, and every timeline is in flow order. */
  lemma StitchingConserves(recs: seq<Rec>)
    ensures GroupingOk(Stitched(recs))
    ensures multiset(Concat(Stitched(recs).order, Stitched(recs).lists)) == multiset(recs)
    ensures forall k | k in Stitched(recs).lists :: Ordered(FlowsBefore, Stitched(recs).lists[k])
  {
    var g := Link(Segments(recs));
    SegmentsAreExact(recs);
    LinkIsExact(Segments(recs));
    TimelinesHold(g.order, g);
    HeldPermutation(Concat(g.order, g.lists), IdentifiedAll(Segments(recs)));
    IdentifiedHold(Segments(recs));
    forall k | k in g.lists ensures Ordered(FlowsBefore, Timeline(g.lists[k])) {
      TimelineIsExact(g.lists[k]);
    }
  }

  // ---- which sessions of a trace end up together ----

  /** What the records of a session show of its UE, first come first served. */
  function Shown(s: Session): UeIdentity {
    Canonical(Idents(s))
  }

  /** Both sessions lie in one UE's list. */
  ghost predicate Together(g: Grouping<Session>, a: Session, b: Session) {
    exists k :: k in g.lists && Identified(a) in g.lists[k] && Identified(b) in g.lists[k]
  }

  lemma ShownAreListed(sessions: seq<Session>, a: Session)
    requires a in sessions
    ensures Identified(a) in IdentifiedAll(sessions) && Shown(a) in Whos(IdentifiedAll(sessions))
    ensures Who(Identified(a)) == Shown(a)
  {
    var i :| 0 <= i < |sessions| && sessions[i] == a;
    assert IdentifiedAll(sessions)[i] == Identified(a);
    assert Whos(IdentifiedAll(sessions))[i] == Shown(a);
  }

  lemma TogetherIsOneRoot(sessions: seq<Session>, a: Session, b: Session)
    requires DistinctIds(sessions) && a in sessions && b in sessions
    ensures var ws := Whos(IdentifiedAll(sessions));
      Together(Link(sessions), a, b) <==> Root(ws, Shown(a)) == Root(ws, Shown(b))
  {
    LinkIsExact(sessions);
    ShownAreListed(sessions, a);
    ShownAreListed(sessions, b);
  }

  /** Two sessions of a trace that show IMSIs get one timeline exactly when the IMSIs are equal. */
  lemma OneTimelineIffSameImsi(recs: seq<Rec>, a: Session, b: Session)
    requires a in Segments(recs) && b in Segments(recs) && Shown(a).imsi.Some? && Shown(b).imsi.Some?
    ensures Together(Link(Segments(recs)), a, b) <==> Shown(a).imsi == Shown(b).imsi
  {
    var ss := Segments(recs);
    SegmentsAreExact(recs);
    TogetherIsOneRoot(ss, a, b);
    IdentifiedAreProper(ss);
    ShownAreListed(ss, a);
    ShownAreListed(ss, b);
    SameUeIffSameImsi(Whos(IdentifiedAll(ss)), Shown(a), Shown(b));
  }

  /** The session, in order of start, in which a random value first appears. */
  ghost predicate FirstShows(sessions: seq<Session>, i: nat, random: Option<string>) {
    && i < |sessions| && Shown(sessions[i]).randomValue == random
    && forall j | 0 <= j < i :: Shown(sessions[j]).randomValue != random
  }

  lemma FirstSharingShows(sessions: seq<Session>, w: UeIdentity)
    requires w.randomValue.Some? && FirstSharing(Whos(IdentifiedAll(sessions)), w) < |sessions|
    ensures FirstShows(sessions, FirstSharing(Whos(IdentifiedAll(sessions)), w), w.randomValue)
  {
    var ws := Whos(IdentifiedAll(sessions));
    forall j | 0 <= j < |sessions| ensures Random(ws)[j] == Shown(sessions[j]).randomValue {
      assert ws[j] == Shown(sessions[j]);
    }
  }

  /**
   A session known only by a random value gets the timeline of a UE with an IMSI exactly
   when the first session to show that value showed that IMSI.
   */
  lemma OneTimelineByRandomIff(recs: seq<Rec>, a: Session, b: Session, i: nat)
    requires a in Segments(recs) && b in Segments(recs)
    requires Shown(a).imsi.None? && Shown(a).randomValue.Some? && Shown(b).imsi.Some?
    requires FirstShows(Segments(recs), i, Shown(a).randomValue)
    ensures Together(Link(Segments(recs)), a, b) <==> Shown(Segments(recs)[i]).imsi == Shown(b).imsi
  {
    var ss := Segments(recs);
    var ws := Whos(IdentifiedAll(ss));
    SegmentsAreExact(recs);
    TogetherIsOneRoot(ss, a, b);
    IdentifiedAreProper(ss);
    ShownAreListed(ss, a);
    ShownAreListed(ss, b);
    RandomJoinsImsiIff(ws, Shown(a), Shown(b));
    FirstSharingShows(ss, Shown(a));
    var first := FirstSharing(ws, Shown(a));
    assert i == first;
    assert ws[first] == Shown(ss[first]);
  }

  // ---- the program's loops ----

  lemma TableGrows(ws: seq<UeIdentity>, w: UeIdentity)
    ensures Imsi(ws + [w]) == Imsi(ws) + [w.imsi] && Random(ws + [w]) == Random(ws) + [w.randomValue]
    ensures Keys(ws + [w]) == Keys(ws) + [w.ueKey]
    ensures Table(Imsi(ws + [w]), Keys(ws + [w])) == SetDefault(Table(Imsi(ws), Keys(ws)), w.imsi, w.ueKey)
    ensures Table(Random(ws + [w]), Keys(ws + [w])) == SetDefault(Table(Random(ws), Keys(ws)), w.randomValue, w.ueKey)
  {
    assert (Imsi(ws) + [w.imsi])[..|ws|] == Imsi(ws);
    assert (Random(ws) + [w.randomValue])[..|ws|] == Random(ws);
    assert (Keys(ws) + [w.ueKey])[..|ws|] == Keys(ws);
  }

  /** `if value: table.setdefault(value, key)` */
  function SetDefault(table: map<string, string>, value: Option<string>, key: string): map<string, string> {
    if Given(value) && value.value !in table then table[value.value := key] else table
  }

  method Identify(s: Session) returns (r: Session)
    ensures r == Identified(s)
  {
    var canon := PickCanonicalKey(Idents(s));
    r := s.(identity := Some(canon));
  }

  /** The buckets and tables after these sessions. */
  ghost predicate Filled(ss: seq<Session>, buckets: Grouping<Session>, imsiToKey: map<string, string>,
                         randomToKey: map<string, string>) {
    && buckets == Buckets(ss)
    && imsiToKey == Table(Imsi(Whos(ss)), Keys(Whos(ss)))
    && randomToKey == Table(Random(Whos(ss)), Keys(Whos(ss)))
  }

  /** The first loop: identities, buckets and the two tables. */
  method FillBuckets(sessions: seq<Session>)
    returns (buckets: Grouping<Session>, imsiToKey: map<string, string>, randomToKey: map<string, string>)
    ensures Filled(IdentifiedAll(sessions), buckets, imsiToKey, randomToKey)
  {
    buckets, imsiToKey, randomToKey := NoGroups(), map[], map[];
    ghost var ss: seq<Session> := [];
    for k := 0 to |sessions|
      invariant ss == IdentifiedAll(sessions[..k])
      invariant Filled(ss, buckets, imsiToKey, randomToKey)
    {
      var sess := Identify(sessions[k]);
      var canon := Who(sess);
      FillStep(ss, buckets, imsiToKey, randomToKey, sess);
      IdentifiedSnoc(sessions, k);
      buckets := Extend(buckets, canon.ueKey, [sess]);
      randomToKey := SetDefault(randomToKey, canon.randomValue, canon.ueKey);
      imsiToKey := SetDefault(imsiToKey, canon.imsi, canon.ueKey);
      ss := ss + [sess];
    }
    assert sessions[..|sessions|] == sessions;
  }

  lemma IdentifiedSnoc(sessions: seq<Session>, k: nat)
    requires k < |sessions|
    ensures IdentifiedAll(sessions[..k + 1]) == IdentifiedAll(sessions[..k]) + [Identified(sessions[k])]
  {
  }

  lemma FillStep(ss: seq<Session>, buckets: Grouping<Session>, imsiToKey: map<string, string>,
                 randomToKey: map<string, string>, s: Session)
    requires Filled(ss, buckets, imsiToKey, randomToKey)
    ensures Filled(ss + [s], Extend(buckets, Who(s).ueKey, [s]), SetDefault(imsiToKey, Who(s).imsi, Who(s).ueKey),
                   SetDefault(randomToKey, Who(s).randomValue, Who(s).ueKey))
  {
    BucketStep(ss, s);
    TableGrows(Whos(ss), Who(s));
  }

  lemma BucketStep(ss: seq<Session>, s: Session)
    ensures Buckets(ss + [s]) == Extend(Buckets(ss), Who(s).ueKey, [s])
    ensures Whos(ss + [s]) == Whos(ss) + [Who(s)]
  {
    assert (ss + [s])[..|ss|] == ss;
  }

  /** The second loop: buckets of one root go together. */
  method MergeBuckets(ghost ws: seq<UeIdentity>, buckets: Grouping<Session>,
                      imsiToKey: map<string, string>, randomToKey: map<string, string>)
    returns (merged: Grouping<Session>)
    requires NoneEmpty(buckets)
    requires imsiToKey == Table(Imsi(ws), Keys(ws)) && randomToKey == Table(Random(ws), Keys(ws))
    ensures merged == MergeUpTo(ws, buckets, |buckets.order|)
  {
    merged := NoGroups();
    for k := 0 to |buckets.order|
      invariant merged == MergeUpTo(ws, buckets, k)
    {
      var group := buckets.lists[buckets.order[k]];
      merged := Extend(merged, ResolveKey(imsiToKey, randomToKey, Who(group[0])), group);
    }
  }

  /** `seen` and `uniq` over one UE's sessions in order of start. */
  method Uniq(ss: seq<Session>) returns (uniq: seq<Session>)
    ensures uniq == Sessions(ss)
  {
    var sorted := StableSort(StartsBefore, ss);
    var seen: set<string> := {};
    uniq := [];
    for k := 0 to |sorted|
      invariant uniq == Dedupe(sorted[..k])
      invariant seen == Ids(uniq)
    {
      assert sorted[..k + 1][..k] == sorted[..k];
      var s := sorted[k];
      if s.id !in seen {
        assert Ids(uniq + [s]) == Ids(uniq) + {s.id};
        seen := seen + {s.id};
        uniq := uniq + [s];
      }
    }
    assert sorted[..|sorted|] == sorted;
  }

  /** The third loop: every UE's sessions in order of start, each once. */
  method TidyAll(merged: Grouping<Session>) returns (linked: Grouping<Session>)
    requires GroupingOk(merged)
    ensures linked == Tidied(merged)
  {
    var lists: map<string, seq<Session>> := map[];
    for k := 0 to |merged.order|
      invariant BuiltUpTo(merged, Sessions, lists, k)
    {
      BuildsOneMore(merged, Sessions, lists, k);
      var uniq := Uniq(merged.lists[merged.order[k]]);
      lists := lists[merged.order[k] := uniq];
    }
    AllBuilt(merged, Sessions, lists);
    linked := Grouping(merged.order, lists);
  }

  /** `_link_sessions` */
  method LinkSessions(sessions: seq<Session>) returns (linked: Grouping<Session>)
    ensures linked == Link(sessions)
  {
    var buckets, imsiToKey, randomToKey := FillBuckets(sessions);
    IdentifiedAreProper(sessions);
    MergedAre(IdentifiedAll(sessions));
    var merged := MergeBuckets(Whos(IdentifiedAll(sessions)), buckets, imsiToKey, randomToKey);
    linked := TidyAll(merged);
  }

  /** The loops of `_build_timeline` */
  method BuildTimeline(ss: seq<Session>) returns (stitched: seq<Rec>)
    ensures stitched == Timeline(ss)
  {
    stitched := [];
    for k := 0 to |ss|
      invariant stitched == Records(ss[..k])
    {
      assert ss[..k + 1][..k] == ss[..k];
      for i := 0 to |ss[k].records|
        invariant stitched == Records(ss[..k]) + ss[k].records[..i]
      {
        stitched := stitched + [ss[k].records[i]];
      }
    }
    assert ss[..|ss|] == ss;
    stitched := StableSort(FlowsBefore, stitched);
  }

  method BuildTimelines(linked: Grouping<Session>) returns (index: Grouping<Rec>)
    requires GroupingOk(linked)
    ensures index == Timelines(linked)
  {
    var lists: map<string, seq<Rec>> := map[];
    for k := 0 to |linked.order|
      invariant BuiltUpTo(linked, Timeline, lists, k)
    {
      BuildsOneMore(linked, Timeline, lists, k);
      var tl := BuildTimeline(linked.lists[linked.order[k]]);
      lists := lists[linked.order[k] := tl];
    }
    AllBuilt(linked, Timeline, lists);
    index := Grouping(linked.order, lists);
  }

  /** `build` */
  method Build(recs: seq<Rec>) returns (index: Grouping<Rec>)
    ensures index == Stitched(recs)
  {
    var sessions := SegmentSessions(recs);
    SegmentsAreExact(recs);
    var linked := LinkSessions(sessions);
    LinkIsExact(sessions);
    index := BuildTimelines(linked);
  }

  // ---- in the records' own terms ----

  /** What a sort key sees of an id that may be missing. */
  ghost predicate Shows(n: Option<int>, v: int) {
    n == Some(v) || (n.None? && v == 0)
  }

  /**
   Inside a timeline a record stands before another only if it is not later; at the same time
   not of a later place in the flow; and at the same place not of a higher procedure id, a
   missing one counting as 0.
   */
  lemma TimelinesRise(recs: seq<Rec>, k: string, i: nat, j: nat, p: int, q: int)
    requires k in Stitched(recs).lists && i < j < |Stitched(recs).lists[k]|
    requires Shows(Stitched(recs).lists[k][i].procedureId, p) && Shows(Stitched(recs).lists[k][j].procedureId, q)
    ensures var a, b := Stitched(recs).lists[k][i], Stitched(recs).lists[k][j];
      && a.ts <= b.ts
      && (a.ts == b.ts ==> a.rank <= b.rank)
      && (a.ts == b.ts && a.rank == b.rank ==> p <= q)
  {
    StitchingConserves(recs);
    assert FlowsBefore(Stitched(recs).lists[k][i], Stitched(recs).lists[k][j]);
  }

  lemma LinkRootsRight(sessions: seq<Session>)
    requires DistinctIds(sessions)
    ensures RootsRight(IdentifiedAll(sessions), Whos(IdentifiedAll(sessions)), Link(sessions))
  {
    LinkIsExact(sessions);
  }

  lemma RootsRightMember(ss: seq<Session>, ws: seq<UeIdentity>, g: Grouping<Session>, k: string, s: Session)
    requires RootsRight(ss, ws, g) && k in g.lists && s in g.lists[k]
    ensures s in ss
  {
  }

  lemma LinkedIsListed(sessions: seq<Session>, k: string, s: Session)
    requires DistinctIds(sessions) && k in Link(sessions).lists && s in Link(sessions).lists[k]
    ensures s in IdentifiedAll(sessions)
  {
    LinkRootsRight(sessions);
    RootsRightMember(IdentifiedAll(sessions), Whos(IdentifiedAll(sessions)), Link(sessions), k, s);
  }

  lemma IdentifiedComeFrom(sessions: seq<Session>, s: Session) returns (t: Session)
    requires s in IdentifiedAll(sessions)
    ensures t in sessions && s == Identified(t)
  {
    var i :| 0 <= i < |sessions| && IdentifiedAll(sessions)[i] == s;
    t := sessions[i];
  }

  /**
   Linking changes nothing about a session but its identity, which becomes what its own records
   show.
   */
  lemma LinkedAreSegments(sessions: seq<Session>, k: string, s: Session) returns (t: Session)
    requires DistinctIds(sessions) && k in Link(sessions).lists && s in Link(sessions).lists[k]
    ensures t in sessions && s == t.(identity := Some(Canonical(Idents(t))))
  {
    LinkedIsListed(sessions, k, s);
    t := IdentifiedComeFrom(sessions, s);
  }

  /** Of every id one session is kept, */
  lemma {:induction false} DedupeKeepsIds(ss: seq<Session>)
    ensures DistinctIds(Dedupe(ss)) && Ids(Dedupe(ss)) == Ids(ss)
  {
    if ss != [] {
      var init, last := ss[..|ss| - 1], ss[|ss| - 1];
      DedupeKeepsIds(init);
      assert ss == init + [last];
      assert Ids(ss) == Ids(init) + {last.id};
      assert Ids(Dedupe(init) + [last]) == Ids(Dedupe(init)) + {last.id};
    }
  }

  /** and that is the first. */
  lemma {:induction false} DedupeKeepsFirst(ss: seq<Session>, s: Session)
    requires s in Dedupe(ss)
    ensures IndexOf(ss, s.id) < |ss| && s == ss[IndexOf(ss, s.id)]
    decreases |ss|
  {
    var init, last := ss[..|ss| - 1], ss[|ss| - 1];
    FirstStays(init, last, s.id);
    assert ss == init + [last];
    DedupeKeepsIds(init);
    assert IndexOf(init, s.id) < |init| ==> s.id in Ids(init) by {
      if IndexOf(init, s.id) < |init| { assert init[IndexOf(init, s.id)].id in Ids(init); }
    }
    if s in Dedupe(init) {
      DedupeKeepsFirst(init, s);
    }
  }

  lemma {:induction false} FirstStays(ss: seq<Session>, more: Session, id: string)
    ensures IndexOf(ss + [more], id)
         == if IndexOf(ss, id) < |ss| then IndexOf(ss, id)
            else |ss| + if more.id == id then 0 else 1
  {
    if ss != [] {
      assert (ss + [more])[1..] == ss[1..] + [more];
      FirstStays(ss[1..], more, id);
    }
  }
}
