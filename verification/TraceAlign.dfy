/**
 Pairing live events with reference trace records (`align_trace_to_events` in
 srsTwin/integration/dashboard/parse_4g.py). A record is its lower-case message choice,
 empty if it has none; whether an event's label contains a choice is given.
 */
module TraceAlign {
  import opened Collections

  /** One row of the side-by-side list: an event, a record, or both. */
  datatype Row = Row(live: Option<nat>, trace: Option<nat>)

  /** What the program asks of an event: is it RRC or S1AP, and does its label contain this choice? */
  datatype Labels = Labels(signalling: nat -> bool, contains: (nat, string) -> bool)

  predicate Fits(l: Labels, names: seq<string>, ev: nat, t: nat)
    requires t < |names|
  {
    l.signalling(ev) && names[t] != "" && l.contains(ev, names[t])
  }

  /** Where a choice first stands in the trace; choices are tried in that order. */
  function FirstOf(names: seq<string>, name: string): (i: nat)
    ensures i <= |names|
    ensures i < |names| ==> names[i] == name
    ensures forall j | 0 <= j < i :: names[j] != name
  {
    if names == [] || names[0] == name then 0 else 1 + FirstOf(names[1..], name)
  }

  /** Record t is tried before record u. */
  predicate TriedBefore(names: seq<string>, t: nat, u: nat)
    requires t < |names| && u < |names|
  {
    FirstOf(names, names[t]) < FirstOf(names, names[u]) || (names[t] == names[u] && t <= u)
  }

  /** The fitting unused record that is tried first, or none if there is none. */
  ghost predicate IsMatch(l: Labels, names: seq<string>, used: set<nat>, ev: nat, m: Option<nat>) {
    match m
    case None => forall t: nat | t < |names| && t !in used :: !Fits(l, names, ev, t)
    case Some(t) =>
      && t < |names| && t !in used && Fits(l, names, ev, t)
      && forall u: nat | u < |names| && u !in used && Fits(l, names, ev, u) :: TriedBefore(names, t, u)
  }

  /**
   What a greedy match means: the event is of the signalling layers and its label contains the
   record's choice, which is not empty. Of the records that no earlier event took it has the
   choice that appears first in the trace, and of that choice the first record.
   */
  lemma MatchMeans(l: Labels, names: seq<string>, used: set<nat>, ev: nat, t: nat, u: nat)
    requires IsMatch(l, names, used, ev, Some(t))
    ensures t < |names| && t !in used && l.signalling(ev) && names[t] != "" && l.contains(ev, names[t])
    ensures u < |names| && u !in used && l.signalling(ev) && names[u] != "" && l.contains(ev, names[u]) ==>
      && (names[u] == names[t] ==> t <= u)
      && (names[u] != names[t] ==>
            exists i :: 0 <= i < |names| && names[i] == names[t] && names[u] !in names[..i])
  {
    var i := FirstOf(names, names[t]);
    assert i <= t < |names| && names[i] == names[t];
    assert forall x | x in names[..i] :: exists j :: 0 <= j < i && names[j] == x;
  }

  /** The records these rows show. */
  function Used(rows: seq<Row>): set<nat> {
    set i | 0 <= i < |rows| && rows[i].trace.Some? :: rows[i].trace.value
  }

  /** Row i is event i with its greedy match. */
  ghost predicate EventRow(l: Labels, names: seq<string>, rows: seq<Row>, i: nat)
    requires i < |rows|
  {
    rows[i].live == Some(i) && IsMatch(l, names, Used(rows[..i]), i, rows[i].trace)
  }

  ghost predicate NoRecordTwice(rows: seq<Row>) {
    forall r, s | 0 <= r < s < |rows| && rows[r].trace.Some? :: rows[r].trace != rows[s].trace
  }

  /** Every record stands in exactly one row. */
  ghost predicate CoversOnce(rows: seq<Row>, n: nat) {
    && (forall t :: t in Used(rows) <==> 0 <= t < n)
    && NoRecordTwice(rows)
  }

  lemma UsedSnoc(rows: seq<Row>, row: Row)
    ensures Used(rows + [row]) == Used(rows) + if row.trace.Some? then {row.trace.value} else {}
    ensures NoRecordTwice(rows) && (row.trace.Some? ==> row.trace.value !in Used(rows)) ==> NoRecordTwice(rows + [row])
  {
    var more := rows + [row];
    forall t | t in Used(rows) ensures t in Used(more) {
      var i :| 0 <= i < |rows| && rows[i].trace == Some(t);
      assert more[i].trace == Some(t);
    }
    if row.trace.Some? { assert more[|rows|].trace == row.trace; }
  }

  // ---- the lookup by choice ----

  ghost predicate Ascending(idxs: seq<nat>) {
    forall i, j | 0 <= i < j < |idxs| :: idxs[i] < idxs[j]
  }

  /** These are, in order, the records before k with this choice. */
  ghost predicate ListOk(names: seq<string>, idxs: seq<nat>, name: string, k: nat)
    requires k <= |names|
  {
    Ascending(idxs) && forall t: nat :: t in idxs <==> t < k && names[t] == name
  }

  /** Choices in order of first appearance. */
  ghost predicate OrderOk(names: seq<string>, order: seq<string>, k: nat) {
    && (forall m | 0 <= m < |order| :: order[m] != "" && FirstOf(names, order[m]) < k)
    && (forall m, o | 0 <= m < o < |order| :: FirstOf(names, order[m]) < FirstOf(names, order[o]))
  }

  ghost predicate ListsOk(names: seq<string>, lists: map<string, seq<nat>>, k: nat)
    requires k <= |names|
  {
    && (forall name | name in lists :: ListOk(names, lists[name], name, k))
    && (forall t: nat | t < k && names[t] != "" :: names[t] in lists)
  }

  /** The choices of the first k records in order of appearance, each with its records in order. */
  ghost predicate LookupOk(names: seq<string>, g: Grouping<nat>, k: nat)
    requires k <= |names|
  {
    && OrderOk(names, g.order, k) && ListsOk(names, g.lists, k)
    && (forall name :: name in g.order <==> name in g.lists)
  }

  lemma ListGrows(names: seq<string>, idxs: seq<nat>, name: string, k: nat)
    requires k < |names| && ListOk(names, idxs, name, k)
    ensures ListOk(names, if names[k] == name then idxs + [k] else idxs, name, k + 1)
  {
    forall i | 0 <= i < |idxs| ensures idxs[i] < k {
      assert idxs[i] in idxs;
    }
  }

  lemma NewChoice(names: seq<string>, order: seq<string>, k: nat)
    requires k < |names| && OrderOk(names, order, k) && names[k] != ""
    requires forall t | 0 <= t < k :: names[t] != names[k]
    ensures OrderOk(names, order + [names[k]], k + 1)
  {
    assert FirstOf(names, names[k]) == k;
  }

  lemma NoChoice(names: seq<string>, g: Grouping<nat>, k: nat)
    requires k < |names| && LookupOk(names, g, k) && names[k] == ""
    ensures LookupOk(names, g, k + 1)
  {
    forall n | n in g.lists ensures ListOk(names, g.lists[n], n, k + 1) {
      assert n in g.order;
      ListGrows(names, g.lists[n], n, k);
    }
  }

  lemma ListsGrow(names: seq<string>, lists: map<string, seq<nat>>, k: nat)
    requires k < |names| && ListsOk(names, lists, k) && names[k] != ""
    ensures ListsOk(names, lists[names[k] := (if names[k] in lists then lists[names[k]] else []) + [k]], k + 1)
  {
    var idxs := if names[k] in lists then lists[names[k]] else [];
    assert ListOk(names, idxs, names[k], k);
    var grown := lists[names[k] := idxs + [k]];
    forall n | n in grown ensures ListOk(names, grown[n], n, k + 1) {
      ListGrows(names, if n == names[k] then idxs else lists[n], n, k);
    }
  }

  lemma LookupGrows(names: seq<string>, g: Grouping<nat>, k: nat)
    requires k < |names| && LookupOk(names, g, k) && names[k] != ""
    ensures LookupOk(names, Extend(g, names[k], [k]), k + 1)
  {
    ListsGrow(names, g.lists, k);
    if names[k] !in g.lists {
      NewChoice(names, g.order, k);
      assert [] + [k] == [k];
    }
  }

  method FillLookup(names: seq<string>) returns (g: Grouping<nat>)
    ensures LookupOk(names, g, |names|)
  {
    g := NoGroups();
    for k := 0 to |names|
      invariant LookupOk(names, g, k)
    {
      if names[k] != "" {
        LookupGrows(names, g, k);
        g := Extend(g, names[k], [k]);
      } else {
        NoChoice(names, g, k);
      }
    }
  }

  // ---- matching one event ----

  /** The inner loop: the first record of one choice that is still unused. */
  method FirstUnused(idxs: seq<nat>, used: set<nat>) returns (m: Option<nat>)
    requires Ascending(idxs)
    ensures m.None? ==> forall t | t in idxs :: t in used
    ensures m.Some? ==> m.value in idxs && m.value !in used && forall t | t in idxs && t !in used :: m.value <= t
  {
    m := None;
    for i := 0 to |idxs|
      invariant forall j | 0 <= j < i :: idxs[j] in used
    {
      if idxs[i] !in used {
        return Some(idxs[i]);
      }
    }
  }

  /** All records of these choices that fit the event are used up. */
  ghost predicate Spent(l: Labels, g: Grouping<nat>, k: nat, used: set<nat>, ev: nat)
    requires k <= |g.order|
  {
    forall m | 0 <= m < k && l.contains(ev, g.order[m]) && g.order[m] in g.lists ::
      forall t | t in g.lists[g.order[m]] :: t in used
  }

  lemma SpentGrows(l: Labels, g: Grouping<nat>, k: nat, used: set<nat>, ev: nat)
    requires k < |g.order| && Spent(l, g, k, used, ev)
    requires l.contains(ev, g.order[k]) && g.order[k] in g.lists ==> forall t | t in g.lists[g.order[k]] :: t in used
    ensures Spent(l, g, k + 1, used, ev)
  {
  }

  lemma ChoicesAreListed(names: seq<string>, g: Grouping<nat>, k: nat)
    requires LookupOk(names, g, |names|) && k < |g.order|
    ensures g.order[k] in g.lists && Ascending(g.lists[g.order[k]])
  {
  }

  lemma SpentMeansNoMatch(l: Labels, names: seq<string>, g: Grouping<nat>, used: set<nat>, ev: nat)
    requires LookupOk(names, g, |names|) && Spent(l, g, |g.order|, used, ev)
    ensures IsMatch(l, names, used, ev, None)
  {
    forall t: nat | t < |names| && t !in used ensures !Fits(l, names, ev, t) {
      if names[t] != "" {
        assert t in g.lists[names[t]];
        var m :| 0 <= m < |g.order| && g.order[m] == names[t];
      }
    }
  }

  /** A choice whose records still has an unused one was not spent before. */
  lemma LaterOrSame(l: Labels, names: seq<string>, g: Grouping<nat>, k: nat, used: set<nat>, ev: nat, u: nat)
    returns (m: nat)
    requires LookupOk(names, g, |names|) && k < |g.order| && Spent(l, g, k, used, ev)
    requires u < |names| && u !in used && Fits(l, names, ev, u)
    ensures k <= m < |g.order| && g.order[m] == names[u] && names[u] in g.lists && u in g.lists[names[u]]
  {
    assert u in g.lists[names[u]];
    m :| 0 <= m < |g.order| && g.order[m] == names[u];
  }

  lemma FirstUnusedIsMatch(l: Labels, names: seq<string>, g: Grouping<nat>, k: nat, used: set<nat>, ev: nat, t: nat)
    requires LookupOk(names, g, |names|) && k < |g.order| && Spent(l, g, k, used, ev)
    requires l.signalling(ev) && l.contains(ev, g.order[k])
    requires t in g.lists[g.order[k]] && t !in used && forall u | u in g.lists[g.order[k]] && u !in used :: t <= u
    ensures IsMatch(l, names, used, ev, Some(t))
  {
    assert names[t] == g.order[k];
    forall u: nat | u < |names| && u !in used && Fits(l, names, ev, u) ensures TriedBefore(names, t, u) {
      var m := LaterOrSame(l, names, g, k, used, ev, u);
    }
  }

  /** The search for one event's record. */
  method FindMatch(l: Labels, names: seq<string>, g: Grouping<nat>, used: set<nat>, ev: nat) returns (m: Option<nat>)
    requires LookupOk(names, g, |names|) && l.signalling(ev)
    ensures IsMatch(l, names, used, ev, m)
  {
    for k := 0 to |g.order|
      invariant Spent(l, g, k, used, ev)
    {
      ChoicesAreListed(names, g, k);
      if l.contains(ev, g.order[k]) {
        m := FirstUnused(g.lists[g.order[k]], used);
        if m.Some? {
          FirstUnusedIsMatch(l, names, g, k, used, ev, m.value);
          return;
        }
      }
      SpentGrows(l, g, k, used, ev);
    }
    SpentMeansNoMatch(l, names, g, used, ev);
    m := None;
  }

  // ---- the whole list ----

  method MatchEvents(l: Labels, names: seq<string>, events: nat) returns (rows: seq<Row>, used: set<nat>)
    ensures |rows| == events && used == Used(rows) && NoRecordTwice(rows)
    ensures forall i | 0 <= i < events :: EventRow(l, names, rows, i)
    ensures forall t | t in used :: t < |names|
  {
    var g := FillLookup(names);
    rows, used := [], {};
    for ev := 0 to events
      invariant |rows| == ev && used == Used(rows) && NoRecordTwice(rows)
      invariant forall i | 0 <= i < ev :: EventRow(l, names, rows, i)
      invariant forall t | t in used :: t < |names|
    {
      var matched := None;
      if l.signalling(ev) {
        matched := FindMatch(l, names, g, used, ev);
      }
      ghost var before := rows;
      UsedSnoc(rows, Row(Some(ev), matched));
      rows := rows + [Row(Some(ev), matched)];
      if matched.Some? {
        used := used + {matched.value};
      }
      forall i | 0 <= i <= ev ensures EventRow(l, names, rows, i) {
        assert rows[..i] == before[..i];
        if i < ev { assert EventRow(l, names, before, i); } else { assert before[..ev] == before; }
      }
    }
  }

  /**
   `align_trace_to_events`: every event in its place with the first fitting record that no
   earlier event took, then the records nobody took; each record in exactly one row.
   */
  method AlignTrace(l: Labels, names: seq<string>, events: nat) returns (rows: seq<Row>)
    ensures |rows| >= events && CoversOnce(rows, |names|)
    ensures forall i | 0 <= i < events :: EventRow(l, names, rows, i)
    ensures forall i | events <= i < |rows| :: rows[i].live == None && rows[i].trace.Some?
    ensures forall i, j | events <= i < j < |rows| :: rows[i].trace.value < rows[j].trace.value
  {
    var matched, used := MatchEvents(l, names, events);
    rows := matched;
    for t := 0 to |names|
      invariant matched <= rows && NoRecordTwice(rows)
      invariant forall u: nat :: u in Used(rows) <==> u in used || u < t
      invariant forall i | events <= i < |rows| ::
        rows[i].live == None && rows[i].trace.Some? && rows[i].trace.value < t
      invariant forall i, j | events <= i < j < |rows| :: rows[i].trace.value < rows[j].trace.value
    {
      if t !in used {
        UsedSnoc(rows, Row(None, Some(t)));
        rows := rows + [Row(None, Some(t))];
      }
    }
    forall i | 0 <= i < events ensures EventRow(l, names, rows, i) {
      assert EventRow(l, names, matched, i) && rows[..i] == matched[..i];
    }
  }
}
