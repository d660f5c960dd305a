/**
 Small shared vocabulary: optional values, decimal numerals, and the stable sort that
 `sorted` and `list.sort` perform.
 */
module Collections {

  datatype Option<+T> = None | Some(value: T)

  function Max(a: int, b: int): int {
    if a < b then b else a
  }

  function Min(a: int, b: int): int {
    if b < a then b else a
  }

  function MaxReal(a: real, b: real): real {
    if a < b then b else a
  }

  /** The smallest integer not below x. */
  function Ceil(x: real): (n: int)
    ensures x <= n as real < x + 1.0
  {
    -((-x).Floor)
  }

  // ---- decimal numerals ----

  function Digit(d: nat): char
    requires d < 10
  {
    '0' + d as char
  }

  /** `str(n)` */
  function Decimal(n: nat): (s: string)
    ensures |s| >= 1
  {
    if n < 10 then [Digit(n)] else Decimal(n / 10) + [Digit(n % 10)]
  }

  function Show(n: int): string {
    if n < 0 then "-" + Decimal(-n) else Decimal(n)
  }

  lemma {:induction false} DecimalHasDigits(n: nat, c: char)
    requires c in Decimal(n)
    ensures '0' <= c <= '9'
  {
    if n >= 10 && c in Decimal(n / 10) { DecimalHasDigits(n / 10, c); }
  }

  /** Different numbers have different numerals. */
  lemma {:induction false} DecimalTells(a: nat, b: nat)
    requires Decimal(a) == Decimal(b)
    ensures a == b
  {
    var s := Decimal(a);
    if a >= 10 && b >= 10 {
      assert s[..|s| - 1] == Decimal(a / 10) && s[..|s| - 1] == Decimal(b / 10);
      DecimalTells(a / 10, b / 10);
    }
    assert s[|s| - 1] == Digit(a % 10) == Digit(b % 10);
  }

  lemma ShowTells(a: int, b: int)
    requires Show(a) == Show(b)
    ensures a == b
  {
    var x, y := if a < 0 then -a else a, if b < 0 then -b else b;
    DecimalHasDigits(x, Decimal(x)[0]);
    DecimalHasDigits(y, Decimal(y)[0]);
    if a < 0 && b < 0 {
      assert Show(a)[1..] == Decimal(x) && Show(b)[1..] == Decimal(y);
    }
    DecimalTells(x, y);
  }

  lemma ShowHasNoColon(n: int)
    ensures ':' !in Show(n)
  {
    var x := if n < 0 then -n else n;
    if ':' in Decimal(x) { DecimalHasDigits(x, ':'); }
  }

  lemma ColonInside(a: string, b: string, c: string, d: string)
    requires a + ":" + b == c + ":" + d && |a| < |c|
    ensures ':' in c
  {
    assert (a + ":" + b)[|a|] == ':' && (c + ":" + d)[|a|] == c[|a|];
  }

  /** A text is cut at its first colon in one way only. */
  lemma ColonSplits(a: string, b: string, c: string, d: string)
    requires ':' !in a && ':' !in c && a + ":" + b == c + ":" + d
    ensures a == c && b == d
  {
    if |a| < |c| {
      ColonInside(a, b, c, d);
    } else if |c| < |a| {
      ColonInside(c, d, a, b);
    } else {
      var s, t := a + ":" + b, c + ":" + d;
      assert s[..|a|] == a && t[..|c|] == c && s[|a| + 1..] == b && t[|c| + 1..] == d;
    }
  }

  // ---- taking sequences apart ----

  lemma Snoc<T>(s: seq<T>)
    requires s != []
    ensures s == s[..|s| - 1] + [s[|s| - 1]]
    ensures multiset(s) == multiset(s[..|s| - 1]) + multiset{s[|s| - 1]}
  {
    assert s == s[..|s| - 1] + [s[|s| - 1]];
  }

  lemma ConsConcat<T>(s: seq<T>, more: seq<T>)
    requires s != []
    ensures s + more == [s[0]] + (s[1..] + more)
  {
  }

  lemma Around<T>(s: seq<T>, j: nat)
    requires j < |s|
    ensures s == s[..j] + [s[j]] + s[j + 1..]
    ensures multiset(s[..j] + s[j + 1..]) == multiset(s) - multiset{s[j]}
  {
    assert s == s[..j] + [s[j]] + s[j + 1..];
  }

  function Mapped<T, U>(f: T -> U, s: seq<T>): (r: seq<U>)
    ensures |r| == |s|
  {
    seq(|s|, i requires 0 <= i < |s| => f(s[i]))
  }

  lemma MappedConcat<T, U>(f: T -> U, a: seq<T>, b: seq<T>)
    ensures Mapped(f, a + b) == Mapped(f, a) + Mapped(f, b)
  {
  }

  lemma MappedSnoc<T, U>(f: T -> U, s: seq<T>)
    requires s != []
    ensures multiset(Mapped(f, s)) == multiset(Mapped(f, s[..|s| - 1])) + multiset{f(s[|s| - 1])}
  {
    assert Mapped(f, s) == Mapped(f, s[..|s| - 1]) + [f(s[|s| - 1])];
  }

  lemma MappedWithout<T, U>(f: T -> U, s: seq<T>, j: nat)
    requires j < |s|
    ensures multiset(Mapped(f, s)) == multiset(Mapped(f, s[..j] + s[j + 1..])) + multiset{f(s[j])}
  {
    Around(s, j);
    MappedConcat(f, s[..j], [s[j]]);
    MappedConcat(f, s[..j] + [s[j]], s[j + 1..]);
    MappedConcat(f, s[..j], s[j + 1..]);
  }

  lemma {:induction false} MappedKeeps<T, U>(f: T -> U, a: seq<T>, b: seq<T>)
    requires multiset(a) == multiset(b)
    ensures multiset(Mapped(f, a)) == multiset(Mapped(f, b))
    decreases |a|
  {
    assert |a| == |multiset(a)| == |multiset(b)| == |b|;
    if a != [] {
      var last := a[|a| - 1];
      Snoc(a);
      assert last in multiset(b);
      var j :| 0 <= j < |b| && b[j] == last;
      MappedWithout(f, b, j);
      Around(b, j);
      MappedKeeps(f, a[..|a| - 1], b[..j] + b[j + 1..]);
      MappedSnoc(f, a);
    }
  }

  // ---- stable sorting ----

  ghost predicate TotalPreorder<T(!new)>(le: (T, T) -> bool) {
    && (forall a, b :: le(a, b) || le(b, a))
    && (forall a, b, c :: le(a, b) && le(b, c) ==> le(a, c))
  }

  predicate Ordered<T>(le: (T, T) -> bool, s: seq<T>) {
    forall i, j | 0 <= i < j < |s| :: le(s[i], s[j])
  }

  /** Puts x behind the last element that does not come after it. */
  function Insert<T>(le: (T, T) -> bool, s: seq<T>, x: T): (r: seq<T>)
    ensures |r| == |s| + 1
  {
    if s == [] then [x]
    else if le(s[|s| - 1], x) then s + [x]
    else Insert(le, s[..|s| - 1], x) + [s[|s| - 1]]
  }

  function StableSort<T>(le: (T, T) -> bool, s: seq<T>): (r: seq<T>)
    ensures |r| == |s|
  {
    if s == [] then [] else Insert(le, StableSort(le, s[..|s| - 1]), s[|s| - 1])
  }

  /** The elements that tie with x, in order. */
  function Ties<T>(le: (T, T) -> bool, s: seq<T>, x: T): seq<T> {
    if s == [] then []
    else
      var last := s[|s| - 1];
      Ties(le, s[..|s| - 1], x) + if le(last, x) && le(x, last) then [last] else []
  }

  lemma {:induction false} InsertKeeps<T>(le: (T, T) -> bool, s: seq<T>, x: T)
    ensures multiset(Insert(le, s, x)) == multiset(s) + multiset{x}
  {
    if s != [] {
      assert s == s[..|s| - 1] + [s[|s| - 1]];
      InsertKeeps(le, s[..|s| - 1], x);
    }
  }

  lemma {:induction false} InsertOrdered<T(!new)>(le: (T, T) -> bool, s: seq<T>, x: T)
    requires TotalPreorder(le) && Ordered(le, s)
    ensures Ordered(le, Insert(le, s, x))
  {
    var n := |s| - 1;
    if s != [] && !le(s[n], x) {
      InsertOrdered(le, s[..n], x);
      InsertKeeps(le, s[..n], x);
      var r := Insert(le, s[..n], x);
      forall i | 0 <= i < |r| ensures le(r[i], s[n]) {
        assert r[i] in multiset(r);
        assert r[i] == x || r[i] in s[..n];
      }
    } else if s != [] {
      forall i | 0 <= i < |s| ensures le(s[i], x) {
        assert i < n ==> le(s[i], s[n]);
      }
    }
  }

  lemma {:induction false} InsertTies<T(!new)>(le: (T, T) -> bool, s: seq<T>, x: T, y: T)
    requires TotalPreorder(le) && Ordered(le, s)
    ensures Ties(le, Insert(le, s, x), y) == Ties(le, s + [x], y)
  {
    var n := |s| - 1;
    assert (s + [x])[..|s|] == s;
    if s != [] && !le(s[n], x) {
      var init, last := s[..n], s[n];
      InsertTies(le, init, x, y);
      assert (Insert(le, init, x) + [last])[..|s|] == Insert(le, init, x);
      assert (init + [x])[..n] == init;
    }
  }

  /** `sorted(s, key=...)`: in order, a rearrangement, and ties keep the order they had. */
  lemma {:induction false} StableSortLaws<T(!new)>(le: (T, T) -> bool, s: seq<T>)
    requires TotalPreorder(le)
    ensures Ordered(le, StableSort(le, s))
    ensures multiset(StableSort(le, s)) == multiset(s)
    ensures forall y :: Ties(le, StableSort(le, s), y) == Ties(le, s, y)
  {
    if s != [] {
      var init, last := s[..|s| - 1], s[|s| - 1];
      assert s == init + [last];
      StableSortLaws(le, init);
      InsertOrdered(le, StableSort(le, init), last);
      InsertKeeps(le, StableSort(le, init), last);
      forall y ensures Ties(le, StableSort(le, s), y) == Ties(le, s, y) {
        InsertTies(le, StableSort(le, init), last, y);
        assert (StableSort(le, init) + [last])[..|init|] == StableSort(le, init);
      }
    }
  }

  lemma SortedMembers<T(!new)>(le: (T, T) -> bool, s: seq<T>)
    requires TotalPreorder(le)
    ensures forall x :: x in StableSort(le, s) <==> x in s
  {
    StableSortLaws(le, s);
    forall x ensures x in StableSort(le, s) <==> x in s {
      assert x in multiset(StableSort(le, s)) <==> x in multiset(s);
    }
  }

  // ---- dictionaries of lists, in insertion order ----

  /** `defaultdict(list)`: its keys in the order they first came, and the list of each. */
  datatype Grouping<T> = Grouping(order: seq<string>, lists: map<string, seq<T>>)

  function NoGroups<T>(): Grouping<T> {
    Grouping([], map[])
  }

  ghost predicate GroupingOk<T>(g: Grouping<T>) {
    && (forall k :: k in g.order <==> k in g.lists)
    && (forall i, j | 0 <= i < j < |g.order| :: g.order[i] != g.order[j])
  }

  /** `g[key].extend(items)` */
  function Extend<T>(g: Grouping<T>, key: string, items: seq<T>): Grouping<T> {
    if key in g.lists then g.(lists := g.lists[key := g.lists[key] + items])
    else Grouping(g.order + [key], g.lists[key := items])
  }

  /** All lists behind one another. */
  function Concat<T>(order: seq<string>, lists: map<string, seq<T>>): seq<T> {
    if order == [] then []
    else
      var last := order[|order| - 1];
      Concat(order[..|order| - 1], lists) + if last in lists then lists[last] else []
  }

  lemma ConcatPrefix<T>(order: seq<string>, lists: map<string, seq<T>>, k: nat)
    requires k < |order| && order[k] in lists
    ensures Concat(order[..k + 1], lists) == Concat(order[..k], lists) + lists[order[k]]
  {
    assert order[..k + 1][..k] == order[..k];
  }

  lemma {:induction false} ConcatUntouched<T>(order: seq<string>, lists: map<string, seq<T>>, key: string,
                                              items: seq<T>)
    requires key !in order
    ensures Concat(order, lists[key := items]) == Concat(order, lists)
  {
    if order != [] {
      assert order[|order| - 1] in order;
      ConcatUntouched(order[..|order| - 1], lists, key, items);
    }
  }

  lemma {:induction false} ConcatGrows<T>(order: seq<string>, lists: map<string, seq<T>>, key: string, items: seq<T>)
    requires key in order && key in lists
    requires forall i, j | 0 <= i < j < |order| :: order[i] != order[j]
    ensures multiset(Concat(order, lists[key := lists[key] + items]))
         == multiset(Concat(order, lists)) + multiset(items)
  {
    var init, last := order[..|order| - 1], order[|order| - 1];
    assert order == init + [last];
    if last == key {
      ConcatUntouched(init, lists, key, lists[key] + items);
    } else {
      ConcatGrows(init, lists, key, items);
    }
  }

  lemma ExtendKeeps<T>(g: Grouping<T>, key: string, items: seq<T>)
    requires GroupingOk(g)
    ensures GroupingOk(Extend(g, key, items))
    ensures multiset(Concat(Extend(g, key, items).order, Extend(g, key, items).lists))
         == multiset(Concat(g.order, g.lists)) + multiset(items)
  {
    if key in g.lists {
      ConcatGrows(g.order, g.lists, key, items);
    } else {
      ConcatUntouched(g.order, g.lists, key, items);
      assert (g.order + [key])[..|g.order|] == g.order;
    }
  }

  lemma {:induction false} ListWithin<T>(order: seq<string>, lists: map<string, seq<T>>, key: string)
    requires key in order && key in lists
    ensures multiset(lists[key]) <= multiset(Concat(order, lists))
  {
    var init, last := order[..|order| - 1], order[|order| - 1];
    if last != key {
      assert order == init + [last];
      ListWithin(init, lists, key);
    }
  }

  lemma {:induction false} ConcatMembers<T>(order: seq<string>, lists: map<string, seq<T>>, x: T)
    ensures x in Concat(order, lists) ==> exists k :: k in order && k in lists && x in lists[k]
  {
    if order != [] {
      var init, last := order[..|order| - 1], order[|order| - 1];
      ConcatMembers(init, lists, x);
      assert last in order && forall k | k in init :: k in order;
    }
  }

  /** The lists of the first k keys, each put through f. */
  ghost predicate BuiltUpTo<T, U>(g: Grouping<T>, f: seq<T> -> seq<U>, lists: map<string, seq<U>>, k: nat)
    requires GroupingOk(g) && k <= |g.order|
  {
    && (forall key :: key in lists <==> key in g.order[..k])
    && (forall key | key in lists :: lists[key] == f(g.lists[key]))
  }

  lemma BuildsOneMore<T, U>(g: Grouping<T>, f: seq<T> -> seq<U>, lists: map<string, seq<U>>, k: nat)
    requires GroupingOk(g) && k < |g.order| && BuiltUpTo(g, f, lists, k)
    ensures g.order[k] in g.lists && BuiltUpTo(g, f, lists[g.order[k] := f(g.lists[g.order[k]])], k + 1)
  {
    assert g.order[..k + 1] == g.order[..k] + [g.order[k]];
  }

  lemma AllBuilt<T, U>(g: Grouping<T>, f: seq<T> -> seq<U>, lists: map<string, seq<U>>)
    requires GroupingOk(g) && BuiltUpTo(g, f, lists, |g.order|)
    ensures lists == map key | key in g.lists :: f(g.lists[key])
  {
    assert g.order[..|g.order|] == g.order;
  }

  /** Rearranging every list rearranges the whole. */
  lemma {:induction false} ConcatRearranged<T>(order: seq<string>, a: map<string, seq<T>>, b: map<string, seq<T>>)
    requires a.Keys == b.Keys && forall k | k in a :: multiset(a[k]) == multiset(b[k])
    ensures multiset(Concat(order, a)) == multiset(Concat(order, b))
  {
    if order != [] { ConcatRearranged(order[..|order| - 1], a, b); }
  }
}
