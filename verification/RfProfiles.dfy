/**
 Largest-remainder assignment of RF profiles to UEs
 (`assign_profiles` in srsTwin/integration/storm/rf_profiles.py), over exact reals. The
 final shuffle may be any rearrangement of the list; the order numpy finds for equal
 fractions is left open.
 */
module RfProfiles {
  import opened Collections

  const DEFAULT_PROFILE := "ideal"

  function SumReal(s: seq<real>): real {
    if s == [] then 0.0 else SumReal(s[..|s| - 1]) + s[|s| - 1]
  }

  function SumInt(s: seq<int>): int {
    if s == [] then 0 else SumInt(s[..|s| - 1]) + s[|s| - 1]
  }

  /** Weights as a mix may give them: none negative, not all zero. */
  predicate MixOk(weights: seq<real>) {
    SumReal(weights) > 0.0 && forall i | 0 <= i < |weights| :: weights[i] >= 0.0
  }

  function Times(a: real, b: real): real {
    a * b
  }

  function Scaled(s: seq<real>, c: real): (r: seq<real>)
    ensures |r| == |s|
  {
    Mapped((x: real) => Times(x, c), s)
  }

  /** `weights / weights.sum() * n` */
  function Raw(weights: seq<real>, n: nat): (r: seq<real>)
    requires MixOk(weights)
    ensures |r| == |weights|
  {
    Scaled(Scaled(weights, 1.0 / SumReal(weights)), n as real)
  }

  function Floors(raw: seq<real>): (r: seq<int>)
    ensures |r| == |raw|
  {
    Mapped((x: real) => x.Floor, raw)
  }

  function Fraction(x: real): (f: real)
    ensures 0.0 <= f < 1.0
  {
    x - x.Floor as real
  }

  function Fractions(raw: seq<real>): (r: seq<real>)
    ensures |r| == |raw|
  {
    Mapped(Fraction, raw)
  }

  lemma {:induction false} SumScaled(s: seq<real>, c: real)
    ensures SumReal(Scaled(s, c)) == SumReal(s) * c
  {
    if s != [] {
      SumScaled(s[..|s| - 1], c);
      assert Scaled(s, c)[..|s| - 1] == Scaled(s[..|s| - 1], c);
    }
  }

  lemma RawSumsToN(weights: seq<real>, n: nat)
    requires MixOk(weights)
    ensures SumReal(Raw(weights, n)) == n as real
  {
    var total := SumReal(weights);
    SumScaled(weights, 1.0 / total);
    SumScaled(Scaled(weights, 1.0 / total), n as real);
    assert total * (1.0 / total) == 1.0;
  }

  lemma {:induction false} FractionsAreLeftover(raw: seq<real>)
    ensures SumReal(Fractions(raw)) == SumReal(raw) - SumInt(Floors(raw)) as real
  {
    if raw != [] {
      var init := raw[..|raw| - 1];
      var last := raw[|raw| - 1];
      FractionsAreLeftover(init);
      assert Fractions(raw)[..|init|] == Fractions(init) && Fractions(raw)[|init|] == Fraction(last);
      assert Floors(raw)[..|init|] == Floors(init) && Floors(raw)[|init|] == last.Floor;
    }
  }

  // ---- sums over rearrangements ----

  lemma {:induction false} SumConcat(a: seq<real>, b: seq<real>)
    ensures SumReal(a + b) == SumReal(a) + SumReal(b)
  {
    if b == [] {
      assert a + b == a;
    } else {
      assert (a + b)[..|a + b| - 1] == a + b[..|b| - 1];
      SumConcat(a, b[..|b| - 1]);
    }
  }

  lemma SumWithout(s: seq<real>, j: nat)
    requires j < |s|
    ensures SumReal(s) == SumReal(s[..j] + s[j + 1..]) + s[j]
  {
    Around(s, j);
    SumConcat(s[..j], s[j + 1..]);
    SumConcat(s[..j] + [s[j]], s[j + 1..]);
    assert (s[..j] + [s[j]])[..j] == s[..j];
  }

  lemma {:induction false} SumRearranged(a: seq<real>, b: seq<real>)
    requires multiset(a) == multiset(b)
    ensures SumReal(a) == SumReal(b)
    decreases |a|
  {
    assert |a| == |multiset(a)| == |multiset(b)| == |b|;
    if a != [] {
      var last := a[|a| - 1];
      Snoc(a);
      assert last in multiset(b);
      var j :| 0 <= j < |b| && b[j] == last;
      Around(b, j);
      SumWithout(b, j);
      SumRearranged(a[..|a| - 1], b[..j] + b[j + 1..]);
    }
  }

  // ---- handing out the leftover ----

  function Indices(n: nat): seq<nat> {
    seq(n, i requires 0 <= i < n => i)
  }

  function At(s: seq<real>, i: nat): real {
    if i < |s| then s[i] else 0.0
  }

  function Picked(s: seq<real>, order: seq<nat>): (r: seq<real>)
    ensures |r| == |order|
  {
    Mapped((i: nat) => At(s, i), order)
  }

  /** What `argsort(-(raw - counts))` returns: every index once, larger fractions first. */
  ghost predicate LargestFirst(fractions: seq<real>, order: seq<nat>) {
    && |order| == |fractions| && multiset(order) == multiset(Indices(|fractions|))
    && forall i, j | 0 <= i < j < |order| :: At(fractions, order[i]) >= At(fractions, order[j])
  }

  lemma OrderIsBijective(n: nat, order: seq<nat>)
    requires |order| == n && multiset(order) == multiset(Indices(n))
    ensures forall j | 0 <= j < n :: order[j] < n
    ensures forall i, j | 0 <= i < j < n :: order[i] != order[j]
    ensures forall i | 0 <= i < n :: i in order
  {
    forall j | 0 <= j < n ensures order[j] < n {
      assert order[j] in multiset(order);
      assert order[j] in Indices(n);
    }
    forall i, j | 0 <= i < j < n ensures order[i] != order[j] {
      if order[i] == order[j] {
        Around(order, j);
        assert order[i] in order[..j];
        assert multiset(order)[order[i]] >= 2;
        IndicesOnce(n, order[i]);
      }
    }
    forall i | 0 <= i < n ensures i in order {
      assert Indices(n)[i] == i;
      assert i in multiset(Indices(n));
    }
  }

  lemma {:induction false} IndicesOnce(n: nat, i: nat)
    ensures multiset(Indices(n))[i] <= 1
  {
    if n > 0 {
      IndicesOnce(n - 1, i);
      Snoc(Indices(n));
      assert Indices(n)[..n - 1] == Indices(n - 1);
      assert n - 1 !in Indices(n - 1);
    }
  }

  lemma PickedSum(fractions: seq<real>, order: seq<nat>)
    requires LargestFirst(fractions, order)
    ensures SumReal(Picked(fractions, order)) == SumReal(fractions)
  {
    var f := (i: nat) => At(fractions, i);
    MappedKeeps(f, order, Indices(|fractions|));
    assert Mapped(f, Indices(|fractions|)) == fractions;
    SumRearranged(Picked(fractions, order), fractions);
  }

  lemma {:induction false} SumBelowLength(s: seq<real>)
    requires forall i | 0 <= i < |s| :: 0.0 <= s[i] < 1.0
    ensures 0.0 <= SumReal(s) <= |s| as real
    ensures s != [] ==> SumReal(s) < |s| as real
    ensures (forall i | 0 <= i < |s| :: s[i] == 0.0) ==> SumReal(s) == 0.0
  {
    if s != [] { SumBelowLength(s[..|s| - 1]); }
  }

  /** `n - counts.sum()` */
  function Leftover(raw: seq<real>, n: nat): int {
    n - SumInt(Floors(raw))
  }

  lemma LeftoverIsFractions(weights: seq<real>, n: nat)
    requires MixOk(weights)
    ensures Leftover(Raw(weights, n), n) as real == SumReal(Fractions(Raw(weights, n)))
  {
    RawSumsToN(weights, n);
    FractionsAreLeftover(Raw(weights, n));
  }

  lemma FractionsInRange(raw: seq<real>)
    ensures forall i | 0 <= i < |raw| :: Fractions(raw)[i] == Fraction(raw[i])
    ensures 0.0 <= SumReal(Fractions(raw)) && (raw != [] ==> SumReal(Fractions(raw)) < |raw| as real)
  {
    assert forall i | 0 <= i < |raw| :: Fractions(raw)[i] == Fraction(raw[i]);
    SumBelowLength(Fractions(raw));
  }

  /** The leftover is smaller than the number of profiles: the modulo never wraps, nobody is rounded up twice. */
  lemma LeftoverFits(weights: seq<real>, n: nat)
    requires MixOk(weights)
    ensures 0 <= Leftover(Raw(weights, n), n) < |weights|
  {
    LeftoverIsFractions(weights, n);
    FractionsInRange(Raw(weights, n));
    assert weights != [];
  }

  /** The counts once the first k of the order have been rounded up. */
  function Counts(floors: seq<int>, order: seq<nat>, k: nat): (r: seq<int>)
    requires k <= |order|
    ensures |r| == |floors|
  {
    seq(|floors|, i requires 0 <= i < |floors| => floors[i] + if i in order[..k] then 1 else 0)
  }

  lemma {:induction false} SumUpdate(s: seq<int>, i: nat, x: int)
    requires i < |s|
    ensures SumInt(s[i := x]) == SumInt(s) - s[i] + x
  {
    var last := |s| - 1;
    if i < last {
      SumUpdate(s[..last], i, x);
      assert s[i := x][..last] == s[..last][i := x];
    } else {
      assert s[i := x][..last] == s[..last];
    }
  }

  lemma RoundUpOneMore(floors: seq<int>, order: seq<nat>, k: nat)
    requires |order| == |floors| && multiset(order) == multiset(Indices(|floors|)) && k < |order|
    ensures order[k] < |floors|
    ensures Counts(floors, order, k)[order[k]] == floors[order[k]]
    ensures Counts(floors, order, k + 1) == Counts(floors, order, k)[order[k] := floors[order[k]] + 1]
  {
    OrderIsBijective(|floors|, order);
    assert order[..k + 1] == order[..k] + [order[k]];
    assert order[k] !in order[..k];
    var before, after := Counts(floors, order, k)[order[k] := floors[order[k]] + 1], Counts(floors, order, k + 1);
    assert forall i | 0 <= i < |floors| :: after[i] == before[i];
  }

  lemma {:induction false} CountsSum(floors: seq<int>, order: seq<nat>, k: nat)
    requires |order| == |floors| && multiset(order) == multiset(Indices(|floors|)) && k <= |order|
    ensures SumInt(Counts(floors, order, k)) == SumInt(floors) + k
  {
    if k == 0 {
      assert Counts(floors, order, 0) == floors;
    } else {
      CountsSum(floors, order, k - 1);
      RoundUpOneMore(floors, order, k - 1);
      SumUpdate(Counts(floors, order, k - 1), order[k - 1], floors[order[k - 1]] + 1);
    }
  }

  lemma SumOfTail(s: seq<real>, j: nat)
    requires j < |s| && forall i | 0 <= i < |s| :: 0.0 <= s[i] < 1.0
    requires forall i | j <= i < |s| :: s[i] == 0.0
    ensures SumReal(s) <= j as real
  {
    assert s == s[..j] + s[j..];
    SumConcat(s[..j], s[j..]);
    SumBelowLength(s[..j]);
    SumBelowLength(s[j..]);
  }

  /** Whoever is rounded up had something to round. */
  lemma RoundedHadFraction(fractions: seq<real>, order: seq<nat>, k: nat, j: nat)
    requires LargestFirst(fractions, order) && forall i | 0 <= i < |fractions| :: 0.0 <= fractions[i] < 1.0
    requires SumReal(fractions) == k as real && j < k <= |order|
    ensures At(fractions, order[j]) > 0.0
  {
    PickedSum(fractions, order);
    OrderIsBijective(|fractions|, order);
    var picked := Picked(fractions, order);
    if At(fractions, order[j]) == 0.0 {
      forall i | j <= i < |picked| ensures picked[i] == 0.0 {
        assert i > j ==> At(fractions, order[j]) >= At(fractions, order[i]);
      }
      SumOfTail(picked, j);
    }
  }

  /** A profile was rounded up exactly when it is among the first k of the order. */
  lemma UnroundedComesLater(fractions: seq<real>, order: seq<nat>, k: nat, i: nat, j: nat)
    requires LargestFirst(fractions, order) && k <= |order| && i < |fractions| && j < |fractions|
    requires i !in order[..k] && j in order[..k]
    ensures fractions[i] <= fractions[j]
  {
    OrderIsBijective(|fractions|, order);
    assert i in order;
    var p :| 0 <= p < |order| && order[p] == i;
    var q :| 0 <= q < k && order[q] == j;
    assert p >= k;
    assert At(fractions, order[q]) >= At(fractions, order[p]);
  }

  /**
   The quota: the counts add up to n, each is off its exact share by less than one, an
   exact share is met exactly, and nobody left at its floor had a larger fraction than one
   rounded up.
   */
  ghost predicate Fair(raw: seq<real>, counts: seq<int>, n: nat) {
    && |counts| == |raw| && SumInt(counts) == n
    && (forall i | 0 <= i < |raw| :: -1.0 < counts[i] as real - raw[i] < 1.0)
    && (forall i, j | 0 <= i < |raw| && 0 <= j < |raw| && counts[i] == raw[i].Floor && counts[j] == raw[j].Floor + 1
          :: Fraction(raw[i]) <= Fraction(raw[j]))
  }

  lemma QuotaIsFair(weights: seq<real>, n: nat, order: seq<nat>, k: nat)
    requires MixOk(weights) && k == Leftover(Raw(weights, n), n)
    requires LargestFirst(Fractions(Raw(weights, n)), order)
    ensures k <= |order| && Fair(Raw(weights, n), Counts(Floors(Raw(weights, n)), order, k), n)
  {
    var raw := Raw(weights, n);
    var fractions, floors := Fractions(raw), Floors(raw);
    LeftoverFits(weights, n);
    LeftoverIsFractions(weights, n);
    FractionsInRange(raw);
    CountsSum(floors, order, k);
    var counts := Counts(floors, order, k);
    forall i | 0 <= i < |raw| ensures -1.0 < counts[i] as real - raw[i] < 1.0 {
      if i in order[..k] {
        var j :| 0 <= j < k && order[j] == i;
        RoundedHadFraction(fractions, order, k, j);
      }
    }
    forall i, j | 0 <= i < |raw| && 0 <= j < |raw| && counts[i] == raw[i].Floor && counts[j] == raw[j].Floor + 1
      ensures Fraction(raw[i]) <= Fraction(raw[j])
    {
      UnroundedComesLater(fractions, order, k, i, j);
    }
  }

  // ---- the program ----

  function Repeat(name: string, c: int): (r: seq<string>)
    ensures |r| == Max(c, 0)
  {
    seq(Max(c, 0), _ => name)
  }

  /** `counts[order[i % len(order)]] += 1` for the leftover. */
  method HandOut(counts: array<int>, order: seq<nat>, remainder: nat)
    requires |order| == counts.Length && multiset(order) == multiset(Indices(|order|)) && remainder <= |order|
    modifies counts
    ensures counts[..] == Counts(old(counts[..]), order, remainder)
  {
    ghost var floors := counts[..];
    assert Counts(floors, order, 0) == floors;
    for i := 0 to remainder
      invariant counts[..] == Counts(floors, order, i)
    {
      assert i % |order| == i;
      RoundUpOneMore(floors, order, i);
      assert counts[order[i]] == counts[..][order[i]];
      counts[order[i % |order|]] := counts[order[i % |order|]] + 1;
    }
  }

  /** The numbers of UEs per profile. */
  method Quota(n: nat, weights: seq<real>, order: seq<nat>) returns (quota: seq<int>)
    requires MixOk(weights) && LargestFirst(Fractions(Raw(weights, n)), order)
    ensures Fair(Raw(weights, n), quota, n)
    ensures forall i | 0 <= i < |quota| :: quota[i] >= 0
  {
    var raw := Raw(weights, n);
    var counts := new int[|raw|](i requires 0 <= i < |raw| => raw[i].Floor);
    assert counts[..] == Floors(raw);
    var remainder := n - SumInt(counts[..]);
    LeftoverFits(weights, n);
    HandOut(counts, order, remainder);
    QuotaIsFair(weights, n, order, remainder);
    CountsNotNegative(weights, n, order, remainder);
    quota := counts[..];
  }

  /** The list in which each name is repeated as often as its count says. */
  function Assigned(names: seq<string>, counts: seq<int>): (r: seq<string>)
    requires |names| == |counts|
  {
    if names == [] then []
    else Assigned(names[..|names| - 1], counts[..|names| - 1]) + Repeat(names[|names| - 1], counts[|names| - 1])
  }

  lemma {:induction false} AssignedLength(names: seq<string>, counts: seq<int>)
    requires |names| == |counts| && forall i | 0 <= i < |counts| :: counts[i] >= 0
    ensures |Assigned(names, counts)| == SumInt(counts)
  {
    if names != [] { AssignedLength(names[..|names| - 1], counts[..|names| - 1]); }
  }

  lemma {:induction false} AssignedCounts(names: seq<string>, counts: seq<int>, i: nat)
    requires |names| == |counts| && i < |names| && forall i | 0 <= i < |counts| :: counts[i] >= 0
    requires forall i, j | 0 <= i < j < |names| :: names[i] != names[j]
    ensures multiset(Assigned(names, counts))[names[i]] == counts[i]
  {
    var last := |names| - 1;
    RepeatCounts(names[last], counts[last], names[i]);
    if i < last {
      AssignedCounts(names[..last], counts[..last], i);
    } else {
      OnlyTheirNames(names[..last], counts[..last], names[last]);
    }
  }

  lemma {:induction false} RepeatCounts(name: string, c: int, other: string)
    requires c >= 0
    ensures multiset(Repeat(name, c))[other] == if other == name then c else 0
    decreases c
  {
    if c > 0 {
      RepeatCounts(name, c - 1, other);
      assert Repeat(name, c) == Repeat(name, c - 1) + [name];
    }
  }

  lemma {:induction false} OnlyTheirNames(names: seq<string>, counts: seq<int>, name: string)
    requires |names| == |counts| && name !in names && forall i | 0 <= i < |counts| :: counts[i] >= 0
    ensures multiset(Assigned(names, counts))[name] == 0
  {
    if names != [] {
      var last := |names| - 1;
      assert names[last] in names;
      RepeatCounts(names[last], counts[last], name);
      OnlyTheirNames(names[..last], counts[..last], name);
    }
  }

  function TextAt(s: seq<string>, i: nat): string {
    if i < |s| then s[i] else ""
  }

  /** What `rng.shuffle` leaves in a list: at each place the text that stood at the drawn one. */
  function Shuffled(s: seq<string>, places: seq<nat>): (r: seq<string>)
    ensures |r| == |places|
  {
    Mapped((i: nat) => TextAt(s, i), places)
  }

  /** A shuffle loses nothing and repeats nothing. */
  lemma ShuffleKeeps(s: seq<string>, places: seq<nat>)
    requires multiset(places) == multiset(Indices(|s|))
    ensures multiset(Shuffled(s, places)) == multiset(s)
  {
    MappedKeeps((i: nat) => TextAt(s, i), places, Indices(|s|));
    assert Mapped((i: nat) => TextAt(s, i), Indices(|s|)) == s;
  }

  /**
   `assign_profiles`; `order` is what argsort returns and `places` what the shuffle draws.
   Without a mix everyone gets the default.
   */
  method AssignProfiles(n: nat, names: seq<string>, weights: seq<real>, order: seq<nat>, places: seq<nat>)
    returns (out: seq<string>)
    requires |names| == |weights| && forall i, j | 0 <= i < j < |names| :: names[i] != names[j]
    requires names != [] ==> MixOk(weights) && LargestFirst(Fractions(Raw(weights, n)), order)
    requires multiset(places) == multiset(Indices(n))
    ensures |out| == n
    ensures names == [] ==> out == Repeat(DEFAULT_PROFILE, n)
    ensures names != [] ==> Fair(Raw(weights, n), Occurrences(names, out), n)
    ensures names != [] ==>
      Shuffled(Assigned(names, Occurrences(names, out)), places) == out
  {
    if |names| == 0 {
      return Repeat(DEFAULT_PROFILE, n);
    }
    var counts := Quota(n, weights, order);
    out := [];
    for i := 0 to |names|
      invariant out == Assigned(names[..i], counts[..i])
    {
      assert names[..i + 1][..i] == names[..i] && counts[..i + 1][..i] == counts[..i];
      out := out + Repeat(names[i], counts[i]);
    }
    assert names[..|names|] == names && counts[..|names|] == counts;
    AssignedLength(names, counts);
    forall i | 0 <= i < |names| ensures multiset(out)[names[i]] == counts[i] {
      AssignedCounts(names, counts, i);
    }
    assert counts == Occurrences(names, out);
    ShuffleKeeps(out, places);
    assert |multiset(places)| == |multiset(Indices(n))|;
    assert Occurrences(names, Shuffled(out, places)) == Occurrences(names, out);
    out := Shuffled(out, places);
  }

  /** How often each name occurs in a list. */
  function Occurrences(names: seq<string>, out: seq<string>): (r: seq<int>)
    ensures |r| == |names|
  {
    seq(|names|, i requires 0 <= i < |names| => multiset(out)[names[i]])
  }

  lemma CountsNotNegative(weights: seq<real>, n: nat, order: seq<nat>, k: nat)
    requires MixOk(weights) && k <= |order|
    ensures forall i | 0 <= i < |weights| :: Counts(Floors(Raw(weights, n)), order, k)[i] >= 0
  {
    var raw := Raw(weights, n);
    forall i | 0 <= i < |weights| ensures raw[i] >= 0.0 {
      var w := Scaled(weights, 1.0 / SumReal(weights))[i];
      assert w == Times(weights[i], 1.0 / SumReal(weights)) >= 0.0;
      assert raw[i] == Times(w, n as real);
    }
  }
}
