/** Cutting a sequence into consecutive slices. */
module Slices {
  import opened Collections

  function Flat<T>(groups: seq<seq<T>>): seq<T> {
    if groups == [] then [] else Flat(groups[..|groups| - 1]) + groups[|groups| - 1]
  }

  /** A new slice begins at the first position and wherever `cut` says so. */
  function Chop<T>(s: seq<T>, cut: nat -> bool): (r: seq<seq<T>>)
    ensures r == [] <==> s == []
  {
    if s == [] then []
    else
      var last := |s| - 1;
      var before := Chop(s[..last], cut);
      if last == 0 || cut(last) then before + [[s[last]]]
      else before[|before| - 1 := before[|before| - 1] + [s[last]]]
  }

  lemma ChopOne<T>(x: T, cut: nat -> bool)
    ensures Chop([x], cut) == [[x]]
  {
    assert [x][..0] == [];
  }

  lemma ChopStep<T>(s: seq<T>, cut: nat -> bool, k: nat, groups: seq<seq<T>>, current: seq<T>)
    requires 0 < k < |s| && Chop(s[..k], cut) == groups + [current]
    ensures cut(k) ==> Chop(s[..k + 1], cut) == groups + [current] + [[s[k]]]
    ensures !cut(k) ==> Chop(s[..k + 1], cut) == groups + [current + [s[k]]]
  {
    assert s[..k + 1][..k] == s[..k];
    assert (groups + [current])[|groups| := current + [s[k]]] == groups + [current + [s[k]]];
  }

  lemma FlatSnoc<T>(groups: seq<seq<T>>, g: seq<T>)
    ensures Flat(groups + [g]) == Flat(groups) + g
  {
    assert (groups + [g])[..|groups|] == groups;
  }

  lemma FlatGrowLast<T>(groups: seq<seq<T>>, x: T)
    requires groups != []
    ensures Flat(groups[|groups| - 1 := groups[|groups| - 1] + [x]]) == Flat(groups) + [x]
  {
    var last := |groups| - 1;
    assert groups[last := groups[last] + [x]][..last] == groups[..last];
  }

  /** The slices are the sequence cut up: nothing lost, moved or repeated. */
  lemma {:induction false} ChopCovers<T>(s: seq<T>, cut: nat -> bool)
    ensures Flat(Chop(s, cut)) == s
  {
    if s != [] {
      var last := |s| - 1;
      var before := Chop(s[..last], cut);
      ChopCovers(s[..last], cut);
      FlatSnoc(before, [s[last]]);
      if before != [] { FlatGrowLast(before, s[last]); }
      assert Flat(Chop(s, cut)) == s[..last] + [s[last]];
      Snoc(s);
    }
  }

  lemma {:induction false} NoEmptySlice<T>(s: seq<T>, cut: nat -> bool)
    ensures forall g | 0 <= g < |Chop(s, cut)| :: Chop(s, cut)[g] != []
  {
    if s != [] { NoEmptySlice(s[..|s| - 1], cut); }
  }

  /** Where slice g starts in the whole. */
  function Offset<T>(groups: seq<seq<T>>, g: nat): nat
    requires g <= |groups|
  {
    |Flat(groups[..g])|
  }

  /** Position k of the whole is the start of a slice. */
  ghost predicate StartsSlice<T>(groups: seq<seq<T>>, k: nat) {
    exists g :: 0 <= g < |groups| && Offset(groups, g) == k
  }

  lemma {:induction false} OffsetsFit<T>(groups: seq<seq<T>>, g: nat)
    requires g < |groups|
    ensures Offset(groups, g) + |groups[g]| <= |Flat(groups)|
    decreases |groups| - g
  {
    assert groups[..g + 1][..g] == groups[..g];
    if g + 1 == |groups| {
      assert groups[..g + 1] == groups;
    } else {
      OffsetsFit(groups, g + 1);
    }
  }

  lemma ChopKeepsOffsets<T>(s: seq<T>, cut: nat -> bool, g: nat)
    requires s != [] && g < |Chop(s[..|s| - 1], cut)|
    ensures |Chop(s[..|s| - 1], cut)| <= |Chop(s, cut)|
    ensures Offset(Chop(s, cut), g) == Offset(Chop(s[..|s| - 1], cut), g)
    ensures Offset(Chop(s, cut), g) < |s| - 1
  {
    var before := Chop(s[..|s| - 1], cut);
    ChopCovers(s[..|s| - 1], cut);
    NoEmptySlice(s[..|s| - 1], cut);
    OffsetsFit(before, g);
    assert Chop(s, cut)[..g] == before[..g];
  }

  lemma LastSliceAt<T>(s: seq<T>, cut: nat -> bool)
    requires s != [] && (|s| == 1 || cut(|s| - 1))
    ensures |Chop(s, cut)| == |Chop(s[..|s| - 1], cut)| + 1
    ensures Offset(Chop(s, cut), |Chop(s, cut)| - 1) == |s| - 1
  {
    var before := Chop(s[..|s| - 1], cut);
    assert Chop(s, cut)[..|before|] == before;
    ChopCovers(s[..|s| - 1], cut);
  }

  /** A slice starts exactly at the beginning and at every cut. */
  lemma {:induction false} SlicesStartAtCuts<T>(s: seq<T>, cut: nat -> bool, k: nat)
    requires k < |s|
    ensures StartsSlice(Chop(s, cut), k) <==> k == 0 || cut(k)
  {
    var last := |s| - 1;
    var before, after := Chop(s[..last], cut), Chop(s, cut);
    forall g | 0 <= g < |before| ensures Offset(after, g) == Offset(before, g) < last {
      ChopKeepsOffsets(s, cut, g);
    }
    if last == 0 || cut(last) {
      LastSliceAt(s, cut);
    }
    if k < last {
      SlicesStartAtCuts(s[..last], cut, k);
      if StartsSlice(before, k) {
        var g :| 0 <= g < |before| && Offset(before, g) == k;
        assert Offset(after, g) == k;
      }
    }
  }
}
