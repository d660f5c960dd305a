/**
 Identity hints of trace records and the key a session gets from them
 (srsTwin/integration/trace_stitch/identity.py). What extract_identity reads out of one
 record is given.
 */
module Identity {
  import opened Collections

  datatype UeIdentity = UeIdentity(
    ueKey: string, keyType: string, randomValue: Option<string>, imsi: Option<string>,
    mTmsi: Option<int>, mmec: Option<int>, enbUeS1apId: Option<int>, mmeUeS1apId: Option<int>,
    servingPlmn: Option<string>, enbId: Option<string>, cellId: Option<int>, aliases: set<string>)

  const UNALLOCATED_TMSI := 1048575
  const Anonymous :=
    UeIdentity("unknown:anonymous", "unknown", None, None, None, None, None, None, None, None, None, {})

  /** A text that counts as present: an empty one does not. */
  predicate Given(o: Option<string>) {
    o.Some? && o.value != ""
  }

  function FirstText(a: Option<string>, b: Option<string>): Option<string> {
    if !Given(a) && Given(b) then b else a
  }

  function FirstNumber(a: Option<int>, b: Option<int>): Option<int> {
    if a.None? && b.Some? then b else a
  }

  /** `UeIdentity.merge` */
  function Merged(a: UeIdentity, b: UeIdentity): UeIdentity {
    UeIdentity(a.ueKey, a.keyType, FirstText(a.randomValue, b.randomValue), FirstText(a.imsi, b.imsi),
      FirstNumber(a.mTmsi, b.mTmsi), FirstNumber(a.mmec, b.mmec),
      FirstNumber(a.enbUeS1apId, b.enbUeS1apId), FirstNumber(a.mmeUeS1apId, b.mmeUeS1apId),
      FirstText(a.servingPlmn, b.servingPlmn), FirstText(a.enbId, b.enbId),
      FirstNumber(a.cellId, b.cellId), a.aliases + b.aliases)
  }

  function MergedAll(idents: seq<UeIdentity>): UeIdentity {
    if idents == [] then Anonymous else Merged(MergedAll(idents[..|idents| - 1]), idents[|idents| - 1])
  }

  /** The key of the strongest hint there is. */
  function WithKey(m: UeIdentity): UeIdentity {
    if Given(m.imsi) then m.(ueKey := "imsi:" + m.imsi.value, keyType := "imsi")
    else if Given(m.randomValue) then m.(ueKey := "random:" + m.randomValue.value, keyType := "random")
    else if m.mTmsi.Some? && m.mTmsi.value != UNALLOCATED_TMSI then
      m.(ueKey := "mtmsi:" + Show(m.mTmsi.value), keyType := "mtmsi")
    else if m.enbUeS1apId.Some? then m.(ueKey := "enb:" + Show(m.enbUeS1apId.value), keyType := "enb")
    else m
  }

  function Canonical(idents: seq<UeIdentity>): UeIdentity {
    WithKey(MergedAll(idents))
  }

  /** `pick_canonical_key` */
  method PickCanonicalKey(idents: seq<UeIdentity>) returns (r: UeIdentity)
    ensures r == Canonical(idents)
  {
    r := Anonymous;
    for k := 0 to |idents|
      invariant r == MergedAll(idents[..k])
    {
      assert idents[..k + 1][..k] == idents[..k];
      r := Merged(r, idents[k]);
    }
    assert idents[..|idents|] == idents;
    r := WithKey(r);
  }

  /** The first text in a list that counts as present. */
  ghost predicate IsFirstGiven(texts: seq<Option<string>>, r: Option<string>) {
    if r.Some? then exists i ::
      0 <= i < |texts| && texts[i] == r && Given(r) && forall j | 0 <= j < i :: !Given(texts[j])
    else forall j | 0 <= j < |texts| :: !Given(texts[j])
  }

  lemma FirstGivenGrows(texts: seq<Option<string>>, r: Option<string>, next: Option<string>)
    requires IsFirstGiven(texts, r)
    ensures IsFirstGiven(texts + [next], FirstText(r, next))
  {
    var all := texts + [next];
    if r.Some? {
      var i :| 0 <= i < |texts| && texts[i] == r && Given(r) && forall j | 0 <= j < i :: !Given(texts[j]);
      assert all[i] == r;
    } else if Given(next) {
      assert all[|texts|] == next;
    }
  }

  /** The first number in a list that is there at all. */
  ghost predicate IsFirstNumber(numbers: seq<Option<int>>, r: Option<int>) {
    if r.Some? then exists i ::
      0 <= i < |numbers| && numbers[i] == r && forall j | 0 <= j < i :: numbers[j].None?
    else forall j | 0 <= j < |numbers| :: numbers[j].None?
  }

  lemma FirstNumberGrows(numbers: seq<Option<int>>, r: Option<int>, next: Option<int>)
    requires IsFirstNumber(numbers, r)
    ensures IsFirstNumber(numbers + [next], FirstNumber(r, next))
  {
    var all := numbers + [next];
    if r.Some? {
      var i :| 0 <= i < |numbers| && numbers[i] == r && forall j | 0 <= j < i :: numbers[j].None?;
      assert all[i] == r;
    } else if next.Some? {
      assert all[|numbers|] == next;
    }
  }

  /** A text field that is merged like any other. */
  ghost predicate MergesText(show: UeIdentity -> Option<string>) {
    show(Anonymous).None? && forall a, b {:trigger Merged(a, b)} :: show(Merged(a, b)) == FirstText(show(a), show(b))
  }

  lemma TextStep(show: UeIdentity -> Option<string>, idents: seq<UeIdentity>)
    requires MergesText(show) && idents != []
    ensures var init, last := idents[..|idents| - 1], idents[|idents| - 1];
      && show(MergedAll(idents)) == FirstText(show(MergedAll(init)), show(last))
      && Mapped(show, idents) == Mapped(show, init) + [show(last)]
  {
  }

  lemma {:induction false} TextTakesFirst(show: UeIdentity -> Option<string>, idents: seq<UeIdentity>)
    requires MergesText(show)
    ensures IsFirstGiven(Mapped(show, idents), show(MergedAll(idents)))
  {
    if idents != [] {
      var init, last := idents[..|idents| - 1], idents[|idents| - 1];
      TextTakesFirst(show, init);
      TextStep(show, idents);
      FirstGivenGrows(Mapped(show, init), show(MergedAll(init)), show(last));
    }
  }

  ghost predicate MergesNumber(show: UeIdentity -> Option<int>) {
    show(Anonymous).None? && forall a, b {:trigger Merged(a, b)} :: show(Merged(a, b)) == FirstNumber(show(a), show(b))
  }

  lemma NumberStep(show: UeIdentity -> Option<int>, idents: seq<UeIdentity>)
    requires MergesNumber(show) && idents != []
    ensures var init, last := idents[..|idents| - 1], idents[|idents| - 1];
      && show(MergedAll(idents)) == FirstNumber(show(MergedAll(init)), show(last))
      && Mapped(show, idents) == Mapped(show, init) + [show(last)]
  {
  }

  lemma {:induction false} NumberTakesFirst(show: UeIdentity -> Option<int>, idents: seq<UeIdentity>)
    requires MergesNumber(show)
    ensures IsFirstNumber(Mapped(show, idents), show(MergedAll(idents)))
  {
    if idents != [] {
      var init, last := idents[..|idents| - 1], idents[|idents| - 1];
      NumberTakesFirst(show, init);
      NumberStep(show, idents);
      FirstNumberGrows(Mapped(show, init), show(MergedAll(init)), show(last));
    }
  }

  /** A session's texts are the first ones any of its records shows, the empty text not counting. */
  lemma CanonicalTakesFirst(idents: seq<UeIdentity>)
    ensures var c := Canonical(idents);
      && IsFirstGiven(Mapped((w: UeIdentity) => w.imsi, idents), c.imsi)
      && IsFirstGiven(Mapped((w: UeIdentity) => w.randomValue, idents), c.randomValue)
      && IsFirstGiven(Mapped((w: UeIdentity) => w.servingPlmn, idents), c.servingPlmn)
      && IsFirstGiven(Mapped((w: UeIdentity) => w.enbId, idents), c.enbId)
  {
    TextTakesFirst((w: UeIdentity) => w.imsi, idents);
    TextTakesFirst((w: UeIdentity) => w.randomValue, idents);
    TextTakesFirst((w: UeIdentity) => w.servingPlmn, idents);
    TextTakesFirst((w: UeIdentity) => w.enbId, idents);
  }

  /** So are its numbers, zero counting like any other. */
  lemma CanonicalTakesFirstNumbers(idents: seq<UeIdentity>)
    ensures var c := Canonical(idents);
      && IsFirstNumber(Mapped((w: UeIdentity) => w.mTmsi, idents), c.mTmsi)
      && IsFirstNumber(Mapped((w: UeIdentity) => w.mmec, idents), c.mmec)
      && IsFirstNumber(Mapped((w: UeIdentity) => w.enbUeS1apId, idents), c.enbUeS1apId)
      && IsFirstNumber(Mapped((w: UeIdentity) => w.mmeUeS1apId, idents), c.mmeUeS1apId)
      && IsFirstNumber(Mapped((w: UeIdentity) => w.cellId, idents), c.cellId)
  {
    NumberTakesFirst((w: UeIdentity) => w.mTmsi, idents);
    NumberTakesFirst((w: UeIdentity) => w.mmec, idents);
    NumberTakesFirst((w: UeIdentity) => w.enbUeS1apId, idents);
    NumberTakesFirst((w: UeIdentity) => w.mmeUeS1apId, idents);
    NumberTakesFirst((w: UeIdentity) => w.cellId, idents);
  }

  lemma AliasStep(idents: seq<UeIdentity>)
    requires idents != []
    ensures MergedAll(idents).aliases
         == MergedAll(idents[..|idents| - 1]).aliases + idents[|idents| - 1].aliases
  {
  }

  lemma {:induction false} AliasesMerge(idents: seq<UeIdentity>, i: nat)
    requires i < |idents|
    ensures idents[i].aliases <= MergedAll(idents).aliases
    decreases |idents|
  {
    AliasStep(idents);
    if i < |idents| - 1 {
      assert idents[..|idents| - 1][i] == idents[i];
      AliasesMerge(idents[..|idents| - 1], i);
    }
  }

  lemma {:induction false} AliasesCome(idents: seq<UeIdentity>, alias: string) returns (i: nat)
    requires alias in MergedAll(idents).aliases
    ensures i < |idents| && alias in idents[i].aliases
    decreases |idents|
  {
    AliasStep(idents);
    if alias in idents[|idents| - 1].aliases {
      i := |idents| - 1;
    } else {
      i := AliasesCome(idents[..|idents| - 1], alias);
    }
  }

  /** Its aliases are those of all of its records. */
  lemma AliasesAreAll(idents: seq<UeIdentity>, alias: string)
    ensures alias in Canonical(idents).aliases <==> exists i :: 0 <= i < |idents| && alias in idents[i].aliases
  {
    if alias in MergedAll(idents).aliases {
      var i := AliasesCome(idents, alias);
    }
    if i :| 0 <= i < |idents| && alias in idents[i].aliases {
      AliasesMerge(idents, i);
    }
  }

  // ---- what a key tells ----

  lemma SamePrefix(p: string, a: string, b: string)
    requires p + a == p + b
    ensures a == b
  {
    assert (p + a)[|p|..] == a && (p + b)[|p|..] == b;
  }

  /** Which identity a canonical key stands for. */
  lemma KeyTells(m: UeIdentity)
    requires m.ueKey == Anonymous.ueKey
    ensures Given(m.imsi) <==> exists i :: i != "" && WithKey(m).ueKey == "imsi:" + i
    ensures forall i :: WithKey(m).ueKey == "imsi:" + i ==> m.imsi == Some(i) && Given(m.imsi)
    ensures forall r :: WithKey(m).ueKey == "random:" + r ==>
      m.randomValue == Some(r) && Given(m.randomValue) && !Given(m.imsi)
    ensures Given(m.randomValue) && !Given(m.imsi) ==> WithKey(m).ueKey == "random:" + m.randomValue.value
  {
    var k := WithKey(m).ueKey;
    assert Anonymous.ueKey[0] == 'u';
    forall i | k == "imsi:" + i ensures m.imsi == Some(i) && Given(m.imsi) {
      assert k[0] == 'i';
      assert Given(m.imsi);
      SamePrefix("imsi:", m.imsi.value, i);
    }
    forall r | k == "random:" + r ensures m.randomValue == Some(r) && Given(m.randomValue) && !Given(m.imsi) {
      assert k[0] == 'r';
      assert Given(m.randomValue) && !Given(m.imsi);
      SamePrefix("random:", m.randomValue.value, r);
    }
  }

  /**
   The ladder of keys: an IMSI before a random value before an allocated M-TMSI before an
   eNodeB's UE id, and the key's text names its kind and its value.
   */
  lemma KeyLadder(m: UeIdentity)
    requires m.keyType == Anonymous.keyType
    ensures var w := WithKey(m);
      var byTmsi := m.mTmsi.Some? && m.mTmsi.value != 1048575;
      && (w.keyType == "imsi" <==> Given(m.imsi))
      && (w.keyType == "random" <==> Given(m.randomValue) && !Given(m.imsi))
      && (w.keyType == "mtmsi" <==> byTmsi && !Given(m.randomValue) && !Given(m.imsi))
      && (w.keyType == "enb" <==> m.enbUeS1apId.Some? && !byTmsi && !Given(m.randomValue) && !Given(m.imsi))
      && (w.keyType == "mtmsi" ==> w.ueKey == "mtmsi:" + Show(m.mTmsi.value))
      && (w.keyType == "enb" ==> w.ueKey == "enb:" + Show(m.enbUeS1apId.value))
      && w == m.(ueKey := w.ueKey, keyType := w.keyType)
      && (w.keyType == m.keyType ==> w == m)
  {
    KindsDiffer();
  }

  lemma KindsDiffer()
    ensures Anonymous.keyType[0] == 'u' && "imsi"[0] == 'i' && "random"[0] == 'r'
    ensures "mtmsi"[0] == 'm' && "enb"[0] == 'e'
  {
  }
}
