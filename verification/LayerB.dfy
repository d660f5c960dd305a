/**
 Batched registration of the Layer-B subscribers (srsTwin/integration/storm/orchestrate.py
 and generate.py).
 */
module LayerB {
  import opened Collections
  import opened Arrivals

  // ---- buckets ----

  /** `int(t)` cuts towards zero. */
  function Second(t: real): int {
    if t < 0.0 then -((-t).Floor) else t.Floor
  }

  /** The nearest whole number that is no further from zero. */
  lemma SecondCutsTowardsZero(t: real)
    ensures t >= 0.0 ==> 0.0 <= Second(t) as real <= t < Second(t) as real + 1.0
    ensures t < 0.0 ==> Second(t) as real - 1.0 < t <= Second(t) as real <= 0.0
  {
  }

  lemma SecondIsMonotone(a: real, b: real)
    requires a <= b
    ensures Second(a) <= Second(b)
  {
  }

  /** Consecutive indices from the first one on. */
  predicate IsRun(idxs: seq<nat>) {
    idxs != [] && forall j | 0 <= j < |idxs| :: idxs[j] == idxs[0] + j
  }

  /** After the first k arrivals: each bucket is the run of the arrivals in its second. */
  ghost predicate BucketsOk(times: seq<real>, buckets: map<int, seq<nat>>, k: nat)
    requires k <= |times|
  {
    && (forall sec | sec in buckets :: IsRun(buckets[sec]) && buckets[sec][0] + |buckets[sec]| <= k)
    && (forall sec, i: nat | sec in buckets && i < k ::
          Second(times[i]) == sec <==> buckets[sec][0] <= i < buckets[sec][0] + |buckets[sec]|)
    && (forall i | 0 <= i < k :: Second(times[i]) in buckets)
  }

  /** In sorted times a second's earlier arrivals end right before the next one. */
  lemma RunGoesOn(times: seq<real>, buckets: map<int, seq<nat>>, k: nat)
    requires k < |times| && Ordered(AtMost, times) && BucketsOk(times, buckets, k) && Second(times[k]) in buckets
    ensures buckets[Second(times[k])][0] + |buckets[Second(times[k])]| == k
  {
    var sec := Second(times[k]);
    var first := buckets[sec][0];
    assert Second(times[first]) == sec;
    assert AtMost(times[first], times[k - 1]) || first == k - 1;
    assert AtMost(times[k - 1], times[k]);
    SecondIsMonotone(times[first], times[k - 1]);
    SecondIsMonotone(times[k - 1], times[k]);
  }

  /** Behind a new second's first arrival there is no earlier one of that second. */
  lemma BucketAdded(times: seq<real>, buckets: map<int, seq<nat>>, k: nat)
    requires k < |times| && Ordered(AtMost, times) && BucketsOk(times, buckets, k)
    ensures var sec := Second(times[k]);
      BucketsOk(times, buckets[sec := (if sec in buckets then buckets[sec] else []) + [k]], k + 1)
  {
    if Second(times[k]) in buckets { RunGoesOn(times, buckets, k); }
  }

  /** The buckets of `_run_layer_b`, with their seconds in the order they first came. */
  method FillBuckets(times: seq<real>) returns (order: seq<int>, buckets: map<int, seq<nat>>)
    requires Ordered(AtMost, times)
    ensures BucketsOk(times, buckets, |times|)
    ensures forall sec :: sec in order <==> sec in buckets
    ensures forall i, j | 0 <= i < j < |order| :: order[i] != order[j]
  {
    order, buckets := [], map[];
    for k := 0 to |times|
      invariant BucketsOk(times, buckets, k)
      invariant forall sec :: sec in order <==> sec in buckets
      invariant forall i, j | 0 <= i < j < |order| :: order[i] != order[j]
    {
      BucketAdded(times, buckets, k);
      var sec := Second(times[k]);
      if sec !in buckets {
        order := order + [sec];
        buckets := buckets[sec := []];
      }
      buckets := buckets[sec := buckets[sec] + [k]];
    }
  }

  // ---- launches ----

  /** One nr-ue process: its first IMSI as a number, and how many it carries. */
  datatype Launch = Launch(imsi: int, count: nat)

  predicate Carries(l: Launch, imsi: int) {
    l.imsi <= imsi < l.imsi + l.count
  }

  predicate Carried(launches: seq<Launch>, imsi: int) {
    exists l :: 0 <= l < |launches| && Carries(launches[l], imsi)
  }

  /** The launches carry every one of these subscribers, each of them once, and nobody else. */
  ghost predicate CoverOnce(launches: seq<Launch>, base: int, n: nat) {
    && (forall imsi :: base <= imsi < base + n <==> Carried(launches, imsi))
    && (forall imsi, l, m | 0 <= l < m < |launches| :: !(Carries(launches[l], imsi) && Carries(launches[m], imsi)))
  }

  predicate NotAfter(a: int, b: int) {
    a <= b
  }

  lemma SecondsInOrder(order: seq<int>)
    ensures Ordered(NotAfter, StableSort(NotAfter, order))
  {
    assert TotalPreorder(NotAfter);
    StableSortLaws(NotAfter, order);
  }

  lemma SecondsRearranged(order: seq<int>)
    requires forall i, j | 0 <= i < j < |order| :: order[i] != order[j]
    ensures forall sec :: sec in StableSort(NotAfter, order) <==> sec in order
    ensures forall i, j | 0 <= i < j < |order| :: StableSort(NotAfter, order)[i] != StableSort(NotAfter, order)[j]
  {
    var sorted := StableSort(NotAfter, order);
    StableSortLaws(NotAfter, order);
    SortedMembers(NotAfter, order);
    forall i, j | 0 <= i < j < |order| ensures sorted[i] != sorted[j] {
      if sorted[i] == sorted[j] {
        Around(sorted, j);
        assert sorted[i] in sorted[..j];
        assert multiset(sorted)[sorted[i]] >= 2;
        OnceEach(order, sorted[i]);
      }
    }
  }

  lemma {:induction false} OnceEach(order: seq<int>, sec: int)
    requires forall i, j | 0 <= i < j < |order| :: order[i] != order[j]
    ensures multiset(order)[sec] <= 1
  {
    if order != [] {
      Snoc(order);
      OnceEach(order[..|order| - 1], sec);
      assert order[|order| - 1] !in order[..|order| - 1];
    }
  }

  /** One launch per bucket, in this order of seconds. */
  ghost predicate LaunchedFrom(launches: seq<Launch>, secs: seq<int>, buckets: map<int, seq<nat>>, base: int) {
    && |launches| <= |secs|
    && forall l | 0 <= l < |launches| ::
      && secs[l] in buckets && buckets[secs[l]] != []
      && launches[l] == Launch(base + buckets[secs[l]][0], |buckets[secs[l]]|)
  }

  lemma BucketsCoverOnce(times: seq<real>, buckets: map<int, seq<nat>>, secs: seq<int>, launches: seq<Launch>,
                         base: int)
    requires BucketsOk(times, buckets, |times|)
    requires forall sec :: sec in secs <==> sec in buckets
    requires forall i, j | 0 <= i < j < |secs| :: secs[i] != secs[j]
    requires LaunchedFrom(launches, secs, buckets, base) && |launches| == |secs|
    ensures CoverOnce(launches, base, |times|)
  {
    forall imsi, l | 0 <= l < |launches| && Carries(launches[l], imsi)
      ensures base <= imsi < base + |times| && Second(times[imsi - base]) == secs[l]
    {
      var sec := secs[l];
      assert IsRun(buckets[sec]);
      var i: nat := imsi - base;
      assert i < |times| && Second(times[i]) == secs[l];
    }
    forall imsi | base <= imsi < base + |times| ensures Carried(launches, imsi) {
      var i: nat := imsi - base;
      assert Second(times[i]) in secs;
      var l :| 0 <= l < |secs| && secs[l] == Second(times[i]);
      assert Carries(launches[l], imsi);
    }
  }

  /** `fire` for every bucket, seconds in order. */
  method LaunchAll(secs: seq<int>, buckets: map<int, seq<nat>>, base: int) returns (launches: seq<Launch>)
    requires forall l | 0 <= l < |secs| :: secs[l] in buckets && buckets[secs[l]] != []
    ensures LaunchedFrom(launches, secs, buckets, base) && |launches| == |secs|
  {
    launches := [];
    for l := 0 to |secs|
      invariant |launches| == l && LaunchedFrom(launches, secs, buckets, base)
    {
      var idxs := buckets[secs[l]];
      launches := launches + [Launch(base + idxs[0], |idxs|)];
    }
  }

  /** Each launch carries the arrivals of one second, in order of the seconds. */
  ghost predicate OnePerSecond(launches: seq<Launch>, secs: seq<int>, times: seq<real>, base: int) {
    && |secs| == |launches| && (forall l, m | 0 <= l < m < |secs| :: secs[l] < secs[m])
    && forall l, i: nat | 0 <= l < |launches| && i < |times| ::
         Carries(launches[l], base + i) <==> Second(times[i]) == secs[l]
  }

  lemma LaunchesArePerSecond(times: seq<real>, buckets: map<int, seq<nat>>, secs: seq<int>, launches: seq<Launch>,
                             base: int)
    requires BucketsOk(times, buckets, |times|) && Ordered(NotAfter, secs)
    requires forall i, j | 0 <= i < j < |secs| :: secs[i] != secs[j]
    requires LaunchedFrom(launches, secs, buckets, base) && |launches| == |secs|
    ensures OnePerSecond(launches, secs, times, base)
  {
    forall l, m | 0 <= l < m < |secs| ensures secs[l] < secs[m] {
      assert NotAfter(secs[l], secs[m]);
    }
  }

  /**
   `_run_layer_b`: whatever the arrival times, the launches together carry the subscribers
   numbered from the base on, each exactly once, and each launch those of one second.
   */
  method RunLayerB(drawn: seq<real>, base: int) returns (launches: seq<Launch>, secs: seq<int>)
    ensures CoverOnce(launches, base, |drawn|)
    ensures OnePerSecond(launches, secs, ArrivalTimes(drawn), base)
  {
    var times := ArrivalTimes(drawn);
    TimeOrder();
    StableSortLaws(AtMost, drawn);
    var order, buckets := FillBuckets(times);
    secs := StableSort(NotAfter, order);
    SecondsRearranged(order);
    SecondsInOrder(order);
    assert forall sec :: sec in secs <==> sec in buckets;
    forall l | 0 <= l < |secs| ensures secs[l] in buckets && buckets[secs[l]] != [] {
      var sec := secs[l];
      assert sec in secs && IsRun(buckets[sec]);
    }
    launches := LaunchAll(secs, buckets, base);
    BucketsCoverOnce(times, buckets, secs, launches, base);
    LaunchesArePerSecond(times, buckets, secs, launches, base);
  }

  // ---- the IMSIs as texts ----

  /** `int(text)` for a text of digits. */
  function Value(text: string): nat {
    if text == "" then 0
    else
      var last := text[|text| - 1];
      Value(text[..|text| - 1]) * 10 + if '0' <= last <= '9' then last as int - '0' as int else 0
  }

  function Zeros(n: nat): (z: string)
    ensures |z| == n
  {
    seq(n, _ => '0')
  }

  /** `text.zfill(width)` for a text of digits. */
  function Zfill(text: string, width: nat): string {
    if |text| >= width then text else Zeros(width - |text|) + text
  }

  /** `_digits_inc` */
  function DigitsInc(base: string, n: nat): string {
    Zfill(Decimal(Value(base) + n), |base|)
  }

  lemma {:induction false} ValueOfDecimal(n: nat)
    ensures Value(Decimal(n)) == n
    decreases n
  {
    if n >= 10 {
      ValueOfDecimal(n / 10);
      assert Decimal(n)[..|Decimal(n)| - 1] == Decimal(n / 10);
    } else {
      assert Decimal(n)[..0] == "";
    }
  }

  lemma {:induction false} LeadingZeros(z: nat, text: string)
    ensures Value(Zeros(z) + text) == Value(text)
    decreases z + |text|
  {
    if text == "" {
      assert Zeros(z) + "" == Zeros(z);
      if z > 0 {
        assert Zeros(z)[..z - 1] == Zeros(z - 1) + "";
        LeadingZeros(z - 1, "");
      }
    } else {
      assert (Zeros(z) + text)[..z + |text| - 1] == Zeros(z) + text[..|text| - 1];
      LeadingZeros(z, text[..|text| - 1]);
    }
  }

  /** Zero-filling never changes the number. */
  lemma DigitsIncAdds(base: string, n: nat)
    ensures Value(DigitsInc(base, n)) == Value(base) + n
    ensures |DigitsInc(base, n)| >= |base|
  {
    var digits := Decimal(Value(base) + n);
    ValueOfDecimal(Value(base) + n);
    if |digits| < |base| { LeadingZeros(|base| - |digits|, digits); }
  }

  /** The IMSI provisioned for Layer-B subscriber j behind a pool of `pool` Layer-A slots. */
  function Provisioned(base: string, pool: nat, j: nat): string {
    DigitsInc(base, pool + j)
  }

  /** The first IMSI the launcher counts from: the configured text read as a number. */
  function LaunchBase(base: string, pool: nat): nat {
    Value(DigitsInc(base, pool))
  }

  /** Number for number, launched and provisioned subscribers are the same. */
  lemma LaunchedIsProvisioned(base: string, pool: nat, j: nat)
    ensures Value(Provisioned(base, pool, j)) == LaunchBase(base, pool) + j
  {
    DigitsIncAdds(base, pool);
    DigitsIncAdds(base, pool + j);
  }

  /**
   Text for text they are not: the launch argument str(imsi) equals the provisioned IMSI
   exactly when the number has at least as many digits as the base text. Leading zeros
   are lost otherwise.
   */
  lemma LaunchTextIsProvisionedIff(base: string, pool: nat, j: nat)
    ensures Decimal(LaunchBase(base, pool) + j) == Provisioned(base, pool, j)
       <==> |Decimal(LaunchBase(base, pool) + j)| >= |base|
  {
    LaunchedIsProvisioned(base, pool, j);
    DigitsIncAdds(base, pool + j);
    DigitsIncAdds(base, pool);
  }

  const IMSI_BASE := "001010123456780"

  function PowerOfTen(k: nat): nat {
    if k == 0 then 1 else 10 * PowerOfTen(k - 1)
  }

  lemma {:induction false} DigitCount(n: nat, k: nat)
    requires k > 0
    ensures |Decimal(n)| > k <==> n >= PowerOfTen(k)
    decreases k
  {
    if k == 1 {
      assert PowerOfTen(1) == 10 * PowerOfTen(0);
    } else if n >= 10 {
      DigitCount(n / 10, k - 1);
    } else {
      PowerGrows(k);
    }
  }

  lemma {:induction false} PowerGrows(k: nat)
    requires k > 0
    ensures PowerOfTen(k) >= 10
  {
    if k > 1 { PowerGrows(k - 1); }
  }

  /** A number with the configured base in front has 15 digits only from 98 989 876 543 220 subscribers on. */
  lemma ConfiguredWidth(n: nat)
    ensures |Decimal(Value(IMSI_BASE) + n)| >= 15 <==> n >= 98_989_876_543_220
  {
    ConfiguredBase();
    TenToFourteen();
    DigitCount(Value(IMSI_BASE) + n, 14);
  }

  /**
   With the configured base the text a subscriber is launched with is some provisioned IMSI,
   that subscriber's or any other's, only from 98 989 876 543 220 subscribers on.
   */
  lemma ConfiguredBaseLosesZeros(pool: nat, j: nat)
    ensures (exists i: nat :: Decimal(LaunchBase(IMSI_BASE, pool) + j) == Provisioned(IMSI_BASE, pool, i))
       <==> pool + j >= 98_989_876_543_220
  {
    var launched := Decimal(LaunchBase(IMSI_BASE, pool) + j);
    ConfiguredBase();
    DigitsIncAdds(IMSI_BASE, pool);
    assert LaunchBase(IMSI_BASE, pool) + j == Value(IMSI_BASE) + (pool + j);
    ConfiguredWidth(pool + j);
    LaunchTextIsProvisionedIff(IMSI_BASE, pool, j);
    if |launched| >= 15 {
      assert launched == Provisioned(IMSI_BASE, pool, j);
    }
    forall i: nat ensures |Provisioned(IMSI_BASE, pool, i)| >= 15 {
      DigitsIncAdds(IMSI_BASE, pool + i);
    }
  }

  lemma TenToFourteen()
    ensures PowerOfTen(14) == 100_000_000_000_000
  {
    assert PowerOfTen(4) == 10_000;
    assert PowerOfTen(8) == 10_000 * PowerOfTen(4);
    assert PowerOfTen(12) == 10_000 * PowerOfTen(8);
  }

  lemma ConfiguredBase()
    ensures |IMSI_BASE| == 15 && Value(IMSI_BASE) == 1_010_123_456_780
  {
    ConfiguredDigits0();
    ConfiguredDigits5();
    ConfiguredDigits10();
    assert IMSI_BASE[..15] == IMSI_BASE;
  }

  lemma ConfiguredDigits0()
    ensures Value(IMSI_BASE[..5]) == 101
  {
    var s := IMSI_BASE;
    assert Value(s[..0]) == 0;
    DigitAt(s, 0); DigitAt(s, 1); DigitAt(s, 2); DigitAt(s, 3); DigitAt(s, 4);
  }

  lemma ConfiguredDigits5()
    ensures Value(IMSI_BASE[..10]) == Value(IMSI_BASE[..5]) * 100_000 + 1_234
  {
    var s := IMSI_BASE;
    DigitAt(s, 5); DigitAt(s, 6); DigitAt(s, 7); DigitAt(s, 8); DigitAt(s, 9);
  }

  lemma ConfiguredDigits10()
    ensures Value(IMSI_BASE[..15]) == Value(IMSI_BASE[..10]) * 100_000 + 56_780
  {
    var s := IMSI_BASE;
    DigitAt(s, 10); DigitAt(s, 11); DigitAt(s, 12); DigitAt(s, 13); DigitAt(s, 14);
  }

  lemma DigitAt(s: string, k: nat)
    requires k < |s| && '0' <= s[k] <= '9'
    ensures Value(s[..k + 1]) == Value(s[..k]) * 10 + s[k] as int - '0' as int
  {
    assert s[..k + 1][..k] == s[..k];
  }
}
