/**
 The Hawkes arrival process: likelihood and thinning sampler
 (srsTwin/digital-twin/arrival_model.py). Exponential and logarithm are given functions of
 which only the laws used are assumed; reals stand for floats.
 */
module Hawkes {

  predicate AddsUp(exp: real -> real, a: real, b: real) {
    exp(a + b) == exp(a) * exp(b)
  }

  /** What the program relies on of math.exp. */
  ghost predicate ExpLaws(exp: real -> real) {
    && (forall a, b :: AddsUp(exp, a, b))
    && (forall a :: exp(a) > 0.0)
    && (forall a | a <= 0.0 :: exp(a) <= 1.0)
  }

  ghost predicate LogLaws(log: real -> real) {
    forall u | 0.0 < u < 1.0 :: log(u) < 0.0
  }

  function Times(a: real, b: real): real {
    a * b
  }

  function Over(a: real, b: real): real
    requires b != 0.0
  {
    a / b
  }

  lemma TimesOrder(a: real, x: real, y: real)
    requires a >= 0.0 && 0.0 <= x <= y
    ensures 0.0 <= Times(a, x) <= Times(a, y)
    ensures a > 0.0 && x > 0.0 ==> Times(a, x) > 0.0
    ensures a == 0.0 ==> Times(a, y) == 0.0
  {
  }

  /** exp(-beta * (t - s)): what an arrival at s still adds at t. */
  function Decay(exp: real -> real, beta: real, t: real, s: real): real {
    exp(-Times(beta, t - s))
  }

  lemma DecayComposes(exp: real -> real, beta: real, t: real, m: real, s: real)
    requires ExpLaws(exp)
    ensures Decay(exp, beta, t, s) == Times(Decay(exp, beta, t, m), Decay(exp, beta, m, s))
  {
    var a, b := -Times(beta, t - m), -Times(beta, m - s);
    assert a + b == -Times(beta, t - s);
    assert AddsUp(exp, a, b);
  }

  // ---- the direct sums ----

  /** What the first k arrivals add at time t. */
  function Excitation(exp: real -> real, beta: real, times: seq<real>, k: nat, t: real): real
    requires k <= |times|
  {
    if k == 0 then 0.0 else Excitation(exp, beta, times, k - 1, t) + Decay(exp, beta, t, times[k - 1])
  }

  lemma {:induction false} ExcitationPositive(exp: real -> real, beta: real, times: seq<real>, k: nat, t: real)
    requires ExpLaws(exp) && k <= |times|
    ensures Excitation(exp, beta, times, k, t) >= 0.0
    ensures k > 0 ==> Excitation(exp, beta, times, k, t) > 0.0
  {
    if k > 0 { ExcitationPositive(exp, beta, times, k - 1, t); }
  }

  /** Moving the time scales the sum. */
  lemma {:induction false} ExcitationScales(exp: real -> real, beta: real, times: seq<real>, k: nat, t: real, m: real)
    requires ExpLaws(exp) && k <= |times|
    ensures Excitation(exp, beta, times, k, t) == Times(Decay(exp, beta, t, m), Excitation(exp, beta, times, k, m))
  {
    if k > 0 {
      ExcitationScales(exp, beta, times, k - 1, t, m);
      DecayComposes(exp, beta, t, m, times[k - 1]);
    }
  }

  /** The running sum of the likelihood's loop. */
  function Running(exp: real -> real, beta: real, times: seq<real>, i: nat): real
    requires i < |times|
  {
    if i == 0 then 0.0
    else Times(Decay(exp, beta, times[i], times[i - 1]), 1.0 + Running(exp, beta, times, i - 1))
  }

  lemma Grows(e: real, f: real)
    requires e > 0.0
    ensures f > 1.0 ==> e < Times(e, f)
    ensures f < 1.0 ==> Times(e, f) < e
  {
  }

  /** A positive number that is its own square is one. */
  lemma UnitCancels(e: real)
    requires e > 0.0 && Times(e, e) == e
    ensures e == 1.0
  {
    Grows(e, e);
  }

  lemma ZeroIsUnit(exp: real -> real)
    requires AddsUp(exp, 0.0, 0.0)
    ensures Times(exp(0.0), exp(0.0)) == exp(0.0)
  {
  }

  lemma ExpOfZero(exp: real -> real)
    requires ExpLaws(exp)
    ensures exp(0.0) == 1.0
  {
    assert AddsUp(exp, 0.0, 0.0);
    ZeroIsUnit(exp);
    UnitCancels(exp(0.0));
  }

  /** The O(n) recursion computes the direct sum over all earlier arrivals. */
  lemma {:induction false} RunningIsDirect(exp: real -> real, beta: real, times: seq<real>, i: nat)
    requires ExpLaws(exp) && i < |times|
    ensures Running(exp, beta, times, i) == Excitation(exp, beta, times, i, times[i])
  {
    if i > 0 {
      var m := times[i - 1];
      RunningIsDirect(exp, beta, times, i - 1);
      ExcitationScales(exp, beta, times, i, times[i], m);
      ExpOfZero(exp);
      assert Times(beta, m - m) == 0.0;
      assert Decay(exp, beta, m, m) == 1.0;
    }
  }

  // ---- the log-likelihood ----

  const REFUSED := -1000000000.0

  /** The arguments the likelihood accepts. */
  predicate Admissible(times: seq<real>, mu: real, alpha: real, beta: real) {
    |times| >= 2 && times[|times| - 1] - times[0] > 0.0 && mu > 0.0 && alpha >= 0.0 && beta > 0.0 && alpha < beta
  }

  function Intensity(exp: real -> real, mu: real, alpha: real, beta: real, times: seq<real>, k: nat, t: real): real
    requires k <= |times|
  {
    mu + Times(alpha, Excitation(exp, beta, times, k, t))
  }

  function Contribution(exp: real -> real, log: real -> real, alpha: real, beta: real, intensity: real,
                        rest: real): real
    requires beta != 0.0
  {
    log(intensity) - Times(Over(alpha, beta), 1.0 - exp(-Times(beta, rest)))
  }

  /** What one arrival contributes: the log of the intensity there, less its share of the compensator. */
  function Term(exp: real -> real, log: real -> real, mu: real, alpha: real, beta: real, times: seq<real>, i: nat): real
    requires i < |times| && beta != 0.0
  {
    Contribution(exp, log, alpha, beta, Intensity(exp, mu, alpha, beta, times, i, times[i]),
                 times[|times| - 1] - times[i])
  }

  /** The log-likelihood of the first k arrivals by its textbook formula, with the direct double sum. */
  function LogLikelihood(exp: real -> real, log: real -> real, mu: real, alpha: real, beta: real, times: seq<real>,
                         k: nat): real
    requires 0 < |times| && k <= |times| && beta != 0.0
  {
    if k == 0 then -Times(mu, times[|times| - 1] - times[0])
    else LogLikelihood(exp, log, mu, alpha, beta, times, k - 1) + Term(exp, log, mu, alpha, beta, times, k - 1)
  }

  lemma IntensityPositive(exp: real -> real, mu: real, alpha: real, beta: real, times: seq<real>, k: nat, t: real)
    requires ExpLaws(exp) && k <= |times| && mu > 0.0 && alpha >= 0.0
    ensures Intensity(exp, mu, alpha, beta, times, k, t) > 0.0
  {
    ExcitationPositive(exp, beta, times, k, t);
    assert Times(alpha, Excitation(exp, beta, times, k, t)) >= 0.0;
  }

  /** The logs of the intensities at the first k arrivals, added up. */
  function LogSum(exp: real -> real, log: real -> real, mu: real, alpha: real, beta: real, times: seq<real>,
                  k: nat): real
    requires k <= |times|
  {
    if k == 0 then 0.0
    else
      var here := log(Intensity(exp, mu, alpha, beta, times, k - 1, times[k - 1]));
      LogSum(exp, log, mu, alpha, beta, times, k - 1) + here
  }

  lemma TermBounds(exp: real -> real, log: real -> real, mu: real, alpha: real, beta: real, times: seq<real>, i: nat)
    requires ExpLaws(exp) && i < |times| && alpha >= 0.0 && beta > 0.0 && times[i] <= times[|times| - 1]
    ensures var l := log(Intensity(exp, mu, alpha, beta, times, i, times[i]));
      l - Over(alpha, beta) <= Term(exp, log, mu, alpha, beta, times, i) <= l
    ensures alpha == 0.0 ==> Term(exp, log, mu, alpha, beta, times, i) == log(mu)
  {
    var rest := times[|times| - 1] - times[i];
    var share := 1.0 - exp(-Times(beta, rest));
    TimesOrder(beta, 0.0, rest);
    assert 0.0 <= share <= 1.0;
    OverSigns(alpha, beta);
    assert Over(alpha, beta) >= 0.0;
    TimesOrder(Over(alpha, beta), share, 1.0);
    if alpha == 0.0 { FlatExcitation(exp, mu, beta, times, i, times[i]); }
  }

  lemma FlatExcitation(exp: real -> real, mu: real, beta: real, times: seq<real>, k: nat, t: real)
    requires k <= |times|
    ensures Intensity(exp, mu, 0.0, beta, times, k, t) == mu
  {
  }

  /**
   The log-likelihood is the logs of the intensities less the expected number of arrivals:
   mu per second, and between nothing and alpha over beta for each arrival.
   */
  lemma {:induction false} LikelihoodBounds(exp: real -> real, log: real -> real, mu: real, alpha: real, beta: real,
                                            times: seq<real>, k: nat)
    requires ExpLaws(exp) && 0 < |times| && k <= |times| && alpha >= 0.0 && beta > 0.0
    requires forall i | 0 <= i < |times| :: times[i] <= times[|times| - 1]
    ensures var logs := LogSum(exp, log, mu, alpha, beta, times, k);
      var base := Times(mu, times[|times| - 1] - times[0]);
      && LogLikelihood(exp, log, mu, alpha, beta, times, k) <= logs - base
      && logs - base - Times(k as real, Over(alpha, beta)) <= LogLikelihood(exp, log, mu, alpha, beta, times, k)
  {
    if k == 0 {
      assert Times(0.0, Over(alpha, beta)) == 0.0;
    } else {
      LikelihoodBounds(exp, log, mu, alpha, beta, times, k - 1);
      TermBounds(exp, log, mu, alpha, beta, times, k - 1);
      OneMoreTime(k - 1, Over(alpha, beta));
    }
  }

  lemma OneMoreTime(k: nat, x: real)
    ensures Times((k + 1) as real, x) == Times(k as real, x) + x
  {
  }

  /** Without excitation it is the likelihood of a Poisson process. */
  lemma {:induction false} PoissonLikelihood(exp: real -> real, log: real -> real, mu: real, beta: real,
                                             times: seq<real>, k: nat)
    requires ExpLaws(exp) && 0 < |times| && k <= |times| && beta > 0.0
    requires forall i | 0 <= i < |times| :: times[i] <= times[|times| - 1]
    ensures LogLikelihood(exp, log, mu, 0.0, beta, times, k)
         == Times(k as real, log(mu)) - Times(mu, times[|times| - 1] - times[0])
  {
    if k == 0 {
      assert Times(0.0, log(mu)) == 0.0;
    } else {
      PoissonLikelihood(exp, log, mu, beta, times, k - 1);
      TermBounds(exp, log, mu, 0.0, beta, times, k - 1);
      OneMoreTime(k - 1, log(mu));
    }
  }

  lemma LikelihoodStep(exp: real -> real, log: real -> real, mu: real, alpha: real, beta: real, times: seq<real>,
                       i: nat, span: real, r: real)
    requires ExpLaws(exp) && i < |times| && mu > 0.0 && alpha >= 0.0 && beta > 0.0
    requires span == times[|times| - 1] - times[0] && r == Running(exp, beta, times, i)
    ensures mu + Times(alpha, r) > 0.0
    ensures LogLikelihood(exp, log, mu, alpha, beta, times, i + 1) == LogLikelihood(exp, log, mu, alpha, beta, times, i)
      + Contribution(exp, log, alpha, beta, mu + Times(alpha, r), span - times[i] + times[0])
  {
    RunningIsDirect(exp, beta, times, i);
    IntensityPositive(exp, mu, alpha, beta, times, i, times[i]);
    assert span - times[i] + times[0] == times[|times| - 1] - times[i];
  }

  /** One pass of the loop over the arrivals. */
  method AddArrival(exp: real -> real, log: real -> real, times: seq<real>, mu: real, alpha: real, beta: real,
                    span: real, i: nat, r: real, ll: real)
    returns (r': real, ll': real, intensity: real)
    requires ExpLaws(exp) && Admissible(times, mu, alpha, beta) && span == times[|times| - 1] - times[0] && i < |times|
    requires r == if i == 0 then 0.0 else Running(exp, beta, times, i - 1)
    requires ll == LogLikelihood(exp, log, mu, alpha, beta, times, i)
    ensures r' == Running(exp, beta, times, i) && intensity > 0.0
    ensures ll' == LogLikelihood(exp, log, mu, alpha, beta, times, i + 1)
  {
    r' := r;
    if i > 0 {
      r' := Times(Decay(exp, beta, times[i], times[i - 1]), 1.0 + r);
    }
    intensity := mu + Times(alpha, r');
    LikelihoodStep(exp, log, mu, alpha, beta, times, i, span, r');
    ll' := ll + Contribution(exp, log, alpha, beta, intensity, span - times[i] + times[0]);
  }

  /** The loop over the arrivals. */
  method SumTerms(exp: real -> real, log: real -> real, times: seq<real>, mu: real, alpha: real, beta: real, span: real)
    returns (ll: real)
    requires ExpLaws(exp) && Admissible(times, mu, alpha, beta) && span == times[|times| - 1] - times[0]
    ensures ll == LogLikelihood(exp, log, mu, alpha, beta, times, |times|)
  {
    ll := -Times(mu, span);
    var r, intensity := 0.0, 0.0;
    for i := 0 to |times|
      invariant r == if i == 0 then 0.0 else Running(exp, beta, times, i - 1)
      invariant ll == LogLikelihood(exp, log, mu, alpha, beta, times, i)
    {
      r, ll, intensity := AddArrival(exp, log, times, mu, alpha, beta, span, i, r, ll);
      if intensity <= 0.0 {
        return REFUSED;
      }
    }
  }

  /** `hawkes_log_likelihood` */
  method HawkesLogLikelihood(exp: real -> real, log: real -> real, times: seq<real>, mu: real, alpha: real, beta: real)
    returns (ll: real)
    requires ExpLaws(exp)
    ensures !Admissible(times, mu, alpha, beta) ==> ll == REFUSED
    ensures Admissible(times, mu, alpha, beta) ==> ll == LogLikelihood(exp, log, mu, alpha, beta, times, |times|)
  {
    if |times| < 2 {
      return REFUSED;
    }
    var span := times[|times| - 1] - times[0];
    if span <= 0.0 || mu <= 0.0 || alpha < 0.0 || beta <= 0.0 {
      return REFUSED;
    }
    if alpha >= beta {
      return REFUSED;
    }
    ll := SumTerms(exp, log, times, mu, alpha, beta, span);
  }

  // ---- the thinning sampler ----

  /** One round's two random numbers: for the waiting time and for the acceptance. */
  datatype Draw = Draw(wait: real, accept: real)

  datatype Sampling = Sampling(t: real, times: seq<real>, stopped: bool)

  predicate Increasing(times: seq<real>) {
    forall i, j | 0 <= i < j < |times| :: times[i] < times[j]
  }

  function IntensityAt(exp: real -> real, mu: real, alpha: real, beta: real, times: seq<real>, t: real): real {
    Intensity(exp, mu, alpha, beta, times, |times|, t)
  }

  /** The candidate a round proposes, past t by an exponential waiting time at the rate lamBar. */
  function Candidate(log: real -> real, t: real, lamBar: real, wait: real): real
    requires lamBar > 0.0
  {
    t + Over(-log(wait), lamBar)
  }

  /** One round of `sample_hawkes`. */
  function Round(exp: real -> real, log: real -> real, mu: real, alpha: real, beta: real, duration: real,
                 s: Sampling, d: Draw): Sampling {
    if s.stopped || s.t >= duration then s.(stopped := true)
    else
      var lamBar := IntensityAt(exp, mu, alpha, beta, s.times, s.t);
      if lamBar <= 0.0 then s.(stopped := true)
      else
        var t := Candidate(log, s.t, lamBar, d.wait);
        if t >= duration then s.(t := t, stopped := true)
        else if d.accept <= Over(IntensityAt(exp, mu, alpha, beta, s.times, t), lamBar)
        then s.(t := t, times := s.times + [t])
        else s.(t := t)
  }

  function Rounds(exp: real -> real, log: real -> real, mu: real, alpha: real, beta: real, duration: real,
                  draws: seq<Draw>): Sampling {
    if draws == [] then Sampling(0.0, [], false)
    else
      var last := |draws| - 1;
      var before := Rounds(exp, log, mu, alpha, beta, duration, draws[..last]);
      Round(exp, log, mu, alpha, beta, duration, before, draws[last])
  }

  predicate SamplingOk(s: Sampling, duration: real) {
    && 0.0 <= s.t && Increasing(s.times)
    && forall i | 0 <= i < |s.times| :: 0.0 < s.times[i] < duration && s.times[i] <= s.t
  }

  lemma OverSigns(a: real, b: real)
    requires b > 0.0
    ensures a > 0.0 ==> Over(a, b) > 0.0
    ensures a >= 0.0 ==> Over(a, b) >= 0.0
    ensures a <= b ==> Over(a, b) <= 1.0
  {
  }

  /** The accepted times strictly increase, from after 0 to before the end. */
  lemma {:induction false} SampleIncreases(exp: real -> real, log: real -> real, mu: real, alpha: real, beta: real,
                          duration: real, draws: seq<Draw>)
    requires LogLaws(log) && forall i | 0 <= i < |draws| :: 0.0 < draws[i].wait < 1.0
    ensures SamplingOk(Rounds(exp, log, mu, alpha, beta, duration, draws), duration)
  {
    if draws != [] {
      var init, d := draws[..|draws| - 1], draws[|draws| - 1];
      SampleIncreases(exp, log, mu, alpha, beta, duration, init);
      var s := Rounds(exp, log, mu, alpha, beta, duration, init);
      var lamBar := IntensityAt(exp, mu, alpha, beta, s.times, s.t);
      if lamBar > 0.0 {
        OverSigns(-log(d.wait), lamBar);
      }
    }
  }

  lemma {:induction false} ExcitationFades(exp: real -> real, beta: real, times: seq<real>, k: nat, t: real,
                                           later: real)
    requires ExpLaws(exp) && k <= |times| && beta >= 0.0 && t <= later
    ensures Excitation(exp, beta, times, k, later) <= Excitation(exp, beta, times, k, t)
  {
    var f, e := Decay(exp, beta, later, t), Excitation(exp, beta, times, k, t);
    ExcitationScales(exp, beta, times, k, later, t);
    ExcitationPositive(exp, beta, times, k, t);
    assert Times(beta, later - t) >= 0.0;
    assert f <= 1.0;
    assert Times(f, e) <= e;
  }

  /**
   The bound used for thinning is one: between arrivals the intensity only falls, so every
   acceptance ratio lies above 0 and at most at 1.
   */
  lemma AcceptanceRatio(exp: real -> real, mu: real, alpha: real, beta: real, times: seq<real>, t: real, later: real)
    requires ExpLaws(exp) && mu >= 0.0 && alpha >= 0.0 && beta >= 0.0 && t <= later
    requires IntensityAt(exp, mu, alpha, beta, times, t) > 0.0
    ensures 0.0 < Over(IntensityAt(exp, mu, alpha, beta, times, later),
                       IntensityAt(exp, mu, alpha, beta, times, t)) <= 1.0
  {
    var before, after := Excitation(exp, beta, times, |times|, t), Excitation(exp, beta, times, |times|, later);
    ExcitationFades(exp, beta, times, |times|, t, later);
    ExcitationPositive(exp, beta, times, |times|, t);
    ExcitationPositive(exp, beta, times, |times|, later);
    TimesOrder(alpha, after, before);
    OverSigns(mu + Times(alpha, after), mu + Times(alpha, before));
  }

  // ---- which candidates are accepted ----

  /** Where the sampler stands after its first k rounds: at the last candidate. */
  function Trail(exp: real -> real, log: real -> real, mu: real, alpha: real, beta: real, duration: real,
                 draws: seq<Draw>, k: nat): real
    requires k <= |draws|
  {
    Rounds(exp, log, mu, alpha, beta, duration, draws[..k]).t
  }

  /** Those of increasing times that are not past t. */
  function UpTo(times: seq<real>, t: real): seq<real> {
    if times == [] || times[|times| - 1] <= t then times else UpTo(times[..|times| - 1], t)
  }

  lemma {:induction false} UpToHas(times: seq<real>, t: real, x: real)
    requires Increasing(times) && x <= t
    ensures x in times <==> x in UpTo(times, t)
  {
    if times != [] && times[|times| - 1] > t {
      var init := times[..|times| - 1];
      UpToHas(init, t, x);
      assert times == init + [times[|times| - 1]];
    }
  }

  predicate WaitsOk(draws: seq<Draw>) {
    forall i | 0 <= i < |draws| :: 0.0 < draws[i].wait < 1.0
  }

  /** A sampler that has stopped is at the end, or where nothing can happen any more. */
  ghost predicate StopsForGood(exp: real -> real, mu: real, alpha: real, beta: real, duration: real, s: Sampling) {
    s.stopped ==> s.t >= duration || IntensityAt(exp, mu, alpha, beta, s.times, s.t) <= 0.0
  }

  /** One round in terms of the intensity alone: the next candidate, and whether it is taken. */
  ghost predicate Thinned(exp: real -> real, log: real -> real, mu: real, alpha: real, beta: real, duration: real,
                          past: seq<real>, t: real, d: Draw, next: real, times: seq<real>) {
    var lam := IntensityAt(exp, mu, alpha, beta, past, t);
    if t < duration && lam > 0.0 then
      && next == t + Over(-log(d.wait), lam)
      && (next in times <==>
            next < duration && d.accept <= Over(IntensityAt(exp, mu, alpha, beta, past, next), lam))
    else next == t
  }

  lemma RoundIsThinned(exp: real -> real, log: real -> real, mu: real, alpha: real, beta: real, duration: real,
                       s: Sampling, d: Draw)
    requires LogLaws(log) && 0.0 < d.wait < 1.0 && SamplingOk(s, duration)
    requires StopsForGood(exp, mu, alpha, beta, duration, s)
    ensures var r := Round(exp, log, mu, alpha, beta, duration, s, d);
      && StopsForGood(exp, mu, alpha, beta, duration, r)
      && Thinned(exp, log, mu, alpha, beta, duration, s.times, s.t, d, r.t, r.times)
      && s.t <= r.t && (r.times == s.times || (r.times == s.times + [r.t] && s.t < r.t))
  {
    var lamBar := IntensityAt(exp, mu, alpha, beta, s.times, s.t);
    if lamBar > 0.0 {
      OverSigns(-log(d.wait), lamBar);
    }
  }

  lemma {:induction false} RoundsStopForGood(exp: real -> real, log: real -> real, mu: real, alpha: real, beta: real,
                                             duration: real, draws: seq<Draw>)
    requires LogLaws(log) && WaitsOk(draws)
    ensures StopsForGood(exp, mu, alpha, beta, duration, Rounds(exp, log, mu, alpha, beta, duration, draws))
  {
    if draws != [] {
      var init := draws[..|draws| - 1];
      RoundsStopForGood(exp, log, mu, alpha, beta, duration, init);
      SampleIncreases(exp, log, mu, alpha, beta, duration, init);
      RoundIsThinned(exp, log, mu, alpha, beta, duration, Rounds(exp, log, mu, alpha, beta, duration, init),
                     draws[|draws| - 1]);
    }
  }

  /** What had been accepted after k rounds is what the result has up to the k-th candidate. */
  lemma {:induction false} PastIsPrefix(exp: real -> real, log: real -> real, mu: real, alpha: real, beta: real,
                                        duration: real, draws: seq<Draw>, k: nat)
    requires LogLaws(log) && WaitsOk(draws) && k <= |draws|
    ensures var s := Rounds(exp, log, mu, alpha, beta, duration, draws[..k]);
      var all := Rounds(exp, log, mu, alpha, beta, duration, draws);
      s.times == UpTo(all.times, s.t) && s.t <= all.t
    decreases |draws|
  {
    if k == |draws| {
      assert draws[..k] == draws;
      SampleIncreases(exp, log, mu, alpha, beta, duration, draws);
    } else {
      var init := draws[..|draws| - 1];
      assert init[..k] == draws[..k];
      PastIsPrefix(exp, log, mu, alpha, beta, duration, init, k);
      SampleIncreases(exp, log, mu, alpha, beta, duration, init);
      RoundsStopForGood(exp, log, mu, alpha, beta, duration, init);
      RoundIsThinned(exp, log, mu, alpha, beta, duration, Rounds(exp, log, mu, alpha, beta, duration, init),
                     draws[|draws| - 1]);
    }
  }

  /**
   The sampler thins exactly: the k-th candidate lies an exponential waiting time past the
   one before it, at the rate of the intensity there, and is among the times of the result
   exactly when it comes before the end and its draw is at most the ratio of the intensity
   at it to that rate. Both intensities are those of the accepted times so far.
   */
  lemma ThinningIsExact(exp: real -> real, log: real -> real, mu: real, alpha: real, beta: real, duration: real,
                        draws: seq<Draw>, k: nat)
    requires LogLaws(log) && WaitsOk(draws) && k < |draws|
    ensures var times := Rounds(exp, log, mu, alpha, beta, duration, draws).times;
      var t := Trail(exp, log, mu, alpha, beta, duration, draws, k);
      Thinned(exp, log, mu, alpha, beta, duration, UpTo(times, t), t, draws[k],
              Trail(exp, log, mu, alpha, beta, duration, draws, k + 1), times)
  {
    var s := Rounds(exp, log, mu, alpha, beta, duration, draws[..k]);
    var r := Rounds(exp, log, mu, alpha, beta, duration, draws[..k + 1]);
    var times := Rounds(exp, log, mu, alpha, beta, duration, draws).times;
    assert draws[..k + 1][..k] == draws[..k];
    SampleIncreases(exp, log, mu, alpha, beta, duration, draws[..k]);
    RoundsStopForGood(exp, log, mu, alpha, beta, duration, draws[..k]);
    RoundIsThinned(exp, log, mu, alpha, beta, duration, s, draws[k]);
    PastIsPrefix(exp, log, mu, alpha, beta, duration, draws, k);
    PastIsPrefix(exp, log, mu, alpha, beta, duration, draws, k + 1);
    SampleIncreases(exp, log, mu, alpha, beta, duration, draws);
    UpToHas(times, r.t, r.t);
  }

  /** And nothing but candidates is in the result. */
  lemma {:induction false} TimesAreCandidates(exp: real -> real, log: real -> real, mu: real, alpha: real, beta: real,
                                              duration: real, draws: seq<Draw>, x: real)
    requires x in Rounds(exp, log, mu, alpha, beta, duration, draws).times
    ensures exists k :: 0 < k <= |draws| && Trail(exp, log, mu, alpha, beta, duration, draws, k) == x
  {
    var init := draws[..|draws| - 1];
    if x in Rounds(exp, log, mu, alpha, beta, duration, init).times {
      TimesAreCandidates(exp, log, mu, alpha, beta, duration, init, x);
      var k :| 0 < k <= |init| && Trail(exp, log, mu, alpha, beta, duration, init, k) == x;
      assert init[..k] == draws[..k];
      assert Trail(exp, log, mu, alpha, beta, duration, draws, k) == x;
    } else {
      assert draws[..|draws|] == draws;
      assert Trail(exp, log, mu, alpha, beta, duration, draws, |draws|) == x;
    }
  }

  /** The waiting times at the rate mu, added up. */
  function Arrival(log: real -> real, mu: real, draws: seq<Draw>, k: nat): real
    requires k <= |draws| && mu != 0.0
  {
    if k == 0 then 0.0 else Arrival(log, mu, draws, k - 1) + Over(-log(draws[k - 1].wait), mu)
  }

  /** The first of them are the times; the one after the last is past the end, or not drawn yet. */
  ghost predicate TakesAll(log: real -> real, mu: real, duration: real, draws: seq<Draw>, k: nat, s: Sampling)
    requires k <= |draws| && mu != 0.0
  {
    && |s.times| <= k && (forall i | 0 <= i < |s.times| :: s.times[i] == Arrival(log, mu, draws, i + 1))
    && (if s.stopped then |s.times| < k && Arrival(log, mu, draws, |s.times| + 1) >= duration
        else |s.times| == k && s.t == Arrival(log, mu, draws, k) && (k == 0 || s.t < duration))
  }

  lemma FlatIntensity(exp: real -> real, mu: real, beta: real, times: seq<real>, t: real)
    ensures IntensityAt(exp, mu, 0.0, beta, times, t) == mu
  {
  }

  lemma TakesOneMore(exp: real -> real, log: real -> real, mu: real, beta: real, duration: real,
                     draws: seq<Draw>, k: nat, s: Sampling)
    requires k < |draws| && mu > 0.0 && draws[k].accept <= 1.0 && TakesAll(log, mu, duration, draws, k, s)
    requires LogLaws(log) && 0.0 < draws[k].wait < 1.0
    ensures TakesAll(log, mu, duration, draws, k + 1, Round(exp, log, mu, 0.0, beta, duration, s, draws[k]))
  {
    FlatIntensity(exp, mu, beta, s.times, s.t);
    FlatIntensity(exp, mu, beta, s.times, Candidate(log, s.t, mu, draws[k].wait));
    assert Over(mu, mu) == 1.0;
    OverSigns(-log(draws[k].wait), mu);
  }

  /**
   Without excitation the sampler is a Poisson process at the rate mu: every candidate before
   the end is accepted, and the times are the partial sums of the waiting times.
   */
  lemma {:induction false} PoissonTakesAll(exp: real -> real, log: real -> real, mu: real, beta: real, duration: real,
                                           draws: seq<Draw>, k: nat)
    requires LogLaws(log) && WaitsOk(draws) && mu > 0.0 && k <= |draws|
    requires forall i | 0 <= i < |draws| :: draws[i].accept <= 1.0
    ensures TakesAll(log, mu, duration, draws, k, Rounds(exp, log, mu, 0.0, beta, duration, draws[..k]))
  {
    if k > 0 {
      PoissonTakesAll(exp, log, mu, beta, duration, draws, k - 1);
      assert draws[..k][..k - 1] == draws[..k - 1];
      TakesOneMore(exp, log, mu, beta, duration, draws, k - 1,
                   Rounds(exp, log, mu, 0.0, beta, duration, draws[..k - 1]));
    }
  }

  method Sum(exp: real -> real, beta: real, history: seq<real>, t: real) returns (sum: real)
    ensures sum == Excitation(exp, beta, history, |history|, t)
  {
    sum := 0.0;
    for k := 0 to |history|
      invariant sum == Excitation(exp, beta, history, k, t)
    {
      sum := sum + Decay(exp, beta, t, history[k]);
    }
  }

  /** One pass of the sampler's loop. */
  method RunRound(exp: real -> real, log: real -> real, mu: real, alpha: real, beta: real, duration: real,
                  t: real, times: seq<real>, d: Draw)
    returns (t': real, times': seq<real>, stopped: bool)
    requires t < duration
    ensures Sampling(t', times', stopped) == Round(exp, log, mu, alpha, beta, duration, Sampling(t, times, false), d)
  {
    t', times', stopped := t, times, false;
    var before := Sum(exp, beta, times, t);
    var lamBar := mu + Times(alpha, before);
    if lamBar <= 0.0 {
      stopped := true;
      return;
    }
    t' := Candidate(log, t, lamBar, d.wait);
    if t' >= duration {
      stopped := true;
      return;
    }
    var after := Sum(exp, beta, times, t');
    var lamT := mu + Times(alpha, after);
    if d.accept <= Over(lamT, lamBar) {
      times' := times + [t'];
    }
  }

  /** `sample_hawkes`, over as many rounds as there are draws. */
  method SampleHawkes(exp: real -> real, log: real -> real, mu: real, alpha: real, beta: real, duration: real,
                      draws: seq<Draw>)
    returns (times: seq<real>)
    ensures times == Rounds(exp, log, mu, alpha, beta, duration, draws).times
  {
    var t, stopped := 0.0, false;
    times := [];
    var k := 0;
    while k < |draws| && t < duration && !stopped
      invariant 0 <= k <= |draws|
      invariant Sampling(t, times, stopped) == Rounds(exp, log, mu, alpha, beta, duration, draws[..k])
    {
      assert draws[..k + 1][..k] == draws[..k];
      t, times, stopped := RunRound(exp, log, mu, alpha, beta, duration, t, times, draws[k]);
      k := k + 1;
    }
    StaysStopped(exp, log, mu, alpha, beta, duration, draws, k, times);
  }

  lemma {:induction false} StaysStopped(exp: real -> real, log: real -> real, mu: real, alpha: real, beta: real,
                                        duration: real, draws: seq<Draw>, k: nat, times: seq<real>)
    requires k <= |draws|
    requires var s := Rounds(exp, log, mu, alpha, beta, duration, draws[..k]);
      s.times == times && (k == |draws| || s.stopped || s.t >= duration)
    ensures Rounds(exp, log, mu, alpha, beta, duration, draws).times == times
    decreases |draws| - k
  {
    if k == |draws| {
      assert draws[..k] == draws;
    } else {
      assert draws[..k + 1][..k] == draws[..k];
      StaysStopped(exp, log, mu, alpha, beta, duration, draws, k + 1, times);
    }
  }
}
