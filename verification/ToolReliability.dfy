/**
 * core/tool_reliability.py: the rounded running means, the confidence score and the two-threshold band.
 * Floats are reals; `round` is any function that returns a nearest multiple of its unit.
 */
module ToolReliability {
  import opened Wrappers
  import opened Reals

  datatype Band = Trusted | Degraded

  datatype ToolResult = ToolResult(success: bool, timedOut: bool, latencyMs: int)

  datatype Profile = Profile(successRate: real, replayStability: real, averageLatencyMs: real, timeoutRate: real,
                             driftRate: real, confidence: real, band: Band, sampleCount: nat)

  datatype Thresholds = Thresholds(enter: real, exit: real)

  const DEFAULT_THRESHOLDS := Thresholds(0.70, 0.82)

  /** round(x, 4) and round(x, 2). */
  datatype Rounding = Rounding(round4: real -> real, round2: real -> real)
  {
    ghost predicate Valid() {
      (forall x: real :: Nearest(x, round4(x), UNIT4)) && (forall x: real :: Nearest(x, round2(x), UNIT2))
    }
  }

  function ComputeConfidence(R: Rounding, successRate: real, timeoutRate: real, replayStability: real,
                             driftRate: real, averageLatencyMs: real): real
  {
    var penalty := Min(0.2, averageLatencyMs / 10000.0);
    var score := successRate * 0.35 + replayStability * 0.25 + (1.0 - timeoutRate) * 0.2 + (1.0 - driftRate) * 0.15
                 - penalty;
    R.round4(Max(0.0, Min(1.0, score)))
  }

  function ApplyHysteresis(th: Thresholds, band: Band, score: real): Band {
    if band == Degraded then (if score >= th.exit then Trusted else Degraded)
    else if score < th.enter then Degraded else Trusted
  }

  function One(b: bool): real { if b then 1.0 else 0.0 }

  /** `((prev * (n - 1)) + x) / n`. */
  function NextMean(prev: real, n: nat, x: real): real
    requires n > 0
  {
    (prev * (n - 1) as real + x) / n as real
  }

  function UpdateFromResult(R: Rounding, th: Thresholds, profile: Option<Profile>, result: ToolResult,
                            replayStability: real, driftRate: real): Profile
  {
    var n := (if profile.Some? then profile.value.sampleCount else 0) + 1;
    var success := NextMean(if profile.Some? then profile.value.successRate else 1.0, n, One(result.success));
    var timeout := NextMean(if profile.Some? then profile.value.timeoutRate else 0.0, n, One(result.timedOut));
    var latency := NextMean(if profile.Some? then profile.value.averageLatencyMs else 0.0, n, result.latencyMs as real);
    var confidence := ComputeConfidence(R, success, timeout, replayStability, driftRate, latency);
    var band := if profile.Some? then profile.value.band else Trusted;
    Profile(R.round4(success), R.round4(replayStability), R.round2(latency), R.round4(timeout), R.round4(driftRate),
            confidence, ApplyHysteresis(th, band, confidence), n)
  }

  /** The profiles after each result, with the default stability and drift. */
  function Profiles(R: Rounding, th: Thresholds, start: Option<Profile>, results: seq<ToolResult>): (ps: seq<Profile>)
    ensures |ps| == |results|
  {
    if results == [] then []
    else
      var before := Profiles(R, th, start, results[..|results| - 1]);
      var last := if before == [] then start else Some(before[|before| - 1]);
      before + [UpdateFromResult(R, th, last, results[|results| - 1], 1.0, 0.0)]
  }

  // ---- Rounded running mean -----------------------------------------------

  function Sum(xs: seq<real>): real {
    if xs == [] then 0.0 else Sum(xs[..|xs| - 1]) + xs[|xs| - 1]
  }

  /** The mean kept by rounding after every step. */
  function RoundedMean(round: real -> real, xs: seq<real>): real {
    if xs == [] then 0.0 else round(NextMean(RoundedMean(round, xs[..|xs| - 1]), |xs|, xs[|xs| - 1]))
  }

  function Prod(a: real, b: real): real { a * b }

  /** Four times the error allowed after n steps, times n: each step adds n half units. */
  function Allowance(unit: real, n: real): real { unit * n * (n + 1.0) }

  predicate WithinBudget(unit: real, n: real, m: real, sum: real) {
    4.0 * Abs(Prod(m, n) - sum) <= Allowance(unit, n)
  }

  lemma {:induction false} ScaledError(round: real -> real, unit: real, xs: seq<real>)
    requires forall x: real :: Nearest(x, round(x), unit)
    ensures WithinBudget(unit, |xs| as real, RoundedMean(round, xs), Sum(xs))
  {
    hide WithinBudget, Nearest, NextMean;
    if xs == [] {
      NoError(unit);
    } else {
      var front, x, n := xs[..|xs| - 1], xs[|xs| - 1], |xs| as real;
      var prev := RoundedMean(round, front);
      var exact := NextMean(prev, |xs|, x);
      ScaledError(round, unit, front);
      assert Nearest(exact, round(exact), unit);
      assert |front| as real == n - 1.0;
      StepError(prev, x, Sum(front), |xs|, round(exact), unit);
    }
  }

  lemma NoError(unit: real)
    ensures WithinBudget(unit, 0.0, 0.0, 0.0)
  {
  }

  lemma StepError(prev: real, x: real, sum: real, count: nat, rounded: real, unit: real)
    requires count >= 1 && Nearest(NextMean(prev, count, x), rounded, unit)
    requires WithinBudget(unit, count as real - 1.0, prev, sum)
    ensures WithinBudget(unit, count as real, rounded, sum + x)
  {
    hide Nearest, Prod, Allowance, NextMean;
    var n := count as real;
    var exact := NextMean(prev, count, x);
    var d := rounded - exact;
    Undivided(prev, count, x);
    HalfUnit(exact, rounded, unit);
    Distribute(exact, d, n);
    assert exact + d == rounded;
    AllowanceStep(unit, n);
    ScaleBound(d, unit / 2.0, n);
  }

  lemma HalfUnit(x: real, r: real, unit: real)
    requires Nearest(x, r, unit)
    ensures -(unit / 2.0) <= r - x <= unit / 2.0
  {
  }

  lemma Undivided(prev: real, count: nat, x: real)
    requires count >= 1
    ensures Prod(NextMean(prev, count, x), count as real) == Prod(prev, count as real - 1.0) + x
  {
  }

  lemma Distribute(a: real, b: real, n: real)
    ensures Prod(a + b, n) == Prod(a, n) + Prod(b, n)
  {
  }

  lemma AllowanceStep(unit: real, n: real)
    ensures Allowance(unit, n) == Allowance(unit, n - 1.0) + 4.0 * Prod(unit / 2.0, n)
  {
    assert unit * n * (n + 1.0) == unit * n * (n - 1.0) + 2.0 * unit * n;
  }

  lemma ScaleBound(d: real, b: real, n: real)
    requires -b <= d <= b && n >= 0.0
    ensures -Prod(b, n) <= Prod(d, n) <= Prod(b, n)
  {
    assert (b - d) * n >= 0.0 && (b + d) * n >= 0.0;
    assert (b - d) * n == b * n - d * n && (b + d) * n == b * n + d * n;
  }

  lemma Compare(d: real, b: real, n: real)
    requires n > 0.0
    ensures d > b <==> d * n > b * n
    ensures d < b <==> d * n < b * n
  {
  }

  /** After n results the kept mean is within unit * (n + 1) / 4 of the exact one. */
  lemma RoundedMeanError(round: real -> real, unit: real, xs: seq<real>)
    requires xs != [] && forall x: real :: Nearest(x, round(x), unit)
    ensures Abs(RoundedMean(round, xs) - Sum(xs) / |xs| as real) <= unit / 2.0 * (|xs| as real + 1.0) / 2.0
  {
    hide RoundedMean, Sum, Nearest;
    ScaledError(round, unit, xs);
    Unscale(unit, |xs| as real, RoundedMean(round, xs), Sum(xs));
  }

  lemma Unscale(unit: real, n: real, m: real, s: real)
    requires n > 0.0 && WithinBudget(unit, n, m, s)
    ensures Abs(m - s / n) <= unit / 2.0 * (n + 1.0) / 2.0
  {
    hide Prod, WithinBudget;
    var d, b := m - s / n, unit / 2.0 * (n + 1.0) / 2.0;
    ScaledByCount(unit, n, m, s);
    NotAbove(d, b, n);
    Negated(d, n);
    NotAbove(-d, b, n);
  }

  lemma ScaledByCount(unit: real, n: real, m: real, s: real)
    requires n > 0.0 && WithinBudget(unit, n, m, s)
    ensures Abs(Prod(m - s / n, n)) <= Prod(unit / 2.0 * (n + 1.0) / 2.0, n)
  {
    var q := s / n;
    assert q * n == s;
    assert (m - q) * n == m * n - q * n;
    assert 4.0 * ((unit / 2.0 * (n + 1.0) / 2.0) * n) == unit * n * (n + 1.0);
  }

  lemma NotAbove(d: real, b: real, n: real)
    requires n > 0.0 && Prod(d, n) <= Prod(b, n)
    ensures d <= b
  {
    Compare(d, b, n);
  }

  lemma Negated(d: real, n: real)
    ensures Prod(-d, n) == -Prod(d, n)
  {
  }

  function Successes(rs: seq<ToolResult>): seq<real> { seq(|rs|, i requires 0 <= i < |rs| => One(rs[i].success)) }

  function Timeouts(rs: seq<ToolResult>): seq<real> { seq(|rs|, i requires 0 <= i < |rs| => One(rs[i].timedOut)) }

  function Latencies(rs: seq<ToolResult>): seq<real> { seq(|rs|, i requires 0 <= i < |rs| => rs[i].latencyMs as real) }

  lemma {:induction false} ProfileIsRoundedMean(R: Rounding, th: Thresholds, rs: seq<ToolResult>)
    requires rs != []
    ensures var p := Profiles(R, th, None, rs)[|rs| - 1];
            && p.sampleCount == |rs|
            && p.successRate == RoundedMean(R.round4, Successes(rs))
            && p.timeoutRate == RoundedMean(R.round4, Timeouts(rs))
            && p.averageLatencyMs == RoundedMean(R.round2, Latencies(rs))
  {
    hide ComputeConfidence, ApplyHysteresis, NextMean, One;
    var front := rs[..|rs| - 1];
    assert Successes(rs)[..|rs| - 1] == Successes(front);
    assert Timeouts(rs)[..|rs| - 1] == Timeouts(front);
    assert Latencies(rs)[..|rs| - 1] == Latencies(front);
    if front != [] {
      ProfileIsRoundedMean(R, th, front);
    } else {
      FirstMean(1.0, 0.0, One(rs[0].success));
    }
  }

  lemma FirstMean(a: real, b: real, x: real)
    ensures NextMean(a, 1, x) == NextMean(b, 1, x) == x
  {
  }

  /** Stored rates and latency never drift further from the exact means than half a unit times (n + 1) / 2. */
  lemma StoredMeansError(R: Rounding, th: Thresholds, rs: seq<ToolResult>)
    requires R.Valid() && rs != []
    ensures var p := Profiles(R, th, None, rs)[|rs| - 1];
            var n := |rs| as real;
            && Abs(p.successRate - Sum(Successes(rs)) / n) <= 0.00005 * (n + 1.0) / 2.0
            && Abs(p.timeoutRate - Sum(Timeouts(rs)) / n) <= 0.00005 * (n + 1.0) / 2.0
            && Abs(p.averageLatencyMs - Sum(Latencies(rs)) / n) <= 0.005 * (n + 1.0) / 2.0
  {
    hide Profiles, RoundedMean, Sum, Nearest;
    ProfileIsRoundedMean(R, th, rs);
    RoundedMeanError(R.round4, UNIT4, Successes(rs));
    RoundedMeanError(R.round4, UNIT4, Timeouts(rs));
    RoundedMeanError(R.round2, UNIT2, Latencies(rs));
  }

  // ---- Confidence range ---------------------------------------------------

  predicate SoundProfile(p: Profile) {
    0.0 <= p.successRate <= 1.0 && 0.0 <= p.timeoutRate <= 1.0 && 0.0 <= p.averageLatencyMs
  }

  lemma NextMeanRange(prev: real, n: nat, x: real, hi: real)
    requires n > 0 && 0.0 <= prev <= hi && 0.0 <= x <= hi
    ensures 0.0 <= NextMean(prev, n, x) <= hi
  {
    var k := n as real;
    ScaleRange(prev, k - 1.0, hi);
    var total := prev * (k - 1.0) + x;
    assert 0.0 <= total <= hi * k;
    DivideRange(total, k, hi);
  }

  lemma ScaleRange(x: real, k: real, hi: real)
    requires 0.0 <= x <= hi && k >= 0.0
    ensures 0.0 <= x * k <= hi * k
  {
  }

  lemma DivideRange(total: real, k: real, hi: real)
    requires k > 0.0 && 0.0 <= total <= hi * k
    ensures 0.0 <= total / k <= hi
  {
    var q := total / k;
    assert q * k == total;
    Compare(q, 0.0, k);
    Compare(q, hi, k);
  }

  lemma UpdateSound(R: Rounding, th: Thresholds, profile: Option<Profile>, result: ToolResult, stability: real,
      drift: real)
    requires R.Valid() && (profile.Some? ==> SoundProfile(profile.value))
    requires result.latencyMs >= 0 && 0.0 <= stability <= 1.0 && 0.0 <= drift <= 1.0
    ensures var p := UpdateFromResult(R, th, profile, result, stability, drift);
            SoundProfile(p) && 0.0 <= p.confidence <= 0.95
  {
    hide Nearest, Rounding.Valid;
    var n := (if profile.Some? then profile.value.sampleCount else 0) + 1;
    var prev := if profile.Some? then profile.value.successRate else 1.0;
    var prevT := if profile.Some? then profile.value.timeoutRate else 0.0;
    var prevL := if profile.Some? then profile.value.averageLatencyMs else 0.0;
    NextMeanRange(prev, n, One(result.success), 1.0);
    NextMeanRange(prevT, n, One(result.timedOut), 1.0);
    NextMeanRange(prevL, n, result.latencyMs as real, Max(prevL, result.latencyMs as real));
    var s := NextMean(prev, n, One(result.success));
    var t := NextMean(prevT, n, One(result.timedOut));
    var l := NextMean(prevL, n, result.latencyMs as real);
    RoundRate(R, s);
    RoundRate(R, t);
    RoundLatency(R, l);
    ConfidenceRange(R, s, t, stability, drift, l);
  }

  lemma RoundRate(R: Rounding, x: real)
    requires R.Valid() && 0.0 <= x <= 1.0
    ensures 0.0 <= R.round4(x) <= 1.0
  {
    assert Nearest(x, R.round4(x), UNIT4);
    NearestStaysInside(x, R.round4(x), UNIT4, 0, 10000);
  }

  lemma RoundLatency(R: Rounding, x: real)
    requires R.Valid() && 0.0 <= x
    ensures 0.0 <= R.round2(x)
  {
    assert Nearest(x, R.round2(x), UNIT2);
    var hi := (x * 100.0).Floor + 1;
    NearestStaysInside(x, R.round2(x), UNIT2, 0, hi);
  }

  lemma ConfidenceRange(R: Rounding, s: real, t: real, stability: real, drift: real, latency: real)
    requires R.Valid() && 0.0 <= s <= 1.0 && 0.0 <= t <= 1.0 && 0.0 <= stability <= 1.0 && 0.0 <= drift <= 1.0
    ensures 0.0 <= ComputeConfidence(R, s, t, stability, drift, latency) <= 1.0
    ensures latency >= 0.0 ==> ComputeConfidence(R, s, t, stability, drift, latency) <= 0.95
  {
    var penalty := Min(0.2, latency / 10000.0);
    var score := s * 0.35 + stability * 0.25 + (1.0 - t) * 0.2 + (1.0 - drift) * 0.15 - penalty;
    var x := Max(0.0, Min(1.0, score));
    assert Nearest(x, R.round4(x), UNIT4);
    NearestStaysInside(x, R.round4(x), UNIT4, 0, 10000);
    if latency >= 0.0 {
      assert penalty >= 0.0;
      NearestStaysInside(x, R.round4(x), UNIT4, 0, 9500);
    }
  }

  /** Over any run of measured results every score lies in [0, 0.95]. */
  lemma {:induction false} ScoresInRange(R: Rounding, th: Thresholds, start: Option<Profile>, rs: seq<ToolResult>)
    requires R.Valid() && (start.Some? ==> SoundProfile(start.value)) && forall r | r in rs :: r.latencyMs >= 0
    ensures forall p | p in Profiles(R, th, start, rs) :: SoundProfile(p) && 0.0 <= p.confidence <= 0.95
  {
    hide UpdateFromResult, Rounding.Valid;
    if rs != [] {
      var front, r := rs[..|rs| - 1], rs[|rs| - 1];
      ScoresInRange(R, th, start, front);
      var before := Profiles(R, th, start, front);
      var last := if before == [] then start else Some(before[|before| - 1]);
      UpdateSound(R, th, last, r, 1.0, 0.0);
    }
  }

  /** The four digits of a score. */
  lemma ScoreOnGrid(R: Rounding, s: real, t: real, stability: real, drift: real, latency: real, k: int)
    requires R.Valid() && 0 <= k <= 10000 && latency >= 0.0
    requires s * 0.35 + stability * 0.25 + (1.0 - t) * 0.2 + (1.0 - drift) * 0.15
             - (if latency <= 2000.0 then latency / 10000.0 else 0.2) == k as real / 10000.0
    ensures ComputeConfidence(R, s, t, stability, drift, latency) == k as real / 10000.0
  {
    hide Nearest;
    var x := k as real / 10000.0;
    assert x == Grid(k, UNIT4);
    assert Min(0.2, latency / 10000.0) == if latency <= 2000.0 then latency / 10000.0 else 0.2;
    assert Max(0.0, Min(1.0, x)) == x;
    assert Nearest(x, R.round4(x), UNIT4);
    NearestOnGrid(k, R.round4(x), UNIT4);
  }

  /** What each kind of trouble costs a perfect tool: no success, timeouts, unstable replay, drift, slowness. */
  lemma ScoreCosts(R: Rounding)
    requires R.Valid()
    ensures ComputeConfidence(R, 1.0, 0.0, 1.0, 0.0, 0.0) == 0.95
    ensures ComputeConfidence(R, 0.0, 0.0, 1.0, 0.0, 0.0) == 0.6
    ensures ComputeConfidence(R, 1.0, 1.0, 1.0, 0.0, 0.0) == 0.75
    ensures ComputeConfidence(R, 1.0, 0.0, 0.0, 0.0, 0.0) == 0.7
    ensures ComputeConfidence(R, 1.0, 0.0, 1.0, 1.0, 0.0) == 0.8
    ensures ComputeConfidence(R, 1.0, 0.0, 1.0, 0.0, 1000.0) == 0.85
    ensures forall latency: real :: latency >= 2000.0 ==> ComputeConfidence(R, 1.0, 0.0, 1.0, 0.0, latency) == 0.75
    ensures ComputeConfidence(R, 0.0, 1.0, 0.0, 1.0, 0.0) == 0.0
  {
    ScoreOnGrid(R, 1.0, 0.0, 1.0, 0.0, 0.0, 9500);
    ScoreOnGrid(R, 0.0, 0.0, 1.0, 0.0, 0.0, 6000);
    ScoreOnGrid(R, 1.0, 1.0, 1.0, 0.0, 0.0, 7500);
    ScoreOnGrid(R, 1.0, 0.0, 0.0, 0.0, 0.0, 7000);
    ScoreOnGrid(R, 1.0, 0.0, 1.0, 1.0, 0.0, 8000);
    ScoreOnGrid(R, 1.0, 0.0, 1.0, 0.0, 1000.0, 8500);
    ScoreOnGrid(R, 0.0, 1.0, 0.0, 1.0, 0.0, 0);
    forall latency: real | latency >= 2000.0
      ensures ComputeConfidence(R, 1.0, 0.0, 1.0, 0.0, latency) == 0.75
    {
      ScoreOnGrid(R, 1.0, 0.0, 1.0, 0.0, latency, 7500);
    }
  }

  /** Every result: better rates never score lower. */
  lemma ScoreMonotone(s: real, t: real, latency: real, s': real, t': real, latency': real)
    requires s <= s' && t' <= t && latency' <= latency
    ensures Unrounded(s, t, latency) <= Unrounded(s', t', latency')
  {
  }

  /** The score before rounding, at full stability and no drift. */
  function Unrounded(s: real, t: real, latency: real): real {
    Max(0.0, Min(1.0, s * 0.35 + (1.0 - t) * 0.2 + 0.4 - Min(0.2, latency / 10000.0)))
  }

  /** One result: what is stored, and when the band changes. */
  lemma UpdateMeans(R: Rounding, th: Thresholds, profile: Option<Profile>, result: ToolResult)
    requires R.Valid()
    ensures var p := UpdateFromResult(R, th, profile, result, 1.0, 0.0);
            var q := if profile.Some? then profile.value else Profile(1.0, 1.0, 0.0, 0.0, 0.0, 1.0, Trusted, 0);
            var s := NextMean(q.successRate, p.sampleCount, if result.success then 1.0 else 0.0);
            var t := NextMean(q.timeoutRate, p.sampleCount, if result.timedOut then 1.0 else 0.0);
            var l := NextMean(q.averageLatencyMs, p.sampleCount, result.latencyMs as real);
            && p.sampleCount == q.sampleCount + 1 && p.replayStability == 1.0 && p.driftRate == 0.0
            && Nearest(s, p.successRate, 0.0001) && Nearest(t, p.timeoutRate, 0.0001)
            && Nearest(l, p.averageLatencyMs, 0.01) && Nearest(Unrounded(s, t, l), p.confidence, 0.0001)
            && (p.band == Degraded <==> p.confidence < if q.band == Degraded then th.exit else th.enter)
  {
    hide Nearest, NextMean, ComputeConfidence, Unrounded;
    var q := if profile.Some? then profile.value else Profile(1.0, 1.0, 0.0, 0.0, 0.0, 1.0, Trusted, 0);
    var n := q.sampleCount + 1;
    OnesOnGrid(R);
    var s := NextMean(q.successRate, n, One(result.success));
    var t := NextMean(q.timeoutRate, n, One(result.timedOut));
    var l := NextMean(q.averageLatencyMs, n, result.latencyMs as real);
    ScoreIs(R, s, t, l);
    assert Nearest(s, R.round4(s), UNIT4) && Nearest(t, R.round4(t), UNIT4) && Nearest(l, R.round2(l), UNIT2);
  }

  lemma ScoreIs(R: Rounding, s: real, t: real, latency: real)
    requires R.Valid()
    ensures Nearest(Unrounded(s, t, latency), ComputeConfidence(R, s, t, 1.0, 0.0, latency), UNIT4)
  {
    hide Nearest;
    var score := Unrounded(s, t, latency);
    assert Nearest(score, R.round4(score), UNIT4);
  }

  lemma OnesOnGrid(R: Rounding)
    requires R.Valid()
    ensures R.round4(1.0) == 1.0 && R.round4(0.0) == 0.0
  {
    assert Grid(10000, UNIT4) == 1.0 && Grid(0, UNIT4) == 0.0;
    assert Nearest(1.0, R.round4(1.0), UNIT4) && Nearest(0.0, R.round4(0.0), UNIT4);
    NearestOnGrid(10000, R.round4(1.0), UNIT4);
    NearestOnGrid(0, R.round4(0.0), UNIT4);
  }

  // ---- No flapping --------------------------------------------------------

  /** Band changes along a run, the first one against the starting band. */
  function Switches(start: Band, ps: seq<Profile>): nat {
    if ps == [] then 0
    else
      var before := if |ps| == 1 then start else ps[|ps| - 2].band;
      Switches(start, ps[..|ps| - 1]) + (if before != ps[|ps| - 1].band then 1 else 0)
  }

  function Variation(ps: seq<Profile>): real {
    if |ps| <= 1 then 0.0
    else Variation(ps[..|ps| - 1]) + Abs(ps[|ps| - 1].confidence - ps[|ps| - 2].confidence)
  }

  function StartBand(start: Option<Profile>): Band { if start.Some? then start.value.band else Trusted }

  /** How much variation the current score has already paid toward the next switch. */
  function Paid(th: Thresholds, p: Profile): real {
    if p.band == Degraded then Max(0.0, p.confidence - th.enter) else Max(0.0, th.exit - p.confidence)
  }

  lemma {:induction false} FlappingPotential(R: Rounding, th: Thresholds, start: Option<Profile>, rs: seq<ToolResult>)
    requires rs != []
    ensures var ps := Profiles(R, th, start, rs);
            var k := Switches(StartBand(start), ps);
            Variation(ps) >= 0.0
            && (k >= 1 ==> Variation(ps) >= Due(k - 1, th.exit - th.enter) + Paid(th, ps[|ps| - 1]))
  {
    hide Profiles, Paid, ApplyHysteresis, Abs, Due;
    var ps := Profiles(R, th, start, rs);
    var front := rs[..|rs| - 1];
    var before := Profiles(R, th, start, front);
    LastProfile(R, th, start, rs);
    var q := ps[|ps| - 1];
    assert ps[..|ps| - 1] == before;
    if front == [] {
      StartPaid(th, StartBand(start), q);
    } else {
      FlappingPotential(R, th, start, front);
      var k := Switches(StartBand(start), before);
      var p := before[|before| - 1];
      assert ps[|ps| - 2] == p;
      assert Variation(ps) == Variation(before) + Abs(q.confidence - p.confidence);
      PaysForSwitch(th, p, q);
      StartPaid(th, p.band, q);
      DueStep(k, th.exit - th.enter);
    }
    DueStep(0, th.exit - th.enter);
  }

  function Due(k: int, gap: real): real { k as real * gap }

  lemma DueStep(k: int, gap: real)
    ensures Due(0, gap) == 0.0
    ensures Due(k, gap) == Due(k - 1, gap) + gap
  {
  }

  lemma DueIs(k: int, gap: real)
    ensures Due(k, gap) == k as real * gap
  {
  }

  lemma NoSwitches(start: Band)
    ensures Switches(start, []) == 0
  {
  }

  lemma PaidNonNegative(th: Thresholds, p: Profile)
    ensures Paid(th, p) >= 0.0
  {
  }

  lemma LastProfile(R: Rounding, th: Thresholds, start: Option<Profile>, rs: seq<ToolResult>)
    requires rs != []
    ensures var ps := Profiles(R, th, start, rs);
            var before := Profiles(R, th, start, rs[..|rs| - 1]);
            var band := if before == [] then StartBand(start) else before[|before| - 1].band;
            && ps == before + [ps[|ps| - 1]]
            && ps[|ps| - 1].band == ApplyHysteresis(th, band, ps[|ps| - 1].confidence)
  {
    hide ComputeConfidence, NextMean, ApplyHysteresis;
  }

  /** Right after a switch nothing has been paid toward the next one. */
  lemma StartPaid(th: Thresholds, before: Band, q: Profile)
    requires q.band == ApplyHysteresis(th, before, q.confidence)
    ensures before != q.band ==> Paid(th, q) == 0.0
  {
  }

  /** One result: the score movement covers the gap of a switch, or what a later switch has been paid. */
  lemma PaysForSwitch(th: Thresholds, p: Profile, q: Profile)
    requires q.band == ApplyHysteresis(th, p.band, q.confidence)
    ensures Paid(th, p) + Abs(q.confidence - p.confidence)
         >= Paid(th, q) + (if p.band != q.band then th.exit - th.enter else 0.0)
  {
  }

  /**
   * k switches need at least (k - 1) times the gap between the thresholds in score movement, for any
   * thresholds, any starting profile and any results.
   */
  lemma NoFlapping(R: Rounding, th: Thresholds, start: Option<Profile>, rs: seq<ToolResult>)
    requires Switches(StartBand(start), Profiles(R, th, start, rs)) >= 1
    ensures var ps := Profiles(R, th, start, rs);
            (Switches(StartBand(start), ps) - 1) as real * (th.exit - th.enter) <= Variation(ps)
  {
    hide Profiles, Switches, Variation, Paid, Due;
    var ps := Profiles(R, th, start, rs);
    NoSwitches(StartBand(start));
    FlappingPotential(R, th, start, rs);
    PaidNonNegative(th, ps[|ps| - 1]);
    var k, gap := Switches(StartBand(start), ps) - 1, th.exit - th.enter;
    DueIs(k, gap);
    assert Variation(ps) >= Due(k, gap);
  }

  /** With the configured thresholds a switch costs 0.12 of score movement. */
  lemma DefaultFlapping(R: Rounding, start: Option<Profile>, rs: seq<ToolResult>)
    requires Switches(StartBand(start), Profiles(R, DEFAULT_THRESHOLDS, start, rs)) >= 1
    ensures var ps := Profiles(R, DEFAULT_THRESHOLDS, start, rs);
            (Switches(StartBand(start), ps) - 1) as real * 0.12 <= Variation(ps)
  {
    hide Profiles, Switches, Variation;
    NoFlapping(R, DEFAULT_THRESHOLDS, start, rs);
    assert DEFAULT_THRESHOLDS.exit - DEFAULT_THRESHOLDS.enter == 0.12;
  }

  // ---- A rounding and a run that degrades ---------------------------------

  function HalfUp(x: real, unit: real): real
    requires unit > 0.0
  {
    Grid((x / unit + 0.5).Floor, unit)
  }

  const HALF_UP := Rounding((x: real) => HalfUp(x, UNIT4), (x: real) => HalfUp(x, UNIT2))

  /** Roundings of the assumed kind exist. */
  lemma HalfUpIsValid()
    ensures HALF_UP.Valid()
  {
    forall x: real ensures Nearest(x, HALF_UP.round4(x), UNIT4) && Nearest(x, HALF_UP.round2(x), UNIT2) {
      HalfUpNearest(x, UNIT4);
      HalfUpNearest(x, UNIT2);
    }
  }

  lemma HalfUpNearest(x: real, unit: real)
    requires unit > 0.0
    ensures Nearest(x, HalfUp(x, unit), unit)
  {
    hide Prod;
    var q, k := x / unit, (x / unit + 0.5).Floor;
    var d := q - k as real;
    ProdIs(q, unit);
    ProdIs(k as real, unit);
    ProdIs(0.5, unit);
    Distribute(k as real, d, unit);
    assert k as real + d == q;
    ScaleBound(d, 0.5, unit);
    assert Prod(q, unit) == x;
  }

  lemma ProdIs(a: real, b: real)
    ensures Prod(a, b) == a * b
  {
  }

  /** The profile a tool has after one failed call that timed out at once. */
  function TimedOutProfile(R: Rounding): Profile {
    UpdateFromResult(R, DEFAULT_THRESHOLDS, None, ToolResult(false, true, 0), 1.0, 0.0)
  }

  /** One such call is enough to have an optional tool skipped: band DEGRADED and confidence 0.4. */
  lemma OneTimeoutDegrades(R: Rounding)
    requires R.Valid()
    ensures TimedOutProfile(R).band == Degraded && TimedOutProfile(R).confidence == 0.4
  {
    hide Grid;
    FirstMean(1.0, 0.0, 0.0);
    FirstMean(0.0, 0.0, 1.0);
    GridFourTenths();
    assert Nearest(0.4, R.round4(0.4), UNIT4);
    NearestOnGrid(4000, R.round4(0.4), UNIT4);
  }

  lemma GridFourTenths()
    ensures Grid(4000, UNIT4) == 0.4
  {
  }
}
