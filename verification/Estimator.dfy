/** The sliding-window speed estimator over absolute byte counters. Time is in
    nanoseconds. */
module Estimator {
  import opened Arithmetic
  import opened Ranges

  const MAX_SAFE_INTEGER: nat := 9_007_199_254_740_991
  const NANOS: nat := 1_000_000_000
  const MIN_RATE_SPAN: nat := 500_000_000
  const MAX_RATE_SAMPLES: nat := 256
  const STABILITY_RATIO: nat := 4

  datatype RateSample = RateSample(at: nat, bytes: nat)

  datatype Estimate = Estimate(speed: Option<nat>, eta: Option<nat>, stable: bool)

  predicate Chronological(s: seq<RateSample>) {
    forall i, j :: 0 <= i < j < |s| ==> s[i].at < s[j].at && s[i].bytes <= s[j].bytes
  }

  /** `floor(bytes / seconds)`, clamped to the largest safe integer. */
  function Rate(bytes: nat, nanos: nat): nat {
    if nanos == 0 then 0
    else if bytes * NANOS / nanos < MAX_SAFE_INTEGER then bytes * NANOS / nanos else MAX_SAFE_INTEGER
  }

  function RateBetween(a: RateSample, b: RateSample): nat
    requires a.bytes <= b.bytes && a.at <= b.at
  {
    Rate(b.bytes - a.bytes, b.at - a.at)
  }

  function IntervalCount(s: seq<RateSample>): nat { if s == [] then 0 else |s| - 1 }

  function IntervalRates(s: seq<RateSample>): (rates: seq<nat>)
    requires Chronological(s)
    ensures |rates| == IntervalCount(s)
  {
    seq(IntervalCount(s), (i: nat) requires i < IntervalCount(s) => RateBetween(s[i], s[i + 1]))
  }

  lemma IntervalRateAt(s: seq<RateSample>, i: nat)
    requires Chronological(s) && i < IntervalCount(s)
    ensures IntervalRates(s)[i] == Rate(s[i + 1].bytes - s[i].bytes, s[i + 1].at - s[i].at)
  { }

  predicate Stable(rates: seq<nat>) {
    && |rates| >= 2
    && ((forall i :: 0 <= i < |rates| ==> rates[i] == 0)
        || (forall i, j :: 0 <= i < |rates| && 0 <= j < |rates| ==> 0 < rates[i] <= rates[j] * STABILITY_RATIO))
  }

  function CeilDiv(n: nat, d: nat): nat
    requires d > 0
  {
    if n % d == 0 then n / d else n / d + 1
  }

  /** The rate over the whole window, once it holds three samples and half a second. */
  function Speed(s: seq<RateSample>): Option<nat>
    requires Chronological(s)
  {
    if |s| < 3 || s[|s| - 1].at - s[0].at < MIN_RATE_SPAN then None
    else Some(Rate(s[|s| - 1].bytes - s[0].bytes, s[|s| - 1].at - s[0].at))
  }

  function TimeLeft(bytes: nat, speed: nat, stable: bool, expected: Option<nat>): Option<nat> {
    if expected == Some(bytes) then Some(0)
    else if expected.Some? && bytes < expected.value && speed > 0 && stable then
      var seconds := CeilDiv(expected.value - bytes, speed);
      Some(if seconds < MAX_SAFE_INTEGER then seconds else MAX_SAFE_INTEGER)
    else None
  }

  function Estimated(s: seq<RateSample>, expected: Option<nat>): Estimate
    requires Chronological(s)
  {
    if s == [] then Estimate(None, None, false)
    else match Speed(s)
      case None => Estimate(None, TimeLeft(s[|s| - 1].bytes, 0, false, expected), false)
      case Some(speed) =>
        var stable := Stable(IntervalRates(s));
        Estimate(Some(speed), TimeLeft(s[|s| - 1].bytes, speed, stable, expected), stable)
  }

  /** The samples kept once a new one arrives. */
  function Extended(s: seq<RateSample>, bytes: nat, now: nat): seq<RateSample> {
    var base := if s != [] && (now < s[|s| - 1].at || bytes < s[|s| - 1].bytes) then [] else s;
    (if base != [] && base[|base| - 1].at == now then base[..|base| - 1] else base) + [RateSample(now, bytes)]
  }

  function Fresh(s: seq<RateSample>, window: nat, now: nat): seq<RateSample> {
    if |s| > 2 && now >= window && s[1].at < now - window then Fresh(s[1..], window, now) else s
  }

  function Newest(s: seq<RateSample>): seq<RateSample> {
    if |s| > MAX_RATE_SAMPLES then Newest(s[1..]) else s
  }

  function Trimmed(s: seq<RateSample>, window: nat, now: nat): seq<RateSample> { Newest(Fresh(s, window, now)) }

  class SpeedEstimator {
    const window: nat
    var samples: seq<RateSample>

    predicate Valid() reads this { Chronological(samples) && |samples| <= MAX_RATE_SAMPLES }

    constructor (span: nat)
      ensures Valid() && samples == [] && window == span
    {
      window, samples := span, [];
    }

    method Reset()
      modifies this
      ensures Valid() && samples == []
    {
      samples := [];
    }

    method SampleAt(bytes: nat, expected: Option<nat>, now: nat) returns (estimate: Estimate)
      requires Valid()
      modifies this
      ensures Valid()
      ensures samples == Trimmed(Extended(old(samples), bytes, now), window, now)
      ensures estimate == Estimated(samples, expected)
    {
      if samples != [] && (now < samples[|samples| - 1].at || bytes < samples[|samples| - 1].bytes) { samples := []; }
      if samples != [] && samples[|samples| - 1].at == now { samples := samples[..|samples| - 1]; }
      samples := samples + [RateSample(now, bytes)];
      ExtendedStaysChronological(old(samples), bytes, now);
      Trim(now);
      estimate := CurrentEstimate(expected);
    }

    method Trim(now: nat)
      requires Chronological(samples)
      modifies this
      ensures samples == Trimmed(old(samples), window, now)
      ensures Valid()
    {
      TrimmedIsSuffix(samples, window, now);
      while |samples| > 2 && now >= window && samples[1].at < now - window
        invariant Fresh(samples, window, now) == Fresh(old(samples), window, now)
        decreases |samples|
      {
        samples := samples[1..];
      }
      while |samples| > MAX_RATE_SAMPLES
        invariant Newest(samples) == Trimmed(old(samples), window, now)
        decreases |samples|
      {
        samples := samples[1..];
      }
    }

    method CurrentEstimate(expected: Option<nat>) returns (estimate: Estimate)
      requires Valid()
      ensures estimate == Estimated(samples, expected)
    {
      if samples == [] { return Estimate(None, None, false); }
      var first, last := samples[0], samples[|samples| - 1];
      if |samples| < 3 || last.at - first.at < MIN_RATE_SPAN {
        return Estimate(None, TimeLeft(last.bytes, 0, false, expected), false);
      }
      var speed := Rate(last.bytes - first.bytes, last.at - first.at);
      assert Speed(samples) == Some(speed);
      var rates := CollectRates();
      var stable := RatesAreStable(rates);
      return Estimate(Some(speed), TimeLeft(last.bytes, speed, stable, expected), stable);
    }

    method CollectRates() returns (rates: seq<nat>)
      requires Valid() && samples != []
      ensures rates == IntervalRates(samples)
    {
      rates := [];
      for i := 1 to |samples|
        invariant |rates| == i - 1
        invariant forall j :: 0 <= j < i - 1 ==> rates[j] == IntervalRates(samples)[j]
      {
        IntervalRateAt(samples, i - 1);
        rates := rates + [Rate(samples[i].bytes - samples[i - 1].bytes, samples[i].at - samples[i - 1].at)];
      }
    }

    static method RatesAreStable(rates: seq<nat>) returns (stable: bool)
      ensures stable == Stable(rates)
    {
      if |rates| < 2 { return false; }
      var minimum, maximum := rates[0], rates[0];
      var low, high := 0, 0;
      for i := 1 to |rates|
        invariant 0 <= low < i && 0 <= high < i && rates[low] == minimum && rates[high] == maximum
        invariant forall j :: 0 <= j < i ==> minimum <= rates[j] <= maximum
      {
        if rates[i] < minimum { minimum, low := rates[i], i; }
        if rates[i] > maximum { maximum, high := rates[i], i; }
      }
      if maximum == 0 { return true; }
      stable := minimum > 0 && maximum <= minimum * STABILITY_RATIO;
      assert stable || !(0 < rates[low] && rates[high] <= rates[low] * STABILITY_RATIO);
    }
  }

  // ---------- The window ----------

  lemma ExtendedStaysChronological(s: seq<RateSample>, bytes: nat, now: nat)
    requires Chronological(s)
    ensures Chronological(Extended(s, bytes, now))
    ensures Extended(s, bytes, now)[|Extended(s, bytes, now)| - 1] == RateSample(now, bytes)
  { }

  /** Trimming keeps the newest samples, at most 256 of them, and at most one that
      is older than the window. */
  lemma TrimmedIsSuffix(s: seq<RateSample>, window: nat, now: nat)
    ensures var t := Trimmed(s, window, now);
      && Suffix(t, s) && |t| <= MAX_RATE_SAMPLES && (s != [] ==> t != [])
      && (Chronological(s) ==> Chronological(t) && (|t| > 2 && now >= window ==> t[1].at >= now - window))
  {
    var f := Fresh(s, window, now);
    FreshIsSuffix(s, window, now);
    NewestIsSuffix(f);
    SuffixOfSuffix(Newest(f), f, s);
    if Chronological(s) {
      SuffixKeepsOrder(f, s);
      SuffixKeepsOrder(Newest(f), f);
    }
  }

  /** The samples before `now`. */
  function Earlier(s: seq<RateSample>, now: nat): seq<RateSample> {
    if s == [] then [] else (if s[0].at < now then [s[0]] else []) + Earlier(s[1..], now)
  }

  /** Some sample is later than `now` or counts more than `bytes`. */
  predicate WentBack(s: seq<RateSample>, bytes: nat, now: nat) {
    exists i :: 0 <= i < |s| && (s[i].at > now || s[i].bytes > bytes)
  }

  lemma WentBackAtLast(s: seq<RateSample>, bytes: nat, now: nat)
    requires Chronological(s)
    ensures WentBack(s, bytes, now) <==> s != [] && (s[|s| - 1].at > now || s[|s| - 1].bytes > bytes)
  {
    if s != [] {
      var last := s[|s| - 1];
      assert forall i :: 0 <= i < |s| ==> s[i].at <= last.at && s[i].bytes <= last.bytes;
    }
  }

  /** A clock or a counter that went back starts the window again; otherwise every
      earlier sample is kept, and one of the same instant is replaced. */
  lemma ExtendedExactly(s: seq<RateSample>, bytes: nat, now: nat)
    requires Chronological(s)
    ensures Extended(s, bytes, now) ==
      (if WentBack(s, bytes, now) then [] else Earlier(s, now)) + [RateSample(now, bytes)]
  {
    WentBackAtLast(s, bytes, now);
    if s != [] && s[|s| - 1].at <= now { EarlierIsPrefix(s, now); }
  }

  lemma {:induction false} EarlierIsPrefix(s: seq<RateSample>, now: nat)
    requires Chronological(s) && s != [] && s[|s| - 1].at <= now
    ensures Earlier(s, now) == if s[|s| - 1].at == now then s[..|s| - 1] else s
  {
    if |s| > 1 {
      EarlierIsPrefix(s[1..], now);
      assert s[0].at < s[|s| - 1].at;
      assert s == [s[0]] + s[1..] && s[..|s| - 1] == [s[0]] + s[1..][..|s| - 2];
    } else {
      assert s == [s[0]] && Earlier(s[1..], now) == [];
    }
  }

  /** A sample is dropped only for a newer one that is itself older than the window
      while three are held, or to make room for the 256 newest. */
  lemma TrimmedDropsOnlyOld(s: seq<RateSample>, window: nat, now: nat, k: nat)
    requires k < |s| - |Trimmed(s, window, now)|
    ensures k + 256 < |s| || (k + 2 < |s| && window <= now && s[k + 1].at < now - window)
  {
    FreshIsSuffix(s, window, now);
    var f := Fresh(s, window, now);
    NewestIsSuffix(f);
    if k < |s| - |f| { FreshDropsOld(s, window, now, k); } else { NewestDropsFew(f); }
  }

  lemma {:induction false} FreshDropsOld(s: seq<RateSample>, window: nat, now: nat, k: nat)
    requires k < |s| - |Fresh(s, window, now)|
    ensures k + 2 < |s| && window <= now && s[k + 1].at < now - window
  {
    if k > 0 { FreshDropsOld(s[1..], window, now, k - 1); }
  }

  lemma {:induction false} NewestDropsFew(s: seq<RateSample>)
    ensures |s| >= 256 ==> |Newest(s)| == 256
  {
    if |s| > MAX_RATE_SAMPLES { NewestDropsFew(s[1..]); }
  }

  lemma SuffixOfSuffix(t: seq<RateSample>, f: seq<RateSample>, s: seq<RateSample>)
    requires Suffix(t, f) && Suffix(f, s)
    ensures Suffix(t, s)
  {
    assert f[|f| - |t|..] == s[|s| - |t|..];
  }

  lemma SuffixKeepsOrder(t: seq<RateSample>, s: seq<RateSample>)
    requires Suffix(t, s) && Chronological(s)
    ensures Chronological(t) && (|t| > 2 ==> t[1].at >= s[1].at)
  {
    assert forall i :: 0 <= i < |t| ==> t[i] == s[|s| - |t| + i];
  }

  predicate Suffix(t: seq<RateSample>, s: seq<RateSample>) { |t| <= |s| && t == s[|s| - |t|..] }

  lemma {:induction false} FreshIsSuffix(s: seq<RateSample>, window: nat, now: nat)
    ensures var t := Fresh(s, window, now);
      Suffix(t, s) && (s != [] ==> t != []) && (|t| > 2 && now >= window ==> t[1].at >= now - window)
  {
    if |s| > 2 && now >= window && s[1].at < now - window {
      FreshIsSuffix(s[1..], window, now);
      var t := Fresh(s[1..], window, now);
      assert s[1..][|s[1..]| - |t|..] == s[|s| - |t|..];
    }
  }

  lemma {:induction false} NewestIsSuffix(s: seq<RateSample>)
    ensures Suffix(Newest(s), s) && |Newest(s)| <= MAX_RATE_SAMPLES && (s != [] ==> Newest(s) != [])
    ensures |s| <= MAX_RATE_SAMPLES ==> Newest(s) == s
  {
    if |s| > MAX_RATE_SAMPLES {
      NewestIsSuffix(s[1..]);
      var t := Newest(s[1..]);
      assert s[1..][|s[1..]| - |t|..] == s[|s| - |t|..];
    }
  }

  // ---------- The reported speed ----------

  lemma RateBounds(bytes: nat, nanos: nat)
    requires nanos > 0
    ensures Rate(bytes, nanos) * nanos <= bytes * NANOS
    ensures Rate(bytes, nanos) < MAX_SAFE_INTEGER ==> bytes * NANOS < (Rate(bytes, nanos) + 1) * nanos
  {
    var exact := bytes * NANOS / nanos;
    assert exact * nanos <= bytes * NANOS < (exact + 1) * nanos by { DivideBounds(bytes * NANOS, nanos); }
    if exact >= MAX_SAFE_INTEGER { Monotone(MAX_SAFE_INTEGER, exact, nanos); }
  }

  lemma AtLeast(m: nat, bytes: nat, nanos: nat)
    requires nanos > 0 && m * nanos <= bytes * NANOS && m <= MAX_SAFE_INTEGER
    ensures m <= Rate(bytes, nanos)
  {
    var exact := bytes * NANOS / nanos;
    DivideBounds(bytes * NANOS, nanos);
    if exact < m { Monotone(exact + 1, m, nanos); }
  }

  lemma AtMost(m: nat, bytes: nat, nanos: nat)
    requires nanos > 0 && bytes * NANOS < (m + 1) * nanos
    ensures Rate(bytes, nanos) <= m
  {
    var exact := bytes * NANOS / nanos;
    DivideBounds(bytes * NANOS, nanos);
    if exact > m { Monotone(m + 1, exact, nanos); }
  }

  /** `m` bytes per second is at most the exact rate from `a` to `b`. */
  predicate Below(m: nat, a: RateSample, b: RateSample)
    requires a.at <= b.at && a.bytes <= b.bytes
  {
    m * (b.at - a.at) <= (b.bytes - a.bytes) * NANOS
  }

  /** The exact rate from `a` to `b` is less than `m` bytes per second. */
  predicate Above(m: nat, a: RateSample, b: RateSample)
    requires a.at <= b.at && a.bytes <= b.bytes
  {
    (b.bytes - a.bytes) * NANOS < m * (b.at - a.at)
  }

  lemma Spans(m: nat, a: RateSample, b: RateSample, c: RateSample)
    requires a.at <= b.at <= c.at && a.bytes <= b.bytes <= c.bytes
    ensures Below(m, a, b) && Below(m, b, c) ==> Below(m, a, c)
    ensures Above(m, a, b) && Above(m, b, c) ==> Above(m, a, c)
  {
    var x, y := b.at - a.at, c.at - b.at;
    assert m * (x + y) == m * x + m * y;
  }

  predicate BelowFrom(s: seq<RateSample>, i: nat, m: nat)
    requires Chronological(s) && i + 1 < |s|
  {
    Below(m, s[i], s[i + 1])
  }

  predicate AboveFrom(s: seq<RateSample>, i: nat, m: nat)
    requires Chronological(s) && i + 1 < |s|
  {
    Above(m, s[i], s[i + 1])
  }

  /** A rate that bounds every interval bounds the whole. */
  lemma {:induction false} IntervalsBoundBelow(s: seq<RateSample>, m: nat)
    requires Chronological(s) && |s| >= 2
    requires forall i :: 0 <= i < |s| - 1 ==> BelowFrom(s, i, m)
    ensures Below(m, s[0], s[|s| - 1])
  {
    assert BelowFrom(s, 0, m);
    if |s| > 2 {
      var rest := s[1..];
      forall i | 0 <= i < |rest| - 1 ensures BelowFrom(rest, i, m) { assert BelowFrom(s, i + 1, m); }
      IntervalsBoundBelow(rest, m);
      Spans(m, s[0], s[1], s[|s| - 1]);
    }
  }

  lemma {:induction false} IntervalsBoundAbove(s: seq<RateSample>, m: nat)
    requires Chronological(s) && |s| >= 2
    requires forall i :: 0 <= i < |s| - 1 ==> AboveFrom(s, i, m)
    ensures Above(m, s[0], s[|s| - 1])
  {
    assert AboveFrom(s, 0, m);
    if |s| > 2 {
      var rest := s[1..];
      forall i | 0 <= i < |rest| - 1 ensures AboveFrom(rest, i, m) { assert AboveFrom(s, i + 1, m); }
      IntervalsBoundAbove(rest, m);
      Spans(m, s[0], s[1], s[|s| - 1]);
    }
  }

  lemma RateIsBelow(a: RateSample, b: RateSample, low: nat, high: nat)
    requires a.at < b.at && a.bytes <= b.bytes
    requires low <= Rate(b.bytes - a.bytes, b.at - a.at) <= high
    ensures Below(low, a, b)
    ensures high < MAX_SAFE_INTEGER ==> Above(high + 1, a, b)
  {
    var rate := Rate(b.bytes - a.bytes, b.at - a.at);
    RateBounds(b.bytes - a.bytes, b.at - a.at);
    Monotone(low, rate, b.at - a.at);
    Monotone(rate + 1, high + 1, b.at - a.at);
  }

  lemma BoundsRate(a: RateSample, b: RateSample, low: nat, high: nat)
    requires a.at < b.at && a.bytes <= b.bytes && low <= MAX_SAFE_INTEGER
    requires Below(low, a, b) && (high < MAX_SAFE_INTEGER ==> Above(high + 1, a, b))
    ensures low <= Rate(b.bytes - a.bytes, b.at - a.at) <= high
  {
    AtLeast(low, b.bytes - a.bytes, b.at - a.at);
    if high < MAX_SAFE_INTEGER { AtMost(high, b.bytes - a.bytes, b.at - a.at); }
  }

  /** Both reported numbers are safe integers. */
  lemma EstimateIsSafe(s: seq<RateSample>, expected: Option<nat>)
    requires Chronological(s)
    ensures var e := Estimated(s, expected);
      && (e.speed.Some? ==> e.speed.value <= MAX_SAFE_INTEGER) && (e.eta.Some? ==> e.eta.value <= MAX_SAFE_INTEGER)
  { }

  /** Despite flooring and clamping, the reported speed lies between the smallest
      and the largest reported interval rate. */
  lemma SpeedIsBetweenIntervalRates(s: seq<RateSample>, low: nat, high: nat)
    requires Chronological(s) && Speed(s).Some?
    requires forall i :: 0 <= i < |IntervalRates(s)| ==> low <= IntervalRates(s)[i] <= high
    ensures low <= Speed(s).value <= high
  {
    var above := high + 1;
    forall i | 0 <= i < |s| - 1 ensures BelowFrom(s, i, low) && (high < MAX_SAFE_INTEGER ==> AboveFrom(s, i, above)) {
      IntervalIsBounded(s, i, low, high);
    }
    IntervalRateAt(s, 0);
    assert low <= IntervalRates(s)[0] <= MAX_SAFE_INTEGER;
    WholeRate(s, low, high, above);
  }

  /** A speed is reported from three samples over half a second: the floor of the
      bytes per second between the first and the last. */
  lemma SpeedExactly(s: seq<RateSample>)
    requires Chronological(s)
    ensures Speed(s).Some? <==> |s| >= 3 && s[|s| - 1].at >= s[0].at + 500_000_000
    ensures Speed(s).Some? ==> FloorOf(Speed(s).value, s[|s| - 1].bytes - s[0].bytes, s[|s| - 1].at - s[0].at)
  {
    if Speed(s).Some? { RateBounds(s[|s| - 1].bytes - s[0].bytes, s[|s| - 1].at - s[0].at); }
  }

  /** `rate` bytes per second is the floor of the exact rate, up to the clamp. */
  predicate FloorOf(rate: nat, bytes: nat, nanos: nat) {
    && rate * nanos <= bytes * 1_000_000_000 && rate <= 9_007_199_254_740_991
    && (rate < 9_007_199_254_740_991 ==> bytes * 1_000_000_000 < (rate + 1) * nanos)
  }

  /** What is reported: the speed, whether no interval was more than four times as
      fast as another, and the time left from the newest sample. */
  lemma EstimateExactly(s: seq<RateSample>, expected: Option<nat>)
    requires Chronological(s)
    ensures var e := Estimated(s, expected);
      && e.speed == Speed(s) && (e.stable <==> e.speed.Some? && Steady(IntervalRates(s)))
      && e.eta == (if s == [] then None
                   else TimeLeft(s[|s| - 1].bytes, if e.speed.Some? then e.speed.value else 0, e.stable, expected))
  {
    SteadyExactly(IntervalRates(s));
  }

  /** No rate is more than four times another. */
  predicate Steady(rates: seq<nat>) {
    |rates| >= 2 && forall i, j :: 0 <= i < |rates| && 0 <= j < |rates| ==> rates[i] <= 4 * rates[j]
  }

  lemma SteadyExactly(rates: seq<nat>)
    ensures Stable(rates) <==> Steady(rates)
  {
    if Steady(rates) && !(forall i :: 0 <= i < |rates| ==> rates[i] == 0) {
      var k :| 0 <= k < |rates| && rates[k] != 0;
      forall i | 0 <= i < |rates| ensures rates[i] > 0 { assert rates[k] <= 4 * rates[i]; }
    }
  }

  lemma IntervalIsBounded(s: seq<RateSample>, i: nat, low: nat, high: nat)
    requires Chronological(s) && i + 1 < |s| && low <= IntervalRates(s)[i] <= high
    ensures BelowFrom(s, i, low) && (high < MAX_SAFE_INTEGER ==> AboveFrom(s, i, high + 1))
  {
    IntervalRateAt(s, i);
    RateIsBelow(s[i], s[i + 1], low, high);
  }

  lemma WholeRate(s: seq<RateSample>, low: nat, high: nat, above: nat)
    requires Chronological(s) && |s| >= 2 && low <= MAX_SAFE_INTEGER && above == high + 1
    requires forall i :: 0 <= i < |s| - 1 ==> BelowFrom(s, i, low)
    requires high < MAX_SAFE_INTEGER ==> forall i :: 0 <= i < |s| - 1 ==> AboveFrom(s, i, above)
    ensures low <= Rate(s[|s| - 1].bytes - s[0].bytes, s[|s| - 1].at - s[0].at) <= high
  {
    IntervalsBoundBelow(s, low);
    if high < MAX_SAFE_INTEGER { IntervalsBoundAbove(s, above); }
    BoundsRate(s[0], s[|s| - 1], low, high);
  }

  // ---------- The reported time left ----------

  predicate Covers(seconds: nat, speed: nat, done: nat, size: nat) { seconds * speed >= size - done }

  lemma CeilIsLeast(done: nat, size: nat, speed: nat)
    requires speed > 0 && done < size
    ensures Covers(CeilDiv(size - done, speed), speed, done, size)
    ensures forall k: nat :: Covers(k, speed, done, size) ==> CeilDiv(size - done, speed) <= k
  {
    var c := CeilDiv(size - done, speed);
    CeilBounds(size - done, speed);
    forall k: nat | k < c ensures !Covers(k, speed, done, size) { Monotone(k, c - 1, speed); }
  }

  lemma CeilBounds(n: nat, d: nat)
    requires d > 0 && n > 0
    ensures CeilDiv(n, d) > 0 && (CeilDiv(n, d) - 1) * d < n <= CeilDiv(n, d) * d
  {
    var q := n / d;
    assert n == q * d + n % d;
    assert (q + 1) * d == q * d + d && (q - 1) * d == q * d - d;
  }

  /** A time left of zero is reported exactly for a complete file. A nonzero one
      is the least whole number of seconds that covers the remaining bytes at the
      reported speed, or the safe-integer clamp below it; it needs a stable and
      positive speed, and any such speed gives one. */
  lemma TimeLeftIsLeast(done: nat, speed: nat, stable: bool, size: nat)
    ensures var eta := TimeLeft(done, speed, stable, Some(size));
      && (eta == Some(0) <==> size == done)
      && (eta.Some? && eta.value > 0 <==> done < size && stable && speed > 0)
      && (eta.Some? && eta.value > 0 ==>
           && eta.value <= MAX_SAFE_INTEGER
           && (eta.value < MAX_SAFE_INTEGER ==> Covers(eta.value, speed, done, size))
           && (forall k: nat :: Covers(k, speed, done, size) ==> eta.value <= k))
  {
    if done < size && speed > 0 {
      CeilBounds(size - done, speed);
      CeilIsLeast(done, size, speed);
    }
  }
}
