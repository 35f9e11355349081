/** Bounded retries: one budget shared by probes, the single revalidation after
    a 416 and transfers. Durations are in nanoseconds unless named otherwise. */
module Retry {
  import opened Arithmetic
  import opened Ranges

  const MILLISECOND: nat := 1_000_000
  const SECOND: nat := 1_000_000_000

  datatype RetryPolicy = RetryPolicy(maximumRetries: nat, baseDelay: nat, maximumDelay: nat, maximumRetryAfter: nat)

  /** `n` doubled `times` times. */
  function Doubled(n: nat, times: nat): (d: nat)
    ensures d >= n
  {
    if times == 0 then n else 2 * Doubled(n, times - 1)
  }

  /** The capped exponential for a one-based retry number, in milliseconds. */
  function CapMillis(p: RetryPolicy, number: nat): nat
    requires number > 0
  {
    var raw := Doubled(p.baseDelay, number - 1);
    (if raw < p.maximumDelay then raw else p.maximumDelay) / MILLISECOND
  }

  /** The delay in milliseconds, or `None` when no retry may be made. */
  function DelayFor(p: RetryPolicy, number: nat, retryAfter: Option<nat>, entropy: nat): Option<nat> {
    if number == 0 || number > p.maximumRetries then None else
    var ceiling := CapMillis(p, number);
    var floor := ceiling / 2;
    var jittered := floor + entropy % (ceiling - floor + 1);
    if retryAfter.None? then Some(jittered)
    else if retryAfter.value * SECOND > p.maximumRetryAfter then None
    else if retryAfter.value * 1000 > jittered then Some(retryAfter.value * 1000)
    else Some(jittered)
  }

  /** What a scheduled delay promises. */
  predicate DelayKept(p: RetryPolicy, number: nat, retryAfter: Option<nat>, delay: nat)
    requires number > 0
  {
    && CapMillis(p, number) / 2 <= delay
    && (delay <= CapMillis(p, number) || (retryAfter.Some? && delay == retryAfter.value * 1000))
    && (retryAfter.Some? ==> delay >= retryAfter.value * 1000 && retryAfter.value * SECOND <= p.maximumRetryAfter)
  }

  /** A delay lies between half the capped exponential and the cap unless it is
      raised exactly to accepted guidance; none is given beyond the budget or for
      guidance that would have to be cut short. */
  lemma DelayIsBounded(p: RetryPolicy, number: nat, retryAfter: Option<nat>, entropy: nat)
    ensures var d := DelayFor(p, number, retryAfter, entropy);
      && (d.Some? <==> (0 < number <= p.maximumRetries
            && (retryAfter.Some? ==> retryAfter.value * SECOND <= p.maximumRetryAfter)))
      && (d.Some? ==> DelayKept(p, number, retryAfter, d.value))
  { }

  /** Every delay of that interval is given for some entropy, and guidance raises
      a delay but never lowers it. */
  lemma JitterReachesAll(p: RetryPolicy, number: nat, delay: nat)
    requires 0 < number <= p.maximumRetries
    requires CapMillis(p, number) / 2 <= delay <= CapMillis(p, number)
    ensures exists entropy: nat ::
      && DelayFor(p, number, None, entropy) == Some(delay)
      && forall seconds: nat | seconds * SECOND <= p.maximumRetryAfter ::
           DelayFor(p, number, Some(seconds), entropy) ==
           Some(if seconds * 1000 > delay then seconds * 1000 else delay)
  {
    var entropy := delay - CapMillis(p, number) / 2;
    QuotientIs(entropy, CapMillis(p, number) - CapMillis(p, number) / 2 + 1, 0);
    assert DelayFor(p, number, None, entropy) == Some(delay);
  }

  lemma {:induction false} DoublingScales(n: nat, unit: nat, times: nat)
    ensures Doubled(n * unit, times) == Doubled(n, times) * unit
  {
    if times > 0 {
      DoublingScales(n, unit, times - 1);
      assert 2 * (Doubled(n, times - 1) * unit) == (2 * Doubled(n, times - 1)) * unit;
    }
  }

  lemma CapInMillis(p: RetryPolicy, base: nat, maximum: nat, number: nat)
    requires p.baseDelay == base * MILLISECOND && p.maximumDelay == maximum * MILLISECOND && number > 0
    ensures var raw := Doubled(base, number - 1);
      CapMillis(p, number) == if raw < maximum then raw else maximum
  {
    DoublingScales(base, MILLISECOND, number - 1);
  }

  /** The caps start at the base delay and double until the maximum. */
  lemma CapsDouble(p: RetryPolicy, base: nat, maximum: nat, number: nat)
    requires p.baseDelay == base * MILLISECOND && p.maximumDelay == maximum * MILLISECOND && number > 0
    ensures CapMillis(p, 1) == (if base < maximum then base else maximum)
    ensures var twice := 2 * CapMillis(p, number);
      CapMillis(p, number + 1) == if twice < maximum then twice else maximum
  {
    CapInMillis(p, base, maximum, 1);
    CapInMillis(p, base, maximum, number);
    CapInMillis(p, base, maximum, number + 1);
  }

  lemma {:induction false} DoublingGrows(n: nat, a: nat, b: nat)
    requires a <= b
    ensures Doubled(n, a) <= Doubled(n, b)
    decreases b
  {
    if a < b { DoublingGrows(n, a, b - 1); }
  }

  /** Later retries never wait for a smaller cap. */
  lemma CapsNeverShrink(p: RetryPolicy, a: nat, b: nat)
    requires 0 < a <= b
    ensures CapMillis(p, a) <= CapMillis(p, b) <= p.maximumDelay / MILLISECOND
  {
    DoublingGrows(p.baseDelay, a - 1, b - 1);
  }

  // ---------- A run ----------

  function Reduced(workers: nat): nat { match workers case 8 => 4 case 4 => 2 case _ => 1 }

  predicate Retryable(status: nat) {
    match status
    case 408 | 425 | 429 | 500 | 502 | 503 | 504 => true
    case _ => false
  }

  datatype ProbeResult = Probed | Lost | Refused(status: nat, retryAfter: Option<nat>) | Invalid | Withdrawn

  datatype TransferResult =
    | Finished | CheckpointFailed | Cancelled | Broken | Answered(code: nat, guidance: Option<nat>) | Unusable

  /** Everything a run learns from outside, by the number of the call. */
  datatype Oracle = Oracle(
    probe: nat -> ProbeResult,
    transfer: nat -> TransferResult,
    boundary: nat -> bool,
    sameResource: bool,
    cancelled: nat -> bool,
    waited: nat -> bool,
    entropy: nat -> nat)

  datatype Ending = Publishing | Stopping | Failing

  /** The call a wait follows, by its number. */
  datatype Cause = AfterProbe(asked: nat) | AfterTransfer(sent: nat)

  datatype Wait = Wait(cause: Cause, delay: nat)

  // ---------- What is worth another try ----------

  const WORTH_RETRYING: set<nat> := {408, 425, 429, 500, 502, 503, 504}

  predicate ProbeRetries(o: Oracle, i: nat) {
    o.probe(i) == Lost || (o.probe(i).Refused? && o.probe(i).status in WORTH_RETRYING)
  }

  predicate Unsatisfied(o: Oracle, i: nat) { o.transfer(i).Answered? && o.transfer(i).code == 416 }

  predicate FirstUnsatisfied(o: Oracle, i: nat) { Unsatisfied(o, i) && forall j: nat :: j < i ==> !Unsatisfied(o, j) }

  /** The transfer ended by itself and its coverage was checkpointed. */
  predicate Passed(o: Oracle, i: nat) {
    o.transfer(i) !in {CheckpointFailed, Cancelled} && o.boundary(i) && !o.cancelled(i)
  }

  predicate TransferRetries(o: Oracle, i: nat) {
    && Passed(o, i)
    && (o.transfer(i) == Broken || (o.transfer(i).Answered? && o.transfer(i).code in WORTH_RETRYING)
        || (FirstUnsatisfied(o, i) && o.sameResource))
  }

  predicate Retries(o: Oracle, cause: Cause) {
    match cause
    case AfterProbe(i) => ProbeRetries(o, i)
    case AfterTransfer(i) => TransferRetries(o, i)
  }

  /** The Retry-After of the answer; a revalidated 416 has none. */
  function Guidance(o: Oracle, cause: Cause): Option<nat> {
    match cause
    case AfterProbe(i) => if o.probe(i).Refused? then o.probe(i).retryAfter else None
    case AfterTransfer(i) => if o.transfer(i).Answered? && !Unsatisfied(o, i) then o.transfer(i).guidance else None
  }

  /** The budget is spent, or the server asks for a longer pause than accepted. */
  predicate Exhausted(p: RetryPolicy, o: Oracle, waits: seq<Wait>, cause: Cause) {
    var guidance := Guidance(o, cause);
    |waits| >= p.maximumRetries || (guidance.Some? && guidance.value * SECOND > p.maximumRetryAfter)
  }

  /** Every wait used one number of the budget, in order, for a call worth it. */
  predicate Waits(p: RetryPolicy, o: Oracle, waits: seq<Wait>) {
    |waits| <= p.maximumRetries
    && forall i :: 0 <= i < |waits| ==>
         && Retries(o, waits[i].cause)
         && DelayKept(p, i + 1, Guidance(o, waits[i].cause), waits[i].delay)
  }

  predicate Made(cause: Cause, probes: nat, transfers: nat) {
    match cause case AfterProbe(i) => i < probes case AfterTransfer(i) => i < transfers
  }

  /** The causes are calls made so far, none twice. */
  predicate Caused(waits: seq<Wait>, probes: nat, transfers: nat) {
    && (forall i :: 0 <= i < |waits| ==> Made(waits[i].cause, probes, transfers))
    && (forall i, j :: 0 <= i < j < |waits| ==> waits[i].cause != waits[j].cause)
  }

  /** The last wait was cut short by a cancellation. */
  predicate CutShort(o: Oracle, waits: seq<Wait>) { waits != [] && !o.waited(|waits| - 1) }

  predicate AllWaited(o: Oracle, waits: nat) { forall i: nat :: i < waits ==> o.waited(i) }

  /** The books between two calls: every wait so far ran to its end. */
  predicate Booked(p: RetryPolicy, o: Oracle, waits: seq<Wait>, probes: nat, transfers: nat) {
    Waits(p, o, waits) && Caused(waits, probes, transfers) && AllWaited(o, |waits|)
  }

  // ---------- The loops ----------

  /** `schedule_retry`. */
  method ScheduleRetry(p: RetryPolicy, o: Oracle, cause: Cause, guidance: Option<nat>, waits: seq<Wait>)
    returns (scheduled: bool, after: seq<Wait>)
    requires Waits(p, o, waits) && Retries(o, cause) && guidance == Guidance(o, cause)
    ensures Waits(p, o, after)
    ensures scheduled <==> !Exhausted(p, o, waits, cause)
    ensures !scheduled ==> after == waits
    ensures scheduled ==>
      && |after| == |waits| + 1 && after == waits + [Wait(cause, after[|waits|].delay)]
      && DelayFor(p, |waits| + 1, guidance, o.entropy(|waits|)) == Some(after[|waits|].delay)
  {
    var number := |waits| + 1;
    var delay := DelayFor(p, number, guidance, o.entropy(|waits|));
    if delay.None? { return false, waits; }
    DelayIsBounded(p, number, guidance, o.entropy(|waits|));
    return true, waits + [Wait(cause, delay.value)];
  }

  /** Schedules a wait and sits it out; `None` when the call may be repeated. */
  method TryAgain(p: RetryPolicy, o: Oracle, cause: Cause, guidance: Option<nat>, waits: seq<Wait>, ghost probes: nat,
                  ghost transfers: nat)
    returns (ended: Option<Ending>, after: seq<Wait>)
    requires Booked(p, o, waits, probes, transfers) && Made(cause, probes, transfers)
    requires forall i :: 0 <= i < |waits| ==> waits[i].cause != cause
    requires Retries(o, cause) && guidance == Guidance(o, cause)
    ensures Waits(p, o, after) && Caused(after, probes, transfers) && waits <= after
    ensures ended.None? ==> |after| == |waits| + 1 && after[|waits|].cause == cause && AllWaited(o, |after|)
    ensures ended.Some? ==> ended.value in {Failing, Stopping} && AllWaited(o, |waits|)
    ensures ended == Some(Failing) ==> after == waits && Exhausted(p, o, waits, cause)
    ensures ended == Some(Stopping) ==> |after| == |waits| + 1 && !o.waited(|waits|)
  {
    var scheduled;
    scheduled, after := ScheduleRetry(p, o, cause, guidance, waits);
    if !scheduled { return Some(Failing), after; }
    if !o.waited(|waits|) { return Some(Stopping), after; }
    return None, after;
  }

  /** How probing ends is decided by its last call: `None` when that succeeded.
      Every earlier call was worth another try and got one. */
  predicate ProbingEnds(p: RetryPolicy, o: Oracle, ended: Option<Ending>, waits: seq<Wait>, probes: nat)
    requires probes > 0
  {
    var last := probes - 1;
    && (ended.None? <==> o.probe(last) == Probed)
    && (ended == Some(Stopping) <==> o.probe(last) == Withdrawn || CutShort(o, waits))
    && (ended == Some(Failing) ==> ProbingFails(p, o, waits, last))
    && ended != Some(Publishing)
  }

  predicate ProbingFails(p: RetryPolicy, o: Oracle, waits: seq<Wait>, last: nat) {
    || o.probe(last) == Invalid
    || (o.probe(last).Refused? && o.probe(last).status !in WORTH_RETRYING)
    || (ProbeRetries(o, last) && Exhausted(p, o, waits, AfterProbe(last)))
  }

  /** `probe_with_retries`. */
  method ProbeWithRetries(p: RetryPolicy, o: Oracle, waits: seq<Wait>, asked: nat, ghost transfers: nat)
    returns (ended: Option<Ending>, after: seq<Wait>, probes: nat)
    requires Booked(p, o, waits, asked, transfers)
    ensures Waits(p, o, after) && Caused(after, probes, transfers) && waits <= after
    ensures probes > asked && ProbingEnds(p, o, ended, after, probes)
    ensures forall i: nat :: asked <= i < probes - 1 ==> ProbeRetries(o, i)
    ensures |after| - |waits| == probes - asked - 1 + if CutShort(o, after) then 1 else 0
    ensures AllWaited(o, |after| - if CutShort(o, after) then 1 else 0)
  {
    after, probes := waits, asked;
    while true
      invariant Booked(p, o, after, probes, transfers) && waits <= after
      invariant probes - asked == |after| - |waits|
      invariant forall i: nat :: asked <= i < probes ==> ProbeRetries(o, i)
      decreases p.maximumRetries + 1 - |after|
    {
      var result := o.probe(probes);
      probes := probes + 1;
      var guidance: Option<nat>;
      match result {
        case Probed => return None, after, probes;
        case Withdrawn => return Some(Stopping), after, probes;
        case Invalid => return Some(Failing), after, probes;
        case Lost => guidance := None;
        case Refused(status, retryAfter) =>
          if !Retryable(status) { return Some(Failing), after, probes; }
          guidance := retryAfter;
      }
      ended, after := TryAgain(p, o, AfterProbe(probes - 1), guidance, after, probes, transfers);
      if ended.Some? { return ended, after, probes; }
    }
  }

  /** Widths halve from the configured one and never grow. */
  predicate Narrowing(widths: seq<nat>, workers: nat) {
    && (widths != [] ==> widths[0] == workers)
    && (forall i :: 0 < i < |widths| ==> widths[i] == Reduced(widths[i - 1]))
  }

  /** Whether one of the transfers so far led to the revalidation. */
  predicate Revalidated(o: Oracle, transfers: nat) {
    exists i: nat :: i < transfers && Unsatisfied(o, i) && Passed(o, i)
  }

  /** How a run ends is decided by its last calls. It publishes exactly when its
      last transfer finished undisturbed, and stops exactly when that transfer,
      the last probe or the last wait was cancelled. */
  predicate RunEnds(p: RetryPolicy, o: Oracle, ended: Ending, waits: seq<Wait>, probes: nat, transfers: nat)
    requires probes > 0
  {
    && (ended == Publishing <==>
         && transfers > 0 && o.transfer(transfers - 1) == Finished
         && o.boundary(transfers - 1) && !o.cancelled(transfers - 1))
    && (ended == Stopping <==>
         || o.probe(probes - 1) == Withdrawn || CutShort(o, waits)
         || (transfers > 0 && TransferStopped(o, transfers - 1)))
    && (ended == Failing ==>
         ProbingFails(p, o, waits, probes - 1) || (transfers > 0 && TransferFails(p, o, waits, transfers - 1)))
  }

  predicate TransferStopped(o: Oracle, i: nat) {
    o.transfer(i) == Cancelled || (o.transfer(i) != CheckpointFailed && o.boundary(i) && o.cancelled(i))
  }

  /** A failed checkpoint, an answer not worth another try, a changed resource, or
      an answer worth it with no delay left. */
  predicate TransferFails(p: RetryPolicy, o: Oracle, waits: seq<Wait>, i: nat) {
    || o.transfer(i) == CheckpointFailed
    || (o.transfer(i) != Cancelled && !o.boundary(i))
    || o.transfer(i) == Unusable
    || (o.transfer(i).Answered? && o.transfer(i).code !in WORTH_RETRYING && !FirstUnsatisfied(o, i))
    || (FirstUnsatisfied(o, i) && !o.sameResource)
    || (TransferRetries(o, i) && Exhausted(p, o, waits, AfterTransfer(i)))
  }

  /** `revalidate_worker_range`: `None` when the server still offers the resource. */
  method RevalidateRange(p: RetryPolicy, o: Oracle, attempt: nat, waits: seq<Wait>, asked: nat)
    returns (ended: Option<Ending>, after: seq<Wait>, probes: nat)
    requires Booked(p, o, waits, asked, attempt)
    requires Passed(o, attempt) && FirstUnsatisfied(o, attempt)
    ensures Waits(p, o, after) && Caused(after, probes, attempt) && waits <= after && probes > asked
    ensures ended.None? ==> o.probe(probes - 1) == Probed && o.sameResource && !CutShort(o, after)
    ensures ended.Some? ==> RunEnds(p, o, ended.value, after, probes, attempt + 1)
    ensures |after| - |waits| == probes - asked - 1 + if CutShort(o, after) then 1 else 0
    ensures AllWaited(o, |after| - if CutShort(o, after) then 1 else 0)
  {
    ended, after, probes := ProbeWithRetries(p, o, waits, asked, attempt);
    if ended.None? && !o.sameResource { ended := Some(Failing); }
  }

  /** A transfer and its boundary checkpoint: `None` when it ended with an error
      that may be worth another try. */
  method PassBoundary(p: RetryPolicy, o: Oracle, attempt: nat, ghost waits: seq<Wait>, ghost probes: nat)
    returns (ended: Option<Ending>)
    requires probes > 0 && o.probe(probes - 1) == Probed && !CutShort(o, waits)
    ensures ended.None? <==> Passed(o, attempt) && o.transfer(attempt) != Finished
    ensures ended.Some? ==> RunEnds(p, o, ended.value, waits, probes, attempt + 1)
  {
    var result := o.transfer(attempt);
    if result == CheckpointFailed { return Some(Failing); }
    if result == Cancelled { return Some(Stopping); }
    if !o.boundary(attempt) { return Some(Failing); }
    if o.cancelled(attempt) { return Some(Stopping); }
    return if result == Finished then Some(Publishing) else None;
  }

  /** Whether a transfer that ended with an error may be repeated, and with which
      guidance; the first 416 asks the server again before. */
  method RetryData(p: RetryPolicy, o: Oracle, attempt: nat, waits: seq<Wait>, asked: nat, checked: nat)
    returns (ended: Option<Ending>, guidance: Option<nat>, after: seq<Wait>, probes: nat, revalidations: nat)
    requires Booked(p, o, waits, asked, attempt) && asked > 0 && o.probe(asked - 1) == Probed
    requires Passed(o, attempt) && o.transfer(attempt) != Finished && checked <= 1
    requires Unsatisfied(o, attempt) ==> (FirstUnsatisfied(o, attempt) <==> checked == 0)
    ensures revalidations == if Unsatisfied(o, attempt) then 1 else checked
    ensures Waits(p, o, after) && Caused(after, probes, attempt) && waits <= after && probes > 0
    ensures ended.None? ==>
      && TransferRetries(o, attempt) && guidance == Guidance(o, AfterTransfer(attempt))
      && o.probe(probes - 1) == Probed && !CutShort(o, after)
    ensures ended.Some? ==> RunEnds(p, o, ended.value, after, probes, attempt + 1)
    ensures |after| - |waits| == probes - asked - (revalidations - checked) + if CutShort(o, after) then 1 else 0
    ensures AllWaited(o, |after| - if CutShort(o, after) then 1 else 0)
  {
    ended, guidance, after, probes, revalidations := None, None, waits, asked, checked;
    var result := o.transfer(attempt);
    if result.Answered? && result.code == 416 && revalidations == 0 {
      revalidations := 1;
      ended, after, probes := RevalidateRange(p, o, attempt, waits, asked);
    } else if result == Broken {
    } else if result.Answered? && Retryable(result.code) {
      guidance := result.guidance;
    } else {
      ended := Some(Failing);
    }
  }

  /** One pass of the run's loop: a transfer, its boundary, and what follows it;
      `None` when the transfer may be repeated. */
  method Attempt(p: RetryPolicy, o: Oracle, attempt: nat, waits: seq<Wait>, asked: nat, checked: nat)
    returns (ended: Option<Ending>, after: seq<Wait>, probes: nat, revalidations: nat)
    requires Booked(p, o, waits, asked, attempt) && asked > 0 && o.probe(asked - 1) == Probed
    requires forall i: nat :: i < attempt ==> TransferRetries(o, i)
    requires checked == if Revalidated(o, attempt) then 1 else 0
    ensures Waits(p, o, after) && Caused(after, probes, attempt + 1) && waits <= after && probes > 0
    ensures revalidations == if Revalidated(o, attempt + 1) then 1 else 0
    ensures ended.None? ==> o.probe(probes - 1) == Probed && TransferRetries(o, attempt) && |after| > |waits|
    ensures ended.Some? ==> RunEnds(p, o, ended.value, after, probes, attempt + 1)
    ensures |after| - |waits| ==
      probes - asked - (revalidations - checked) + if ended.None? || CutShort(o, after) then 1 else 0
    ensures AllWaited(o, |after| - if ended.Some? && CutShort(o, after) then 1 else 0)
  {
    after, probes, revalidations := waits, asked, checked;
    RevalidatedGrows(o, attempt);
    ended := PassBoundary(p, o, attempt, waits, asked);
    if ended.Some? { return; }
    var guidance;
    ended, guidance, after, probes, revalidations := RetryData(p, o, attempt, waits, asked, checked);
    if ended.Some? { return; }
    ended, after := TryAgain(p, o, AfterTransfer(attempt), guidance, after, probes, attempt + 1);
  }

  /** While every transfer was worth another try, a 416 among them is the one that
      was revalidated. */
  lemma RevalidatedGrows(o: Oracle, attempt: nat)
    requires forall i: nat :: i < attempt ==> TransferRetries(o, i)
    ensures Revalidated(o, attempt + 1) <==> Revalidated(o, attempt) || (Unsatisfied(o, attempt) && Passed(o, attempt))
    ensures Unsatisfied(o, attempt) ==> (FirstUnsatisfied(o, attempt) <==> !Revalidated(o, attempt))
  {
    if !Revalidated(o, attempt) {
      forall i: nat | i < attempt ensures !Unsatisfied(o, i) { assert TransferRetries(o, i); }
    }
  }

  /** `run_task` up to publication. Every run ends, after at most one transfer per
      unit of the shared budget and one more, with at most one revalidation; every
      transfer but the last was worth another try. */
  method RunTask(p: RetryPolicy, o: Oracle, workers: nat)
    returns (ended: Ending, widths: seq<nat>, waits: seq<Wait>, probes: nat, revalidations: nat)
    requires workers in {1, 2, 4, 8}
    ensures Waits(p, o, waits) && Caused(waits, probes, |widths|)
    ensures |widths| <= p.maximumRetries + 1 && Narrowing(widths, workers)
    ensures 0 < probes <= p.maximumRetries + 1 + revalidations
    ensures revalidations == if Revalidated(o, |widths|) then 1 else 0
    ensures RunEnds(p, o, ended, waits, probes, |widths|)
    ensures forall i: nat :: i + 1 < |widths| ==> TransferRetries(o, i)
    ensures |widths| + probes + (if CutShort(o, waits) then 1 else 0) ==
      |waits| + 1 + revalidations + if widths == [] then 0 else 1
    ensures AllWaited(o, |waits| - if CutShort(o, waits) then 1 else 0)
  {
    var stopped;
    widths, revalidations := [], 0;
    stopped, waits, probes := ProbeWithRetries(p, o, [], 0, 0);
    if stopped.Some? { return stopped.value, widths, waits, probes, 0; }
    var width := workers;
    while true
      invariant Booked(p, o, waits, probes, |widths|) && Narrowing(widths + [width], workers)
      invariant probes > 0 && o.probe(probes - 1) == Probed
      invariant revalidations == if Revalidated(o, |widths|) then 1 else 0
      invariant forall i: nat :: i < |widths| ==> TransferRetries(o, i)
      invariant |widths| + probes == |waits| + 1 + revalidations
      invariant revalidations < probes
      decreases p.maximumRetries + 1 - |waits|
    {
      stopped, waits, probes, revalidations := Attempt(p, o, |widths|, waits, probes, revalidations);
      widths := widths + [width];
      if stopped.Some? { return stopped.value, widths, waits, probes, revalidations; }
      width := Reduced(width);
    }
  }

  /** Each retry halves the workers, down to one: three failed transfers bring any
      width to a single worker. */
  lemma {:induction false} WidthReachesOne(widths: seq<nat>, workers: nat, i: nat)
    requires workers in {1, 2, 4, 8} && Narrowing(widths, workers) && i < |widths|
    ensures widths[i] == if workers < Doubled(1, i) then 1 else workers / Doubled(1, i)
    ensures widths[i] in {1, 2, 4, 8} && (i > 0 ==> widths[i] <= widths[i - 1])
    ensures i >= 3 ==> widths[i] == 1
  {
    if i > 0 {
      WidthReachesOne(widths, workers, i - 1);
      assert Doubled(1, 0) == 1 && Doubled(1, 1) == 2 && Doubled(1, 2) == 4 && Doubled(1, 3) == 8;
      if i >= 4 { DoublingGrows(1, 3, i - 1); }
    }
  }
}
