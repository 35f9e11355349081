/** The shared work queue of one segmented transfer: a request plan, the chunks
    in flight, and the mutex-guarded sections that move them. */
module Coordinator {
  import opened Arithmetic
  import opened Ranges

  datatype Phase = InFlight | Committing

  datatype Chunk = Chunk(range: FileRange, phase: Phase, attemptsStarted: nat, activeAttempts: nat, firstStarted: nat)

  datatype Work = Work(id: nat, range: FileRange, hedged: bool)

  datatype Plan = Plan(chunkSize: nat, hedgeDelay: nat, hedging: bool)

  /** What the mutex guards, plus the generation counter of the change channel. */
  datatype CoordState = CoordState(
    pending: seq<FileRange>,
    inFlight: map<nat, Chunk>,
    nextId: nat,
    aborted: bool,
    generation: nat)

  datatype NextOutcome = Stop | Take(work: Work) | Wait(delay: Option<nat>)

  // ---------- Request planning ----------

  function ChunkCount(rs: seq<FileRange>, chunkSize: nat): nat
    requires chunkSize > 0
  {
    if rs == [] then 0 else (Len(rs[0]) - 1) / chunkSize + 1 + ChunkCount(rs[1..], chunkSize)
  }

  method ValidateRequestPlan(missing: seq<FileRange>, chunkSize: nat) returns (accepted: bool)
    requires chunkSize > 0
    ensures accepted <==> ChunkCount(missing, chunkSize) <= MAX_RANGE_REQUESTS
  {
    var count := 0;
    for k := 0 to |missing|
      invariant count + ChunkCount(missing[k..], chunkSize) == ChunkCount(missing, chunkSize)
    {
      count := count + (Len(missing[k]) - 1) / chunkSize + 1;
      assert missing[k..][1..] == missing[k + 1..];
    }
    return count <= MAX_RANGE_REQUESTS;
  }

  function PopChunk(pending: seq<FileRange>, chunkSize: nat): (FileRange, seq<FileRange>)
    requires pending != [] && chunkSize > 0
  {
    var gap := pending[0];
    var end := if gap.start + chunkSize < gap.end then gap.start + chunkSize else gap.end;
    var rest := if end < gap.end then [Span(end, gap.end)] + pending[1..] else pending[1..];
    (Span(gap.start, end), rest)
  }

  lemma DivideStep(n: nat, s: nat)
    requires 0 < s <= n
    ensures n / s == (n - s) / s + 1
  {
    var q, r := (n - s) / s, (n - s) % s;
    assert n == s * (q + 1) + r;
    Monotone(q, q + 1, s);
    QuotientIs(n, s, q + 1);
  }

  /** Popping removes exactly one planned request and loses no byte. */
  lemma PopChunkSplits(pending: seq<FileRange>, chunkSize: nat)
    requires pending != [] && chunkSize > 0 && Ordered(pending)
    ensures var (chunk, rest) := PopChunk(pending, chunkSize);
      && Len(chunk) <= chunkSize
      && Ordered(rest) && |rest| <= |pending|
      && DisjointFrom(rest, chunk)
      && ChunkCount(rest, chunkSize) + 1 == ChunkCount(pending, chunkSize)
      && forall x: nat :: Covers(pending, x) <==> In(x, chunk) || Covers(rest, x)
  {
    PopChunkCovers(pending, chunkSize);
    PopChunkCounts(pending, chunkSize);
  }

  lemma PopChunkCovers(pending: seq<FileRange>, chunkSize: nat)
    requires pending != [] && chunkSize > 0
    ensures var (chunk, rest) := PopChunk(pending, chunkSize);
      forall x: nat :: Covers(pending, x) <==> In(x, chunk) || Covers(rest, x)
  {
    var (chunk, rest) := PopChunk(pending, chunkSize);
    var gap, tail := pending[0], pending[1..];
    forall x: nat ensures Covers(pending, x) <==> In(x, chunk) || Covers(rest, x) {
      PrependCovers(gap, tail, x);
      assert pending == [gap] + tail;
      if chunk.end < gap.end { PrependCovers(Span(chunk.end, gap.end), tail, x); }
    }
  }

  lemma PopChunkCounts(pending: seq<FileRange>, chunkSize: nat)
    requires pending != [] && chunkSize > 0
    ensures var (_, rest) := PopChunk(pending, chunkSize); ChunkCount(rest, chunkSize) + 1 == ChunkCount(pending,
      chunkSize)
  {
    var (chunk, rest) := PopChunk(pending, chunkSize);
    var gap := pending[0];
    if chunk.end < gap.end {
      assert rest[1..] == pending[1..];
      DivideStep(Len(gap) - 1, chunkSize);
      assert Len(rest[0]) == Len(gap) - chunkSize;
    } else {
      assert (Len(gap) - 1) / chunkSize == 0 by { QuotientIs(Len(gap) - 1, chunkSize, 0); }
    }
  }

  lemma PrependCovers(r: FileRange, rs: seq<FileRange>, x: nat)
    ensures Covers([r] + rs, x) <==> In(x, r) || Covers(rs, x)
  {
    var out := [r] + rs;
    if In(x, r) { assert In(x, out[0]); }
    if Covers(rs, x) { var i :| 0 <= i < |rs| && In(x, rs[i]); assert In(x, out[i + 1]); }
    if Covers(out, x) { var i :| 0 <= i < |out| && In(x, out[i]); if i > 0 { assert In(x, rs[i - 1]); } }
  }

  // ---------- The guarded sections ----------

  function SoleKey(m: map<nat, Chunk>): (id: nat)
    requires |m| == 1
    ensures id in m && m.Keys == {id}
  {
    assert m.Keys != {};
    SingletonKeys(m);
    var id :| id in m.Keys;
    id
  }

  lemma SingletonKeys(m: map<nat, Chunk>)
    requires |m| == 1
    ensures forall a, b :: a in m.Keys && b in m.Keys ==> a == b
    ensures forall a :: a in m.Keys ==> m.Keys == {a}
  {
    forall a, b | a in m.Keys && b in m.Keys ensures a == b {
      assert |m.Keys - {a}| == 0;
      assert b !in m.Keys - {a};
    }
    forall a | a in m.Keys ensures m.Keys == {a} { }
  }

  function SaturatingPred(n: nat): nat { if n > 0 then n - 1 else 0 }

  function NextWork(c: CoordState, plan: Plan, cancelled: bool, now: nat): (CoordState, NextOutcome)
    requires plan.chunkSize > 0
  {
    if c.aborted || cancelled then (c, Stop)
    else if c.pending != [] then
      var (range, rest) := PopChunk(c.pending, plan.chunkSize);
      var chunk := Chunk(range, InFlight, 1, 1, now);
      (c.(pending := rest, nextId := c.nextId + 1, inFlight := c.inFlight[c.nextId := chunk]),
       Take(Work(c.nextId, range, false)))
    else if c.inFlight == map[] then (c, Stop)
    else if !plan.hedging || |c.inFlight| != 1 then (c, Wait(None))
    else
      var id := SoleKey(c.inFlight);
      var chunk := c.inFlight[id];
      var elapsed := if now > chunk.firstStarted then now - chunk.firstStarted else 0;
      if chunk.phase != InFlight || chunk.attemptsStarted != 1 then (c, Wait(None))
      else if elapsed < plan.hedgeDelay then (c, Wait(Some(plan.hedgeDelay - elapsed)))
      else
        var hedged := chunk.(attemptsStarted := 2, activeAttempts := chunk.activeAttempts + 1);
        (c.(inFlight := c.inFlight[id := hedged]), Take(Work(id, chunk.range, true)))
  }

  predicate ShouldCancel(c: CoordState, cancelled: bool, id: nat) {
    c.aborted || cancelled || id !in c.inFlight || c.inFlight[id].phase != InFlight
  }

  function Signal(c: CoordState): CoordState { c.(generation := c.generation + 1) }

  function ClaimCommit(c: CoordState, cancelled: bool, id: nat): (CoordState, bool) {
    if c.aborted || cancelled || id !in c.inFlight then (c, false)
    else
      var chunk := c.inFlight[id].(activeAttempts := SaturatingPred(c.inFlight[id].activeAttempts));
      if chunk.phase != InFlight then (c.(inFlight := c.inFlight[id := chunk]), false)
      else (Signal(c.(inFlight := c.inFlight[id := chunk.(phase := Committing)])), true)
  }

  function FinishSuperseded(c: CoordState, id: nat): CoordState {
    if id !in c.inFlight then Signal(c)
    else
      var chunk := c.inFlight[id];
      Signal(c.(inFlight := c.inFlight[id := chunk.(activeAttempts := SaturatingPred(chunk.activeAttempts))]))
  }

  /** The flag tells the worker whether the failure is its transfer's failure. */
  function FinishFailedAttempt(c: CoordState, id: nat): (CoordState, bool) {
    if id !in c.inFlight then (c, false)
    else
      var chunk := c.inFlight[id].(activeAttempts := SaturatingPred(c.inFlight[id].activeAttempts));
      if chunk.phase == Committing || chunk.activeAttempts > 0 then
        (Signal(c.(inFlight := c.inFlight[id := chunk])), false)
      else
        (Signal(c.(inFlight := c.inFlight - {id}, aborted := true)), true)
  }

  function FinishCommit(c: CoordState, id: nat, succeeded: bool): CoordState {
    Signal(c.(inFlight := c.inFlight - {id}, aborted := c.aborted || !succeeded))
  }

  function Abort(c: CoordState): CoordState { Signal(c.(aborted := true)) }

  // ---------- When the last request is duplicated ----------

  /** The queue is empty and `id` is the only chunk in flight, fetched once. */
  predicate UnhedgedTail(c: CoordState, id: nat) {
    && c.pending == [] && c.inFlight.Keys == {id}
    && c.inFlight[id].phase == InFlight && c.inFlight[id].attemptsStarted == 1
  }

  /** The last request of a running transfer is duplicated exactly once its
      delay is over; until then the worker sleeps, and its timer ends at that
      moment. A clock that reads earlier than the start counts from now. */
  lemma TailIsHedgedOnTime(c: CoordState, plan: Plan, id: nat, now: nat)
    requires plan.chunkSize > 0 && plan.hedging && !c.aborted && UnhedgedTail(c, id)
    ensures var chunk := c.inFlight[id];
      var since := if now < chunk.firstStarted then now else chunk.firstStarted;
      var (next, outcome) := NextWork(c, plan, false, now);
      && (outcome.Take? <==> now >= since + plan.hedgeDelay)
      && (outcome.Take? ==>
           && outcome.work == Work(id, chunk.range, true)
           && next == c.(inFlight := map[id := Chunk(chunk.range, InFlight, 2, chunk.activeAttempts + 1,
                                                     chunk.firstStarted)]))
      && (!outcome.Take? ==>
           && outcome.Wait? && outcome.delay.Some? && next == c
           && now + outcome.delay.value == since + plan.hedgeDelay)
  {
    SoleKeyIs(c.inFlight, id);
    var chunk := c.inFlight[id];
    assert c.inFlight[id := chunk.(attemptsStarted := 2, activeAttempts := chunk.activeAttempts + 1)] ==
           map[id := Chunk(chunk.range, InFlight, 2, chunk.activeAttempts + 1, chunk.firstStarted)];
  }

  lemma SoleKeyIs(m: map<nat, Chunk>, id: nat)
    requires m.Keys == {id}
    ensures |m| == 1 && SoleKey(m) == id
  {
    assert |m| == |m.Keys|;
    assert SoleKey(m) in m.Keys;
  }

  /** With an empty queue and chunks in flight, everything but an unhedged tail
      makes the worker sleep without a timer, and nothing changes. */
  lemma OtherwiseWaitsUntimed(c: CoordState, plan: Plan, now: nat)
    requires plan.chunkSize > 0 && !c.aborted && c.pending == [] && c.inFlight != map[]
    requires plan.hedging ==> forall id :: id in c.inFlight ==> !UnhedgedTail(c, id)
    ensures NextWork(c, plan, false, now) == (c, Wait(None))
  {
    if |c.inFlight| == 1 { assert c.inFlight.Keys == {SoleKey(c.inFlight)}; }
  }

  // ---------- No lost wake-up ----------

  datatype Section =
    | Next(now: nat) | Claim(claimed: nat) | Superseded(loser: nat)
    | FailedAttempt(failed: nat) | Commit(done: nat, succeeded: bool) | AbortAll

  function RunSection(c: CoordState, plan: Plan, cancelled: bool, section: Section): CoordState
    requires plan.chunkSize > 0
  {
    match section
    case Next(now) => NextWork(c, plan, cancelled, now).0
    case Claim(id) => ClaimCommit(c, cancelled, id).0
    case Superseded(id) => FinishSuperseded(c, id)
    case FailedAttempt(id) => FinishFailedAttempt(c, id).0
    case Commit(id, succeeded) => FinishCommit(c, id, succeeded)
    case AbortAll => Abort(c)
  }

  /** A section that does not move the change channel leaves a waiting worker
      with nothing to do and no new timer, so a worker that subscribed before
      it checked the queue never sleeps through work. */
  lemma SilentSectionsKeepWaiting(c: CoordState, plan: Plan, section: Section, now: nat)
    requires plan.chunkSize > 0
    requires NextWork(c, plan, false, now).1.Wait?
    ensures var after := RunSection(c, plan, false, section);
      || after.generation > c.generation
      || (var next := NextWork(after, plan, false, now).1;
          next.Wait? && (NextWork(c, plan, false, now).1.delay.None? ==> next.delay.None?))
  {
    var after := RunSection(c, plan, false, section);
    if section.Next? && NextWork(c, plan, false, section.now).1.Take? {
      var id := SoleKey(c.inFlight);
      assert after.inFlight.Keys == c.inFlight.Keys == {id};
      assert |after.inFlight| == |after.inFlight.Keys|;
    }
    if section.Claim? && section.claimed in c.inFlight {
      assert after.inFlight.Keys == c.inFlight.Keys;
      assert |after.inFlight| == |after.inFlight.Keys| == |c.inFlight|;
      if |c.inFlight| == 1 {
        assert section.claimed in {SoleKey(c.inFlight)};
      }
    }
  }

  /** Every section that releases an attempt, ends a commit or aborts moves the change
      channel, and a claim does exactly when it wins. */
  lemma ChangesAreAnnounced(c: CoordState, plan: Plan, cancelled: bool, section: Section)
    requires plan.chunkSize > 0
    ensures var after := RunSection(c, plan, cancelled, section);
      match section
      case Next(_) => after.generation == c.generation
      case Claim(id) => after.generation == c.generation + if ClaimCommit(c, cancelled, id).1 then 1 else 0
      case FailedAttempt(id) => after.generation == c.generation + if id in c.inFlight then 1 else 0
      case _ => after.generation == c.generation + 1
  { }

  /** A claim wins exactly in a running transfer and for a chunk nobody claimed. It
      ends the worker's attempt, also if another worker was first. */
  lemma ClaimExactly(c: CoordState, cancelled: bool, id: nat)
    ensures var (after, won) := ClaimCommit(c, cancelled, id);
      var known := id in c.inFlight;
      && (won <==> !c.aborted && !cancelled && known && c.inFlight[id].phase == InFlight)
      && after == c.(inFlight := after.inFlight, generation := after.generation)
      && (c.aborted || cancelled || !known ==> after == c)
      && (!c.aborted && !cancelled && known ==>
           var chunk := c.inFlight[id];
           after.inFlight == c.inFlight[id := Chunk(chunk.range, Committing,
             chunk.attemptsStarted, if chunk.activeAttempts == 0 then 0 else chunk.activeAttempts - 1,
             chunk.firstStarted)])
  { }

  // ---------- The coordinator object ----------

  class TransferCancellation {
    var requested: bool

    constructor () ensures !requested { requested := false; }

    method Cancel() modifies this ensures requested { requested := true; }
  }

  class WorkCoordinator {
    var pending: seq<FileRange>
    var inFlight: map<nat, Chunk>
    var nextId: nat
    var aborted: bool
    var generation: nat
    const cancellation: TransferCancellation
    const plan: Plan

    ghost predicate Valid() reads this { plan.chunkSize > 0 }

    ghost function View(): CoordState reads this {
      CoordState(pending, inFlight, nextId, aborted, generation)
    }

    constructor (missing: seq<FileRange>, plan: Plan, cancellation: TransferCancellation)
      requires plan.chunkSize > 0
      ensures Valid() && View() == CoordState(missing, map[], 1, false, 0)
      ensures this.plan == plan && this.cancellation == cancellation
    {
      this.pending, this.inFlight, this.nextId := missing, map[], 1;
      this.aborted, this.generation := false, 0;
      this.plan, this.cancellation := plan, cancellation;
    }

    /** One pass of the scheduling loop at time `now`; `Wait` parks the worker. */
    method TryNext(now: nat) returns (outcome: NextOutcome)
      requires Valid()
      modifies this
      ensures Valid()
      ensures (View(), outcome) == NextWork(old(View()), plan, cancellation.requested, now)
    {
      if aborted || cancellation.requested { return Stop; }
      if pending != [] {
        var gap := pending[0];
        var end := if gap.start + plan.chunkSize < gap.end then gap.start + plan.chunkSize else gap.end;
        pending := pending[1..];
        if end < gap.end { pending := [Span(end, gap.end)] + pending; }
        var id := nextId;
        nextId := nextId + 1;
        inFlight := inFlight[id := Chunk(Span(gap.start, end), InFlight, 1, 1, now)];
        return Take(Work(id, Span(gap.start, end), false));
      }
      if inFlight == map[] { return Stop; }
      if !plan.hedging || |inFlight| != 1 { return Wait(None); }
      var id := SoleKey(inFlight);
      var chunk := inFlight[id];
      if chunk.phase != InFlight || chunk.attemptsStarted != 1 { return Wait(None); }
      var elapsed := if now > chunk.firstStarted then now - chunk.firstStarted else 0;
      if elapsed < plan.hedgeDelay { return Wait(Some(plan.hedgeDelay - elapsed)); }
      inFlight := inFlight[id := chunk.(attemptsStarted := 2, activeAttempts := chunk.activeAttempts + 1)];
      return Take(Work(id, chunk.range, true));
    }

    method Claim(id: nat) returns (won: bool)
      modifies this
      ensures (View(), won) == ClaimCommit(old(View()), cancellation.requested, id)
    {
      if aborted || cancellation.requested || id !in inFlight { return false; }
      var chunk := inFlight[id].(activeAttempts := SaturatingPred(inFlight[id].activeAttempts));
      if chunk.phase != InFlight {
        inFlight := inFlight[id := chunk];
        return false;
      }
      inFlight := inFlight[id := chunk.(phase := Committing)];
      generation := generation + 1;
      return true;
    }

    method ReleaseSuperseded(id: nat)
      modifies this
      ensures View() == FinishSuperseded(old(View()), id)
    {
      if id in inFlight {
        var chunk := inFlight[id];
        inFlight := inFlight[id := chunk.(activeAttempts := SaturatingPred(chunk.activeAttempts))];
      }
      generation := generation + 1;
    }

    method ReleaseFailed(id: nat) returns (fatal: bool)
      modifies this
      ensures (View(), fatal) == FinishFailedAttempt(old(View()), id)
    {
      if id !in inFlight { return false; }
      var chunk := inFlight[id].(activeAttempts := SaturatingPred(inFlight[id].activeAttempts));
      if chunk.phase == Committing || chunk.activeAttempts > 0 {
        inFlight := inFlight[id := chunk];
        generation := generation + 1;
        return false;
      }
      inFlight := inFlight - {id};
      aborted := true;
      generation := generation + 1;
      return true;
    }

    method CompleteCommit(id: nat, succeeded: bool)
      modifies this
      ensures View() == FinishCommit(old(View()), id, succeeded)
    {
      inFlight := inFlight - {id};
      if !succeeded { aborted := true; }
      generation := generation + 1;
    }

    method AbortTransfer()
      modifies this
      ensures View() == Abort(old(View()))
    {
      aborted := true;
      generation := generation + 1;
    }
  }
}
