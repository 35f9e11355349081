/** The bounded event buffer: progress and retry notices may be replaced,
    lifecycle events may not be lost without raising the overflow flag. */
module Events {
  import opened Ranges

  const MAX_SEQUENCE: nat := 9_007_199_254_740_991

  type TaskId = string

  datatype Kind =
    | StateChanged(task: TaskId, snapshot: nat)
    | Progress(task: TaskId, sample: nat)
    | RetryScheduled(task: TaskId, retry: nat)
    | Completed(task: TaskId, snapshot: nat)
    | Failed(task: TaskId, snapshot: nat)

  datatype Pending = Pending(emittedAt: nat, kind: Kind)

  datatype Delivered = Delivered(sequence: nat, pending: Pending)

  datatype Buffer = Buffer(queue: seq<Pending>, nextSequence: nat, overflowed: bool)

  predicate Replaceable(p: Pending) { p.kind.Progress? || p.kind.RetryScheduled? }

  predicate ProgressOf(p: Pending, task: TaskId) { p.kind.Progress? && p.kind.task == task }

  function Keep(q: seq<Pending>, i: nat): seq<Pending>
    requires i < |q|
  {
    q[..i] + q[i + 1..]
  }

  /** The first index satisfying `p`, or the length. */
  function Position(q: seq<Pending>, p: Pending -> bool): (i: nat)
    ensures i <= |q|
    ensures i < |q| ==> p(q[i])
    ensures forall j :: 0 <= j < i ==> !p(q[j])
  {
    if q == [] then 0 else if p(q[0]) then 0 else 1 + Position(q[1..], p)
  }

  function Sample(task: TaskId): Pending -> bool { (p: Pending) => ProgressOf(p, task) }

  function Notice(): Pending -> bool { (p: Pending) => Replaceable(p) }

  function WithoutSample(q: seq<Pending>, kind: Kind): seq<Pending> {
    if kind.Progress? && Position(q, Sample(kind.task)) < |q| then Keep(q, Position(q, Sample(kind.task))) else q
  }

  function Emitted(b: Buffer, capacity: nat, p: Pending): Buffer {
    var q := WithoutSample(b.queue, p.kind);
    if |q| < capacity then b.(queue := q + [p])
    else if Position(q, Notice()) < |q| then b.(queue := Keep(q, Position(q, Notice())) + [p])
    else if Replaceable(p) then b.(queue := q)
    else b.(queue := q, overflowed := true)
  }

  class EventBuffer {
    const capacity: nat
    var queue: seq<Pending>
    var nextSequence: nat
    var overflowed: bool

    function View(): Buffer reads this { Buffer(queue, nextSequence, overflowed) }

    constructor (limit: nat)
      ensures capacity == limit && View() == Buffer([], 0, false)
    {
      capacity, queue, nextSequence, overflowed := limit, [], 0, false;
    }

    method Emit(emittedAt: nat, kind: Kind)
      modifies this
      ensures View() == Emitted(old(View()), capacity, Pending(emittedAt, kind))
      ensures Applied(Run(old(View()), []), capacity, Op.Emit(Pending(emittedAt, kind))) == Run(View(), [])
    {
      if kind.Progress? {
        var index := Position(queue, Sample(kind.task));
        if index < |queue| { queue := queue[..index] + queue[index + 1..]; }
      }
      if |queue| >= capacity {
        var index := Position(queue, Notice());
        if index < |queue| {
          queue := queue[..index] + queue[index + 1..];
        } else if kind.Progress? || kind.RetryScheduled? {
          return;
        } else {
          overflowed := true;
          return;
        }
      }
      queue := queue + [Pending(emittedAt, kind)];
    }

    method RemoveTask(task: TaskId)
      modifies this
      ensures View() == old(View()).(queue := Others(old(queue), task))
    {
      var kept: seq<Pending> := [];
      for i := 0 to |queue|
        invariant View() == old(View())
        invariant kept + Others(queue[i..], task) == Others(queue, task)
      {
        assert queue[i..][1..] == queue[i + 1..];
        if queue[i].kind.task != task { kept := kept + [queue[i]]; }
      }
      assert queue[|queue|..] == [];
      queue := kept;
    }

    method ResetAfterOverflow() returns (reset: bool)
      modifies this
      ensures reset == old(overflowed)
      ensures View() == if reset then Buffer([], old(nextSequence), false) else old(View())
      ensures Applied(Run(old(View()), []), capacity, Reset) == Run(View(), [])
    {
      if !overflowed { return false; }
      overflowed, queue := false, [];
      return true;
    }

    method TryNext() returns (next: Result<Option<Delivered>, ()>)
      modifies this
      ensures next.Err? <==> old(queue) != [] && old(nextSequence) > MAX_SEQUENCE
      ensures next.Err? || next == Ok(None) ==> View() == old(View())
      ensures next.Ok? && next.value.Some? ==>
        && old(queue) != [] && next.value == Some(Delivered(old(nextSequence), old(queue)[0]))
        && View() == old(View()).(queue := old(queue)[1..], nextSequence := old(nextSequence) + 1)
      ensures next == Ok(None) <==> old(queue) == []
      ensures Applied(Run(old(View()), []), capacity, Take) ==
        Run(View(), if next.Ok? && next.value.Some? then [next.value.value] else [])
    {
      if queue == [] { return Ok(None); }
      if nextSequence > MAX_SEQUENCE { return Err(()); }
      next := Ok(Some(Delivered(nextSequence, queue[0])));
      queue, nextSequence := queue[1..], nextSequence + 1;
    }
  }

  function Others(q: seq<Pending>, task: TaskId): seq<Pending> {
    if q == [] then [] else (if q[0].kind.task != task then [q[0]] else []) + Others(q[1..], task)
  }

  // ---------- Runs ----------

  datatype Op = Emit(pending: Pending) | Take | Reset | Remove(task: TaskId)

  datatype Run = Run(buffer: Buffer, delivered: seq<Delivered>)

  function Applied(r: Run, capacity: nat, op: Op): Run {
    var b := r.buffer;
    match op
    case Emit(p) => r.(buffer := Emitted(b, capacity, p))
    case Take =>
      if b.queue == [] || b.nextSequence > MAX_SEQUENCE then r
      else Run(b.(queue := b.queue[1..], nextSequence := b.nextSequence + 1), r.delivered
        + [Delivered(b.nextSequence, b.queue[0])])
    case Reset => if b.overflowed then r.(buffer := Buffer([], b.nextSequence, false)) else r
    case Remove(task) => r.(buffer := b.(queue := Others(b.queue, task)))
  }

  function Played(r: Run, capacity: nat, ops: seq<Op>): Run
    decreases |ops|
  {
    if ops == [] then r else Played(Applied(r, capacity, ops[0]), capacity, ops[1..])
  }

  // ---------- Bounds and numbering, over every run ----------

  predicate OneSampleEach(q: seq<Pending>) {
    forall i, j :: 0 <= i < j < |q| && q[i].kind.Progress? && q[j].kind.Progress? ==> q[i].kind.task != q[j].kind.task
  }

  /** Delivered events carry consecutive numbers and the next one follows. */
  predicate Numbered(r: Run, first: nat) {
    && r.buffer.nextSequence == first + |r.delivered|
    && (forall i :: 0 <= i < |r.delivered| ==> r.delivered[i].sequence == first + i)
  }

  lemma SampleReplaced(q: seq<Pending>, kind: Kind)
    requires OneSampleEach(q)
    ensures OneSampleEach(WithoutSample(q, kind))
    ensures kind.Progress? ==> forall i :: 0 <= i < |WithoutSample(q, kind)| ==>
      !ProgressOf(WithoutSample(q, kind)[i], kind.task)
  { }

  lemma EmitKeepsBounds(b: Buffer, capacity: nat, p: Pending)
    requires |b.queue| <= capacity && OneSampleEach(b.queue)
    ensures |Emitted(b, capacity, p).queue| <= capacity && OneSampleEach(Emitted(b, capacity, p).queue)
  {
    SampleReplaced(b.queue, p.kind);
  }

  lemma {:induction false} OthersSubset(q: seq<Pending>, task: TaskId)
    requires OneSampleEach(q)
    ensures |Others(q, task)| <= |q| && OneSampleEach(Others(q, task))
    ensures forall p :: p in Others(q, task) <==> p in q && p.kind.task != task
  {
    if q != [] {
      assert forall p :: p in q <==> p == q[0] || p in q[1..];
      OthersSubset(q[1..], task);
      assert forall j :: 0 < j < |q| && q[0].kind.Progress? && q[j].kind.Progress? ==> q[0].kind.task != q[j].kind.task;
    }
  }

  /** Whatever is emitted, taken, removed or reset: the queue stays within its
      capacity with at most one sample per task, and numbering never gaps. */
  lemma {:induction false} BufferStaysBounded(r: Run, capacity: nat, ops: seq<Op>, first: nat)
    requires |r.buffer.queue| <= capacity && OneSampleEach(r.buffer.queue) && Numbered(r, first)
    ensures var after := Played(r, capacity, ops);
      && |after.buffer.queue| <= capacity && OneSampleEach(after.buffer.queue)
      && Numbered(after, first) && r.delivered <= after.delivered
    decreases |ops|
  {
    if ops != [] {
      match ops[0] {
        case Emit(p) => EmitKeepsBounds(r.buffer, capacity, p);
        case Remove(task) => OthersSubset(r.buffer.queue, task);
        case _ =>
      }
      BufferStaysBounded(Applied(r, capacity, ops[0]), capacity, ops[1..], first);
    }
  }

  // ---------- No silent loss ----------

  function Critical(q: seq<Pending>): seq<Pending> {
    if q == [] then [] else (if Replaceable(q[0]) then [] else [q[0]]) + Critical(q[1..])
  }

  function DeliveredCritical(ds: seq<Delivered>): seq<Pending> {
    if ds == [] then [] else (if Replaceable(ds[0].pending) then [] else [ds[0].pending]) + DeliveredCritical(ds[1..])
  }

  function EmittedCritical(ops: seq<Op>): seq<Pending> {
    if ops == [] then []
    else (if ops[0].Emit? && !Replaceable(ops[0].pending) then [ops[0].pending] else []) + EmittedCritical(ops[1..])
  }

  function Account(r: Run): seq<Pending> { DeliveredCritical(r.delivered) + Critical(r.buffer.queue) }

  lemma {:induction false} CriticalAppend(q: seq<Pending>, tail: seq<Pending>)
    ensures Critical(q + tail) == Critical(q) + Critical(tail)
  {
    if q == [] { assert q + tail == tail; }
    else {
      assert (q + tail)[1..] == q[1..] + tail;
      CriticalAppend(q[1..], tail);
    }
  }

  lemma {:induction false} DeliveredAppend(ds: seq<Delivered>, d: Delivered)
    ensures DeliveredCritical(ds + [d]) == DeliveredCritical(ds) + Critical([d.pending])
  {
    if ds == [] { assert ds + [d] == [d]; }
    else {
      assert (ds + [d])[1..] == ds[1..] + [d];
      DeliveredAppend(ds[1..], d);
    }
  }

  lemma DroppingNoticeKeepsCritical(q: seq<Pending>, i: nat)
    requires i < |q| && Replaceable(q[i])
    ensures Critical(Keep(q, i)) == Critical(q)
  {
    assert q == q[..i] + ([q[i]] + q[i + 1..]);
    CriticalAppend(q[..i], q[i + 1..]);
    CriticalAppend(q[..i], [q[i]] + q[i + 1..]);
    CriticalAppend([q[i]], q[i + 1..]);
  }

  lemma EmitKeepsCritical(b: Buffer, capacity: nat, p: Pending)
    ensures var after := Emitted(b, capacity, p);
      if !Replaceable(p) && after.queue == WithoutSample(b.queue, p.kind)
      then Critical(after.queue) == Critical(b.queue) && after.overflowed
      else Critical(after.queue) == Critical(b.queue) + Critical([p]) && after.overflowed == b.overflowed
  {
    var q := WithoutSample(b.queue, p.kind);
    if q != b.queue { DroppingNoticeKeepsCritical(b.queue, Position(b.queue, Sample(p.kind.task))); }
    if |q| < capacity { CriticalAppend(q, [p]); }
    else if Position(q, Notice()) < |q| {
      DroppingNoticeKeepsCritical(q, Position(q, Notice()));
      CriticalAppend(Keep(q, Position(q, Notice())), [p]);
      assert Keep(q, Position(q, Notice())) + [p] != q || Replaceable(p) by {
        if Keep(q, Position(q, Notice())) + [p] == q {
          assert Critical(q) == Critical(q) + Critical([p]);
        }
      }
    }
  }

  /** Until a reset or removal, delivered and queued lifecycle events are exactly
      the emitted ones in order, unless and only unless overflow was raised. */
  lemma {:induction false} LossRaisesOverflow(r: Run, capacity: nat, ops: seq<Op>)
    requires forall i :: 0 <= i < |ops| ==> ops[i].Emit? || ops[i].Take?
    requires !r.buffer.overflowed
    ensures var after := Played(r, capacity, ops);
      && (Account(after) == Account(r) + EmittedCritical(ops) <==> !after.buffer.overflowed)
      && |Account(after)| <= |Account(r)| + |EmittedCritical(ops)|
    decreases |ops|
  {
    if ops != [] {
      var next := Applied(r, capacity, ops[0]);
      StepAccount(r, capacity, ops[0]);
      EmittedSplit(ops);
      if next.buffer.overflowed {
        OverflowSticks(next, capacity, ops[1..]);
      } else {
        LossRaisesOverflow(next, capacity, ops[1..]);
        assert Account(r) + EmittedCritical(ops) == Account(next) + EmittedCritical(ops[1..]);
      }
    }
  }

  lemma EmittedSplit(ops: seq<Op>)
    requires ops != []
    ensures EmittedCritical(ops) == EmittedCritical([ops[0]]) + EmittedCritical(ops[1..])
  { }

  lemma StepAccount(r: Run, capacity: nat, op: Op)
    requires op.Emit? || op.Take?
    ensures var next := Applied(r, capacity, op);
      if next.buffer.overflowed && !r.buffer.overflowed then |EmittedCritical([op])| == 1 && Account(next) == Account(r)
      else (
        && |Account(next)| <= |Account(r)| + |EmittedCritical([op])| && next.buffer.overflowed == r.buffer.overflowed
        && (!r.buffer.overflowed ==> Account(next) == Account(r) + EmittedCritical([op])))
  {
    var b := r.buffer;
    match op
    case Emit(p) => EmitKeepsCritical(b, capacity, p);
    case Take =>
      if b.queue != [] && b.nextSequence <= MAX_SEQUENCE {
        DeliveredAppend(r.delivered, Delivered(b.nextSequence, b.queue[0]));
        assert b.queue == [b.queue[0]] + b.queue[1..];
        CriticalAppend([b.queue[0]], b.queue[1..]);
      }
  }

  lemma {:induction false} OverflowSticks(r: Run, capacity: nat, ops: seq<Op>)
    requires forall i :: 0 <= i < |ops| ==> ops[i].Emit? || ops[i].Take?
    requires r.buffer.overflowed
    ensures Played(r, capacity, ops).buffer.overflowed
    ensures |Account(Played(r, capacity, ops))| <= |Account(r)| + |EmittedCritical(ops)|
    decreases |ops|
  {
    if ops != [] {
      StepAccount(r, capacity, ops[0]);
      OverflowSticks(Applied(r, capacity, ops[0]), capacity, ops[1..]);
    }
  }

  /** A new sample is the only one queued for its task, unless lifecycle events
      fill the whole buffer; then there is none. */
  lemma NewestSampleWins(b: Buffer, capacity: nat, p: Pending)
    requires |b.queue| <= capacity && OneSampleEach(b.queue) && p.kind.Progress?
    ensures var after := Emitted(b, capacity, p);
      && (forall i :: 0 <= i < |after.queue| && ProgressOf(after.queue[i], p.kind.task) ==> after.queue[i] == p)
      && (p !in after.queue <==> (|WithoutSample(b.queue, p.kind)| == capacity
            && forall i :: 0 <= i < capacity ==> !Replaceable(WithoutSample(b.queue, p.kind)[i])))
  {
    SampleReplaced(b.queue, p.kind);
    var q := WithoutSample(b.queue, p.kind);
    if |q| < capacity { assert (q + [p])[|q|] == p; }
    else if Position(q, Notice()) < |q| {
      var kept := Keep(q, Position(q, Notice()));
      assert (kept + [p])[|kept|] == p;
    }
  }

  // ---------- Every queued event is delivered ----------

  function Numbering(q: seq<Pending>, first: nat): seq<Delivered> {
    seq(|q|, i requires 0 <= i < |q| => Delivered(first + i, q[i]))
  }

  function Takes(n: nat): seq<Op> { seq(n, i => Take) }

  /** A reader that keeps asking gets the whole queue, in order and numbered
      without gaps, as long as the safe integers last. */
  lemma {:induction false} TakingDrains(r: Run, capacity: nat)
    requires r.buffer.nextSequence + |r.buffer.queue| <= MAX_SEQUENCE + 1
    ensures var after := Played(r, capacity, Takes(|r.buffer.queue|));
      && after.delivered == r.delivered + Numbering(r.buffer.queue, r.buffer.nextSequence)
      && after.buffer.queue == [] && after.buffer.overflowed == r.buffer.overflowed
    decreases |r.buffer.queue|
  {
    var q, first := r.buffer.queue, r.buffer.nextSequence;
    if q != [] {
      var next := Applied(r, capacity, Take);
      assert next.delivered == r.delivered + [Delivered(first, q[0])];
      TakingDrains(next, capacity);
      assert Takes(|q|)[1..] == Takes(|q[1..]|);
      assert Numbering(q, first) == [Delivered(first, q[0])] + Numbering(q[1..], first + 1);
    }
  }

  predicate SafelyNumbered(ds: seq<Delivered>) { forall i :: 0 <= i < |ds| ==> ds[i].sequence <= 9_007_199_254_740_991 }

  /** No event ever carries an unsafe number. */
  lemma {:induction false} NumbersStaySafe(r: Run, capacity: nat, ops: seq<Op>)
    requires SafelyNumbered(r.delivered)
    ensures SafelyNumbered(Played(r, capacity, ops).delivered)
    decreases |ops|
  {
    if ops != [] { NumbersStaySafe(Applied(r, capacity, ops[0]), capacity, ops[1..]); }
  }

  // ---------- Every emitted event comes last ----------

  /** The queue without the sample that `p` replaces. */
  function Survivors(q: seq<Pending>, p: Pending): seq<Pending> {
    if q == [] then []
    else (if p.kind.Progress? && ProgressOf(q[0], p.kind.task) then [] else [q[0]]) + Survivors(q[1..], p)
  }

  lemma {:induction false} SurvivorsOfNone(q: seq<Pending>, p: Pending)
    requires p.kind.Progress? ==> forall i :: 0 <= i < |q| ==> !ProgressOf(q[i], p.kind.task)
    ensures Survivors(q, p) == q
  {
    if q != [] { SurvivorsOfNone(q[1..], p); }
  }

  lemma {:induction false} SurvivorsExactly(q: seq<Pending>, p: Pending)
    requires OneSampleEach(q)
    ensures WithoutSample(q, p.kind) == Survivors(q, p)
  {
    if q != [] && p.kind.Progress? {
      if ProgressOf(q[0], p.kind.task) {
        assert forall i :: 0 <= i < |q[1..]| ==> q[1..][i] == q[i + 1];
        SurvivorsOfNone(q[1..], p);
      } else {
        SurvivorsExactly(q[1..], p);
        var i := Position(q[1..], Sample(p.kind.task));
        if i < |q[1..]| { assert Keep(q, i + 1) == [q[0]] + Keep(q[1..], i); }
      }
    } else {
      SurvivorsOfNone(q, p);
    }
  }

  predicate OldestNotice(q: seq<Pending>, i: int) {
    0 <= i < |q| && Replaceable(q[i]) && forall j :: 0 <= j < i ==> !Replaceable(q[j])
  }

  lemma OldestIsFirst(q: seq<Pending>)
    ensures forall i :: OldestNotice(q, i) <==> i == Position(q, Notice()) && i < |q|
  {
    forall i ensures OldestNotice(q, i) <==> i == Position(q, Notice()) && i < |q| { }
  }

  lemma EmittedQueue(b: Buffer, capacity: nat, p: Pending, kept: seq<Pending>)
    requires kept == WithoutSample(b.queue, p.kind)
    ensures var after, oldest := Emitted(b, capacity, p), Position(kept, Notice());
      && after.queue == (
           if |kept| < capacity then kept + [p]
           else if oldest < |kept| then kept[..oldest] + kept[oldest + 1..] + [p]
           else kept)
      && (after.overflowed <==> b.overflowed || (|kept| >= capacity && oldest == |kept| && !Replaceable(p)))
      && after.nextSequence == b.nextSequence
  { }

  /** Whatever its kind, an emitted event becomes the last one queued, in place of
      its task's earlier sample or, if the buffer is full, of the oldest notice; it
      is refused only by a buffer full of lifecycle events, and a lifecycle event
      so refused raises overflow. */
  lemma EmittedComesLast(b: Buffer, capacity: nat, p: Pending)
    requires OneSampleEach(b.queue)
    ensures var after, kept := Emitted(b, capacity, p), Survivors(b.queue, p);
      var full := |kept| >= capacity;
      var stuck := full && forall i :: 0 <= i < |kept| ==> !Replaceable(kept[i]);
      && (stuck ==> after.queue == kept)
      && (forall i :: full && OldestNotice(kept, i) ==> after.queue == kept[..i] + kept[i + 1..] + [p])
      && (!full ==> after.queue == kept + [p])
      && (after.overflowed <==> b.overflowed || (stuck && !Replaceable(p)))
      && after.nextSequence == b.nextSequence
  {
    SurvivorsExactly(b.queue, p);
    var kept := Survivors(b.queue, p);
    EmittedQueue(b, capacity, p, kept);
    OldestIsFirst(kept);
    assert Position(kept, Notice()) == |kept| <==> forall i :: 0 <= i < |kept| ==> !Replaceable(kept[i]) by {
      if Position(kept, Notice()) < |kept| { assert Replaceable(kept[Position(kept, Notice())]); }
    }
  }

  lemma {:induction false} OthersAppend(a: seq<Pending>, b: seq<Pending>, task: TaskId)
    ensures Others(a + b, task) == Others(a, task) + Others(b, task)
  {
    if a == [] { assert a + b == b; }
    else {
      assert (a + b)[1..] == a[1..] + b;
      OthersAppend(a[1..], b, task);
    }
  }

  /** Removing a task takes out its events wherever they are, and keeps the others
      in their order. */
  lemma RemovalKeepsOrder(a: seq<Pending>, p: Pending, b: seq<Pending>, task: TaskId)
    ensures Others(a + [p] + b, task) ==
      Others(a, task) + (if p.kind.task == task then [] else [p]) + Others(b, task)
  {
    OthersAppend(a + [p], b, task);
    OthersAppend(a, [p], task);
    assert Others([p], task) == if p.kind.task == task then [] else [p];
  }
}
