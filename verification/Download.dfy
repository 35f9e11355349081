/** A whole download with checkpoints, failed writes of the record, retries,
    crashes at any step, recovery, and resumption. */
module Download {
  import opened Ranges
  import opened Storage
  import opened Coordinator
  import opened Network
  import opened Transfer
  import opened TransferSafety
  import opened TransferTheorems

  /** The part of the task record that vouches for bytes. */
  datatype Record = Record(revision: nat, ranges: seq<FileRange>)

  datatype Process =
    | Down(disk: seq<Byte>)
    | Up(t: State, plan: Plan, memory: Record)

  datatype System = System(durable: Record, process: Process)

  datatype Event =
    | Advance(step: Transfer.Event)
    | Flush(flushed: bool)
    | Touch
    | Persist(written: bool)
    | Retry(missing: seq<FileRange>, plan: Plan, workers: nat)
    | Crash(disk: seq<Byte>)
    | Resume(probed: Validators, size: nat, gaps: seq<FileRange>, next: Plan, crew: nat)

  /** `refresh_completed`: flush the bytes first, then capture the coverage. */
  function Refresh(memory: Record, ranges: seq<FileRange>): Record {
    if |ranges| > MAX_COMPLETED_RANGES || ranges == memory.ranges then memory
    else Record(memory.revision + 1, ranges)
  }

  /** `checkpoint`: a stale revision is refused, an equal one is already durable,
      and a failed write leaves the previous record authoritative. */
  function Checkpoint(durable: Record, memory: Record, written: bool): Record {
    if durable.revision >= memory.revision || !written then durable else memory
  }

  ghost predicate Complement(missing: seq<FileRange>, completed: seq<FileRange>, total: nat) {
    Ordered(missing) && forall x: nat :: Covers(missing, x) <==> x < total && !Covers(completed, x)
  }

  /** A crash keeps every flushed byte; an unflushed byte may hold anything. */
  ghost predicate SurvivesCrash(store: Store, disk: seq<Byte>) {
    |disk| == |store.data| && forall x: nat :: x < |disk| && !Covers(store.unsynced, x) ==> disk[x] == store.data[x]
  }

  ghost predicate Enabled(s: System, ev: Event, acc: Accepts) {
    match ev
    case Advance(step) => s.process.Up? && Transfer.Enabled(s.process.t, step, s.process.plan, acc)
    case Retry(missing, plan, workers) =>
      && s.process.Up? && AllStopped(s.process.t) && plan.chunkSize > 0 && workers > 0
      && Complement(missing, s.process.t.store.completed, acc.total)
    case Crash(disk) => s.process.Up? && SurvivesCrash(s.process.t.store, disk)
    case Resume(probed, size, gaps, next, crew) =>
      && s.process.Down? && probed == acc.validators && size == acc.total
      && |s.process.disk| == acc.total && next.chunkSize > 0 && crew > 0
      && Complement(gaps, s.durable.ranges, acc.total)
    case _ => s.process.Up?
  }

  /** `recover` plus the first transfer over the missing ranges. */
  function Reopened(disk: seq<Byte>, ranges: seq<FileRange>, total: nat): Store {
    Created(Some(total)).(completed := ranges, data := disk)
  }

  ghost function Apply(s: System, ev: Event, acc: Accepts): System
    requires Inv(s, acc) && Enabled(s, ev, acc)
  {
    match ev
    case Advance(step) => s.(process := s.process.(t := Transfer.Apply(s.process.t, step, s.process.plan, acc)))
    case Flush(flushed) =>
      var (store, ranges) := DurableCompletedRanges(s.process.t.store, flushed);
      s.(process := s.process.(t := s.process.t.(store := store),
        memory := if ranges.Ok? then Refresh(s.process.memory, ranges.value) else s.process.memory))
    case Touch => s.(process := s.process.(memory := s.process.memory.(revision := s.process.memory.revision + 1)))
    case Persist(written) => s.(durable := Checkpoint(s.durable, s.process.memory, written))
    case Retry(missing, plan, workers) =>
      s.(process := Up(Begin(s.process.t.store, missing, workers), plan, s.process.memory))
    case Crash(disk) => s.(process := Down(disk))
    case Resume(_, _, gaps, next, crew) =>
      s.(process := Up(Begin(Reopened(s.process.disk, s.durable.ranges, acc.total), gaps, crew), next, s.durable))
  }

  // ---------- The invariant ----------

  /** The record vouches only for bytes that are completed and flushed. */
  ghost predicate Vouched(ranges: seq<FileRange>, store: Store, total: nat) {
    && Canonical(ranges) && Within(ranges, total) && |ranges| <= MAX_COMPLETED_RANGES
    && (forall x: nat :: Covers(ranges, x) ==> Covers(store.completed, x) && !Covers(store.unsynced, x))
  }

  ghost predicate Progressing(t: State, plan: Plan)
    requires plan.chunkSize > 0
  {
    exists gaps: nat, requests: nat :: Progress(t, plan, gaps, requests)
  }

  ghost predicate Inv(s: System, acc: Accepts) {
    && HasStrongIdentity(acc.validators) && |Content(acc)| == acc.total
    && match s.process
       case Down(disk) =>
         && Canonical(s.durable.ranges) && Within(s.durable.ranges, acc.total) && |disk| == acc.total
         && (forall x: nat :: Covers(s.durable.ranges, x) ==> x < acc.total && disk[x] == Content(acc)[x])
         && |s.durable.ranges| <= MAX_COMPLETED_RANGES
       case Up(t, plan, memory) =>
         && plan.chunkSize > 0 && Transfer.Inv(t, acc) && Progressing(t, plan) && t.workers != []
         && Vouched(s.durable.ranges, t.store, acc.total) && Vouched(memory.ranges, t.store, acc.total)
         && s.durable.revision <= memory.revision
         && (s.durable.revision == memory.revision ==> s.durable == memory)
  }

  /** One worker step never uncovers a byte and never dirties a covered one. */
  lemma StepKeepsVouched(t: State, ev: Transfer.Event, plan: Plan, acc: Accepts, ranges: seq<FileRange>)
    requires plan.chunkSize > 0 && Transfer.Inv(t, acc) && Transfer.Enabled(t, ev, plan, acc)
    requires Vouched(ranges, t.store, acc.total)
    ensures Vouched(ranges, Transfer.Apply(t, ev, plan, acc).store, acc.total)
  {
    var store := t.store;
    assert Storage.Inv(store);
    match ev
    case ReserveStep(i) => AssignAlwaysSucceeds(t, i, acc);
    case WriteStep(i, io) => WriteKeepsVouched(t, i, io, acc, ranges);
    case FinishStep(i) =>
      FinishAlwaysSucceeds(t, i, acc);
      FinishKeepsInv(t.store, t.workers[i].writer);
    case NextStep(i, now) => assert ApplyNext(t, i, now, plan).store == t.store;
    case _ =>
  }

  lemma WriteKeepsVouched(t: State, i: nat, io: WriteIo, acc: Accepts, ranges: seq<FileRange>)
    requires Transfer.Inv(t, acc) && i < |t.workers| && t.workers[i].Reserved?
    requires Vouched(ranges, t.store, acc.total)
    ensures Vouched(ranges, SegmentWrite(t.store, t.workers[i].writer, t.workers[i].body, io).0, acc.total)
  {
    var w := t.workers[i];
    assert WriterOpen(w, t.store.active);
    var after := SegmentWrite(t.store, w.writer, w.body, io).0;
    WriteOutcome(t.store, w.writer, w.body, io);
    ClaimedIsUncovered(t, i, acc.total);
    forall x: nat | Covers(ranges, x) ensures !Covers(after.unsynced, x) {
      CoversAppend(t.store.unsynced, Span(w.work.range.start, w.work.range.start + |w.body|), x);
    }
  }

  lemma FlushKeepsTransfer(t: State, acc: Accepts)
    requires Transfer.Inv(t, acc)
    ensures Transfer.Inv(t.(store := t.store.(unsynced := [])), acc)
  {
    var t' := t.(store := t.store.(unsynced := []));
    RegionsKept(t, t', acc.total);
    var store, store' := t.store, t'.store;
    assert Storage.Inv(store);
    assert Storage.Inv(store');
    assert Attempts(t') && Ids(t');
    assert Correct(t', Content(acc));
  }

  lemma BeginVouched(store: Store, missing: seq<FileRange>, workers: nat, plan: Plan, acc: Accepts)
    requires plan.chunkSize > 0 && Startable(store, missing, acc)
    ensures Transfer.Inv(Begin(store, missing, workers), acc)
    ensures Progressing(Begin(store, missing, workers), plan)
  {
    BeginKeepsInv(store, missing, workers, acc);
    BeginMakesProgress(store, missing, workers, plan);
  }

  lemma ResumeKeepsInv(s: System, ev: Event, acc: Accepts)
    requires Inv(s, acc) && ev.Resume? && Enabled(s, ev, acc)
    ensures Inv(Apply(s, ev, acc), acc)
  {
    var store := Reopened(s.process.disk, s.durable.ranges, acc.total);
    assert Storage.Inv(store);
    BeginVouched(store, ev.gaps, ev.crew, ev.next, acc);
  }

  lemma RetryKeepsInv(s: System, ev: Event, acc: Accepts)
    requires Inv(s, acc) && ev.Retry? && Enabled(s, ev, acc)
    ensures Inv(Apply(s, ev, acc), acc)
  {
    NoWritersLeft(s.process.t, acc.total);
    BeginVouched(s.process.t.store, ev.missing, ev.workers, ev.plan, acc);
  }

  lemma FlushKeepsInv(s: System, flushed: bool, acc: Accepts)
    requires Inv(s, acc) && s.process.Up?
    ensures Inv(Apply(s, Flush(flushed), acc), acc)
  {
    var t := s.process.t;
    if flushed {
      FlushKeepsTransfer(t, acc);
      var gaps: nat, requests: nat :| Progress(t, s.process.plan, gaps, requests);
      assert Progress(t.(store := t.store.(unsynced := [])), s.process.plan, gaps, requests);
      assert Storage.Inv(t.store);
    }
  }

  lemma WorkKeepsInv(s: System, step: Transfer.Event, acc: Accepts)
    requires Inv(s, acc) && s.process.Up? && Transfer.Enabled(s.process.t, step, s.process.plan, acc)
    ensures Inv(Apply(s, Advance(step), acc), acc)
  {
    var t, plan := s.process.t, s.process.plan;
    StepKeepsInv(t, step, plan, acc);
    var gaps: nat, requests: nat :| Progress(t, plan, gaps, requests);
    StepMakesProgress(t, step, plan, acc, gaps, requests);
    StepKeepsVouched(t, step, plan, acc, s.durable.ranges);
    StepKeepsVouched(t, step, plan, acc, s.process.memory.ranges);
    WorkerCountKept(t, step, plan, acc);
  }

  lemma WorkerCountKept(t: State, step: Transfer.Event, plan: Plan, acc: Accepts)
    requires plan.chunkSize > 0 && Storage.Inv(t.store) && Transfer.Enabled(t, step, plan, acc)
    ensures |Transfer.Apply(t, step, plan, acc).workers| == |t.workers|
  { }

  lemma CrashKeepsInv(s: System, disk: seq<Byte>, acc: Accepts)
    requires Inv(s, acc) && s.process.Up? && SurvivesCrash(s.process.t.store, disk)
    ensures Inv(Apply(s, Crash(disk), acc), acc)
  {
    assert Regions(s.process.t, acc.total) && Correct(s.process.t, Content(acc));
  }

  lemma EventKeepsInv(s: System, ev: Event, acc: Accepts)
    requires Inv(s, acc) && Enabled(s, ev, acc)
    ensures Inv(Apply(s, ev, acc), acc)
    ensures s.durable.revision <= Apply(s, ev, acc).durable.revision
  {
    match ev
    case Advance(step) => WorkKeepsInv(s, step, acc);
    case Flush(flushed) => FlushKeepsInv(s, flushed, acc);
    case Retry(_, _, _) => RetryKeepsInv(s, ev, acc);
    case Crash(disk) => CrashKeepsInv(s, disk, acc);
    case Resume(_, _, _, _, _) => ResumeKeepsInv(s, ev, acc);
    case Touch =>
    case Persist(_) =>
  }

  // ---------- Every run ----------

  ghost predicate ValidRun(s: System, evs: seq<Event>, acc: Accepts)
    requires Inv(s, acc)
    decreases |evs|
  {
    evs == [] ||
    (Enabled(s, evs[0], acc) && (EventKeepsInv(s, evs[0], acc); ValidRun(Apply(s, evs[0], acc), evs[1..], acc)))
  }

  ghost function RunFrom(s: System, evs: seq<Event>, acc: Accepts): System
    requires Inv(s, acc) && ValidRun(s, evs, acc)
    decreases |evs|
  {
    if evs == [] then s
    else
      EventKeepsInv(s, evs[0], acc);
      RunFrom(Apply(s, evs[0], acc), evs[1..], acc)
  }

  /** A new task: an allocated empty file, no coverage, no process yet. */
  function Fresh(total: nat, revision: nat): System {
    System(Record(revision, []), Down(seq(total, i => 0)))
  }

  lemma {:induction false} RunKeepsInv(s: System, evs: seq<Event>, acc: Accepts)
    requires Inv(s, acc) && ValidRun(s, evs, acc)
    ensures Inv(RunFrom(s, evs, acc), acc)
    ensures s.durable.revision <= RunFrom(s, evs, acc).durable.revision
    decreases |evs|
  {
    if evs != [] {
      EventKeepsInv(s, evs[0], acc);
      var next, rest := Apply(s, evs[0], acc), evs[1..];
      RunKeepsInv(next, rest, acc);
      assert RunFrom(s, evs, acc) == RunFrom(next, rest, acc);
    }
  }

  /** Crash safety of coverage: at every point of every run, whatever a crash
      leaves on disk, every byte the durable record covers is the byte of the
      accepted version; and durable revisions never go down. */
  lemma RecordSurvivesAnyCrash(evs: seq<Event>, revision: nat, acc: Accepts, disk: seq<Byte>)
    requires HasStrongIdentity(acc.validators) && |Content(acc)| == acc.total
    ensures Inv(Fresh(acc.total, revision), acc)
    ensures ValidRun(Fresh(acc.total, revision), evs, acc) ==>
      var end := RunFrom(Fresh(acc.total, revision), evs, acc);
      && revision <= end.durable.revision
      && AcceptedCoverage(acc.total, end.durable.ranges)
      && (forall x: nat :: Covers(end.durable.ranges, x) ==> x < acc.total)
      && ((end.process.Up? && SurvivesCrash(end.process.t.store, disk))
          || (end.process.Down? && disk == end.process.disk) ==>
            |disk| == acc.total && forall x: nat :: Covers(end.durable.ranges, x) ==> disk[x] == Content(acc)[x])
  {
    var start := Fresh(acc.total, revision);
    if ValidRun(start, evs, acc) {
      RunKeepsInv(start, evs, acc);
      var end := RunFrom(start, evs, acc);
      AcceptedIsCanonical(acc.total, end.durable.ranges);
      if end.process.Up? {
        assert Regions(end.process.t, acc.total) && Correct(end.process.t, Content(acc));
      }
    }
  }

  /** However often the download crashed, retried and resumed before, an attempt
      that ends well holds the whole accepted version. */
  lemma ResumedDownloadIsWhole(evs: seq<Event>, revision: nat, acc: Accepts)
    requires HasStrongIdentity(acc.validators) && |Content(acc)| == acc.total
    ensures Inv(Fresh(acc.total, revision), acc)
    ensures ValidRun(Fresh(acc.total, revision), evs, acc) ==>
      var end := RunFrom(Fresh(acc.total, revision), evs, acc);
      end.process.Up? && Succeeds(end.process.t) ==>
        && HasExactCoverage(end.process.t.store.completed, acc.total)
        && end.process.t.store.data == Content(acc)
  {
    var start := Fresh(acc.total, revision);
    if ValidRun(start, evs, acc) {
      RunKeepsInv(start, evs, acc);
      var end := RunFrom(start, evs, acc);
      if end.process.Up? && Succeeds(end.process.t) {
        var gaps: nat, requests: nat :| Progress(end.process.t, end.process.plan, gaps, requests);
        SuccessAt(end.process.t, end.process.plan, acc, gaps, requests);
      }
    }
  }

  // ---------- Checkpoints are worth their cost ----------

  /** A flush followed by a written checkpoint makes exactly the completed bytes
      durable, so a crash after it loses none of them, unless they are in more pieces
      than a record may hold. A flush or a write that fails changes no durable byte. */
  lemma CheckpointsSaveProgress(s: System, acc: Accepts, flushed: bool, written: bool)
    requires Inv(s, acc) && s.process.Up?
    ensures Inv(Apply(s, Flush(flushed), acc), acc)
    ensures var after := Apply(Apply(s, Flush(flushed), acc), Persist(written), acc);
      var completed := s.process.t.store.completed;
      && after.process.Up? && after.process.t.store.completed == completed
      && after.process.t.store.data == s.process.t.store.data
      && (flushed && written && |completed| <= 8192 ==>
           && after.durable.ranges == completed && after.process.memory == after.durable
           && after.process.t.store.unsynced == [])
      && after.process.memory.revision == s.process.memory.revision + (
           if flushed && |completed| <= 8192 && completed != s.process.memory.ranges then 1 else 0)
      && (!written ==> after.durable == s.durable)
      && (!flushed ==> after.durable in {s.durable, s.process.memory})
  {
    EventKeepsInv(s, Flush(flushed), acc);
  }

  /** A new attempt starts from the coverage the record vouches for, over the bytes
      found on disk. */
  lemma ResumptionStartsFrom(s: System, acc: Accepts, gaps: seq<FileRange>, next: Plan, crew: nat)
    requires Inv(s, acc) && Enabled(s, Resume(acc.validators, acc.total, gaps, next, crew), acc)
    ensures var after := Apply(s, Resume(acc.validators, acc.total, gaps, next, crew), acc);
      && after.durable == s.durable && after.process.memory == s.durable
      && after.process.t.store.completed == s.durable.ranges && after.process.t.store.data == s.process.disk
      && after.process.t.coord.pending == gaps && |after.process.t.workers| == crew
  { }
}
