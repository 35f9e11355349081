/** Every section, fetch, crash and recovery keeps a task's records, directory and
    bytes in agreement, so that a final name reaches exactly the accepted bytes. */
module DeliverySafety {
  import opened Ranges
  import opened TaskRecord
  import opened Network
  import opened Lifecycle
  import opened LifecycleSafety
  import opened Recovery
  import opened RecoverySafety
  import opened RecoveryTheorems
  import opened Delivery
  import Storage
  import Coordinator
  import Transfer
  import TransferSafety
  import TransferTheorems
  import Download

  // ---------- Records that only pass claims on ----------

  /** The records claim nothing they did not claim before. */
  predicate Carried(l: Life, next: Life) {
    && DurableFrom(l, next)
    && (next.task.ranges == l.task.ranges || next.task.ranges == [])
    && (Sized(next.task) ==> Sized(l.task) && next.task.resource == l.task.resource)
    && (next.task.partialPath.Some? ==> next.task.partialPath == l.task.partialPath)
  }

  lemma NothingClaimed(b: Bytes, acc: Accepts)
    requires Version(acc)
    ensures Claims([], b, acc)
  { }

  lemma CarriedKept(l: Life, next: Life, b: Bytes, acc: Accepts)
    requires Version(acc) && Kept(l.task, b, acc) && Kept(l.durable, b, acc) && Carried(l, next)
    ensures Kept(next.task, b, acc) && Kept(next.durable, b, acc)
    ensures (Sized(next.task) ==> Sized(l.task)) && (Sized(next.durable) ==> Sized(l.task) || Sized(l.durable))
  {
    NothingClaimed(b, acc);
  }

  lemma AskCarries(env: Env, l: Life, c: Control)
    requires InStep(env, l) && Askable(l, c)
    ensures Carried(l, Asked(env, l, c))
  {
    match c
    case Start(now, written) => MoveShape(env, l, Probing, now, written);
    case Requeue(now, written) => MoveShape(env, l, Queued, now, written);
    case CancelInactive(_, _, _, _, _) => CancelInactiveShape(env, l, c);
    case _ =>
  }

  lemma EndCarries(env: Env, l: Life, w: Work)
    requires Inv(env, l) && Doable(env, l, w) && (w.Apply? || w.Fail?)
    ensures Carried(l, Done(env, l, w)) && Done(env, l, w).pc == Inactive
  {
    if w.Apply? { StopShape(env, l, w); } else { FailShape(env, l, w); }
  }

  lemma MovingCarries(env: Env, l: Life, w: Work)
    requires Doable(env, l, w)
    requires w.ProbeInterrupted? || w.ProbeAgain? || w.EndTransfer? || w.Decided? || w.EndRevalidation? || w.EndWait?
    ensures Done(env, l, w).task == l.task && Done(env, l, w).durable == l.durable
    ensures !w.EndWait? && Loading(Done(env, l, w).pc) ==> Loading(l.pc)
    ensures !w.EndWait? ==> !Done(env, l, w).pc.Transferring?
    ensures w.EndWait? ==> Done(env, l, w).pc in {Transferring(false), StopBoundary} && Loading(l.pc)
  { }

  /** What publishing passes on, and that it never loads again. */
  predicate PublishedOn(l: Life, next: Life) {
    Carried(l, next) && (Loading(next.pc) ==> Loading(l.pc)) && !next.pc.Transferring?
  }

  lemma EnterCarries(env: Env, l: Life, p: Publication)
    requires InStep(env, l) && Publishable(l, p) && (p.BeginValidation? || p.BeginPromotion?)
    ensures PublishedOn(l, Published(env, l, p))
  {
    if p.BeginValidation? { EnterShape(env, l, Validating, InValidation, p.now, p.written); }
    else { EnterShape(env, l, Promoting, Publishing, p.now, p.written); }
  }

  lemma NoteCarries(env: Env, l: Life, p: Publication)
    requires InStep(env, l) && Placed(l.pc, l.task) && Publishable(l, p) && (p.RecordLink? || p.RecordCleanup?)
    ensures PublishedOn(l, Published(env, l, p))
  {
    assert l.task.state == Promoting && Consistent(l.task);
    if p.RecordLink? { NoteShape(env, l, l.pc.final, l.task.partialPath, Cleanup(l.pc.final), p.now, p.written); }
    else { NoteShape(env, l, l.pc.named, None, Completing, p.now, p.written); }
  }

  lemma CompleteCarries(env: Env, l: Life, p: Publication)
    requires InStep(env, l) && Publishable(l, p) && p.Complete?
    ensures PublishedOn(l, Published(env, l, p))
  {
    CompletionShape(env, l, p.now, p.written);
  }

  lemma PublishCarries(env: Env, l: Life, p: Publication)
    requires Inv(env, l) && Publishable(l, p)
    ensures PublishedOn(l, Published(env, l, p))
  {
    if p.BeginValidation? || p.BeginPromotion? { EnterCarries(env, l, p); }
    else if p.RecordLink? || p.RecordCleanup? { NoteCarries(env, l, p); }
    else if p.Complete? { CompleteCarries(env, l, p); }
    else { LinkingCarries(env, l, p); }
  }

  lemma LinkingCarries(env: Env, l: Life, p: Publication)
    requires Publishable(l, p) && (p.EndValidation? || p.EndPromotion? || p.RemovePartialLink? || p.Close?)
    ensures Published(env, l, p).task == l.task && Published(env, l, p).durable == l.durable
    ensures !Loading(Published(env, l, p).pc)
  { }

  // ---------- What sections do to the directory ----------

  /** The length stays and nothing becomes whole. */
  predicate Calm(d: Disk, after: Disk) { after.size == d.size && (after.whole ==> d.whole) }

  lemma AskCalm(env: Env, l: Life, d: Disk, c: Control, stray: Option<Path>)
    requires Askable(l, c)
    ensures Calm(d, Touched(env, l, d, Ask(c), stray))
  { }

  lemma DoCalm(env: Env, l: Life, d: Disk, w: Work, stray: Option<Path>)
    requires Doable(env, l, w) && !Creates(l, w)
    ensures Calm(d, Touched(env, l, d, Do(w), stray))
    ensures w.Prepare? ==> !Touched(env, l, d, Do(w), stray).whole
  { }

  lemma PublishCalm(env: Env, l: Life, d: Disk, p: Publication, stray: Option<Path>)
    requires Publishable(l, p) && p != EndValidation(true)
    ensures Calm(d, Touched(env, l, d, Publish(p), stray))
  { }

  // ---------- Sections that leave the bytes alone ----------

  /** A section that passes claims on keeps everything. */
  lemma CarryingKeeps(env: Env, hash: Storage.Hash, s: State, next: Life, d: Disk, handle: bool)
    requires DeliveryInv(env, hash, s) && s.world.Up? && WorldInv(env, Up(next, d, handle))
    requires Calm(s.world.disk, d) && Carried(s.world.life, next)
    requires next.task.expectedSha256 == s.world.life.task.expectedSha256
    requires next.task.partialPath.Some? || Loading(next.pc) ==> handle == s.world.handle
    requires Loading(next.pc) ==> Loading(s.world.life.pc)
    requires s.bytes.Live? && !next.pc.Transferring? ==> TransferTheorems.AllStopped(s.bytes.t)
    ensures DeliveryInv(env, hash, State(Up(next, d, handle), s.bytes, s.acc))
  {
    CarriedKept(s.world.life, next, s.bytes, s.acc);
  }

  /** A section that neither prepares, waits nor flushes. */
  lemma PlainResult(env: Env, hash: Storage.Hash, s: State, ev: Event, stray: Option<Path>, o: Outside)
    requires Delivery.Enabled(env, hash, s, Section(Act(ev, stray), o))
    requires s.bytes.Live? ==> s.bytes.plan.chunkSize > 0 && Storage.Inv(s.bytes.t.store)
    requires ev.Do? ==> !ev.work.Prepare? && !ev.work.EndWait?
    requires !Flushes(Act(ev, stray), o)
    ensures var l := s.world.life;
      Delivery.Apply(env, hash, s, Section(Act(ev, stray), o)) ==
      State(Up(Advance(env, l, ev), Touched(env, l, s.world.disk, ev, stray), Holds(env, l, s.world.handle, ev)),
        s.bytes, s.acc)
  { }

  lemma HandleCarried(env: Env, l: Life, handle: bool, ev: Event)
    requires Lifecycle.Enabled(env, l, ev) && !(ev.Do? && ev.work.Prepare?)
    ensures Advance(env, l, ev).task.partialPath.Some? ==> Holds(env, l, handle, ev) == handle
  { }

  lemma SectionKeepsInv(env: Env, w: World, ev: Event, stray: Option<Path>)
    requires WorldInv(env, w) && Possible(env, w, Act(ev, stray))
    ensures WorldInv(env, Up(Advance(env, w.life, ev), Touched(env, w.life, w.disk, ev, stray),
      Holds(env, w.life, w.handle, ev)))
  {
    NextKeepsInv(env, w, Act(ev, stray));
  }

  lemma AskSection(env: Env, hash: Storage.Hash, s: State, c: Control, stray: Option<Path>)
    requires DeliveryInv(env, hash, s) && s.world.Up? && Possible(env, s.world, Act(Ask(c), stray))
    ensures var l, d := s.world.life, s.world.disk;
      DeliveryInv(env, hash, State(Up(Asked(env, l, c), Touched(env, l, d, Ask(c), stray),
        Holds(env, l, s.world.handle, Ask(c))), s.bytes, s.acc))
  {
    var l, d := s.world.life, s.world.disk;
    SectionKeepsInv(env, s.world, Ask(c), stray);
    AskFacts(env, l, d, c, stray, s.world.handle);
    CarryingKeeps(env, hash, s, Asked(env, l, c), Touched(env, l, d, Ask(c), stray),
      Holds(env, l, s.world.handle, Ask(c)));
  }

  lemma AskDelivers(env: Env, hash: Storage.Hash, s: State, c: Control, stray: Option<Path>, o: Outside)
    requires DeliveryInv(env, hash, s) && Delivery.Enabled(env, hash, s, Section(Act(Ask(c), stray), o))
    ensures DeliveryInv(env, hash, Delivery.Apply(env, hash, s, Section(Act(Ask(c), stray), o)))
  {
    PlainResult(env, hash, s, Ask(c), stray, o);
    AskSection(env, hash, s, c, stray);
  }

  lemma AskFacts(env: Env, l: Life, d: Disk, c: Control, stray: Option<Path>, handle: bool)
    requires Inv(env, l) && Askable(l, c)
    ensures var next := Asked(env, l, c);
      && Carried(l, next) && Calm(d, Touched(env, l, d, Ask(c), stray))
      && next.task.expectedSha256 == l.task.expectedSha256
      && (next.task.partialPath.Some? ==> Holds(env, l, handle, Ask(c)) == handle)
      && (Loading(next.pc) ==> next.pc == l.pc && next.task == l.task)
      && (next.pc.Transferring? <==> l.pc.Transferring?)
  {
    ControlKeepsInv(env, l, c);
    AskCarries(env, l, c);
    AskCalm(env, l, d, c, stray);
    HandleCarried(env, l, handle, Ask(c));
    AskPositions(env, l, c);
  }

  lemma AskPositions(env: Env, l: Life, c: Control)
    requires InStep(env, l) && Askable(l, c)
    ensures var after := Asked(env, l, c);
      (after.pc == l.pc && (Running(l) ==> after.task == l.task))
        || (l.pc == Inactive && after.pc in {ProbeInitial, ProbeResume})
  { }

  lemma PublishFacts(env: Env, l: Life, d: Disk, p: Publication, stray: Option<Path>, handle: bool)
    requires Inv(env, l) && Publishable(l, p) && p != EndValidation(true)
    ensures var next := Published(env, l, p);
      && PublishedOn(l, next) && Calm(d, Touched(env, l, d, Publish(p), stray))
      && next.task.expectedSha256 == l.task.expectedSha256
      && (next.task.partialPath.Some? ==> Holds(env, l, handle, Publish(p)) == handle)
      && (Loading(next.pc) ==> next.task.partialPath.Some?)
  {
    PublicationKeepsInv(env, l, p);
    PublishCarries(env, l, p);
    PublishCalm(env, l, d, p, stray);
    HandleCarried(env, l, handle, Publish(p));
  }

  lemma PublishSection(env: Env, hash: Storage.Hash, s: State, p: Publication, stray: Option<Path>)
    requires DeliveryInv(env, hash, s) && s.world.Up? && Possible(env, s.world, Act(Publish(p), stray))
    requires p != EndValidation(true)
    ensures var l, d := s.world.life, s.world.disk;
      DeliveryInv(env, hash, State(Up(Published(env, l, p), Touched(env, l, d, Publish(p), stray),
        Holds(env, l, s.world.handle, Publish(p))), s.bytes, s.acc))
  {
    var l, d := s.world.life, s.world.disk;
    SectionKeepsInv(env, s.world, Publish(p), stray);
    PublishFacts(env, l, d, p, stray, s.world.handle);
    NotFetching(l, p);
    CarryingKeeps(env, hash, s, Published(env, l, p), Touched(env, l, d, Publish(p), stray),
      Holds(env, l, s.world.handle, Publish(p)));
  }

  lemma PublishDelivers(env: Env, hash: Storage.Hash, s: State, p: Publication, stray: Option<Path>, o: Outside)
    requires DeliveryInv(env, hash, s) && Delivery.Enabled(env, hash, s, Section(Act(Publish(p), stray), o))
    requires p != EndValidation(true)
    ensures DeliveryInv(env, hash, Delivery.Apply(env, hash, s, Section(Act(Publish(p), stray), o)))
  {
    PlainResult(env, hash, s, Publish(p), stray, o);
    PublishSection(env, hash, s, p, stray);
  }

  lemma NotFetching(l: Life, p: Publication)
    requires Publishable(l, p)
    ensures !l.pc.Transferring?
  { }

  // ---------- The run ----------

  lemma EndFacts(env: Env, l: Life, d: Disk, w: Work, stray: Option<Path>, handle: bool)
    requires Inv(env, l) && Doable(env, l, w) && (w.Apply? || w.Fail?)
    ensures var next := Done(env, l, w);
      && Carried(l, next) && Calm(d, Touched(env, l, d, Do(w), stray)) && next.pc == Inactive && !l.pc.Transferring?
      && next.task.expectedSha256 == l.task.expectedSha256
      && (next.task.partialPath.Some? ==> Holds(env, l, handle, Do(w)) == handle)
  {
    WorkKeepsInv(env, l, w);
    EndCarries(env, l, w);
    DoCalm(env, l, d, w, stray);
    HandleCarried(env, l, handle, Do(w));
  }

  lemma EndSection(env: Env, hash: Storage.Hash, s: State, w: Work, stray: Option<Path>)
    requires DeliveryInv(env, hash, s) && s.world.Up? && Possible(env, s.world, Act(Do(w), stray))
    requires w.Apply? || w.Fail?
    ensures var l, d := s.world.life, s.world.disk;
      DeliveryInv(env, hash, State(Up(Done(env, l, w), Touched(env, l, d, Do(w), stray),
        Holds(env, l, s.world.handle, Do(w))), s.bytes, s.acc))
  {
    var l, d := s.world.life, s.world.disk;
    SectionKeepsInv(env, s.world, Do(w), stray);
    EndFacts(env, l, d, w, stray, s.world.handle);
    CarryingKeeps(env, hash, s, Done(env, l, w), Touched(env, l, d, Do(w), stray),
      Holds(env, l, s.world.handle, Do(w)));
  }

  lemma EndDelivers(env: Env, hash: Storage.Hash, s: State, w: Work, stray: Option<Path>, o: Outside)
    requires DeliveryInv(env, hash, s) && Delivery.Enabled(env, hash, s, Section(Act(Do(w), stray), o))
    requires w.Apply? || w.Fail?
    ensures DeliveryInv(env, hash, Delivery.Apply(env, hash, s, Section(Act(Do(w), stray), o)))
  {
    PlainResult(env, hash, s, Do(w), stray, o);
    EndSection(env, hash, s, w, stray);
  }

  lemma MovingFacts(env: Env, l: Life, d: Disk, w: Work, stray: Option<Path>, handle: bool)
    requires Inv(env, l) && Doable(env, l, w) && (handle ==> l.task.partialPath.Some?)
    requires w.ProbeInterrupted? || w.ProbeAgain? || w.EndTransfer? || w.Decided? || w.EndRevalidation?
    ensures var next := Done(env, l, w);
      && Carried(l, next) && Calm(d, Touched(env, l, d, Do(w), stray)) && next.task == l.task
      && next.durable == l.durable
      && Holds(env, l, handle, Do(w)) == handle && !next.pc.Transferring? && (Loading(next.pc) ==> Loading(l.pc))
      && (l.pc.Transferring? ==> w.EndTransfer?)
  {
    MovingCarries(env, l, w);
    DoCalm(env, l, d, w, stray);
  }

  lemma MovingSection(env: Env, hash: Storage.Hash, s: State, w: Work, stray: Option<Path>)
    requires DeliveryInv(env, hash, s) && s.world.Up? && Possible(env, s.world, Act(Do(w), stray))
    requires w.ProbeInterrupted? || w.ProbeAgain? || w.EndTransfer? || w.Decided? || w.EndRevalidation?
    requires w.EndTransfer? && s.bytes.Live? ==> TransferTheorems.AllStopped(s.bytes.t)
    ensures var l, d := s.world.life, s.world.disk;
      DeliveryInv(env, hash, State(Up(Done(env, l, w), Touched(env, l, d, Do(w), stray),
        Holds(env, l, s.world.handle, Do(w))), s.bytes, s.acc))
  {
    var l, d := s.world.life, s.world.disk;
    SectionKeepsInv(env, s.world, Do(w), stray);
    MovingFacts(env, l, d, w, stray, s.world.handle);
    CarryingKeeps(env, hash, s, Done(env, l, w), Touched(env, l, d, Do(w), stray),
      Holds(env, l, s.world.handle, Do(w)));
  }

  lemma MovingDelivers(env: Env, hash: Storage.Hash, s: State, w: Work, stray: Option<Path>, o: Outside)
    requires DeliveryInv(env, hash, s) && Delivery.Enabled(env, hash, s, Section(Act(Do(w), stray), o))
    requires w.ProbeInterrupted? || w.ProbeAgain? || w.EndTransfer? || w.Decided? || w.EndRevalidation?
    ensures DeliveryInv(env, hash, Delivery.Apply(env, hash, s, Section(Act(Do(w), stray), o)))
  {
    PlainResult(env, hash, s, Do(w), stray, o);
    MovingSection(env, hash, s, w, stray);
  }

  // ---------- Flushing ----------

  function Flushed(b: Bytes): Bytes { if b.Live? then b.(t := b.t.(store := b.t.store.(unsynced := []))) else b }

  lemma FlushKeepsSane(b: Bytes, acc: Accepts)
    requires Version(acc) && Sane(b, acc)
    ensures Sane(Flushed(b), acc)
  {
    if b.Live? {
      Download.FlushKeepsTransfer(b.t, acc);
      var gaps: nat, requests: nat :| TransferTheorems.Progress(b.t, b.plan, gaps, requests);
      assert TransferTheorems.Progress(Flushed(b).t, b.plan, gaps, requests);
    }
  }

  lemma FlushKeepsClaims(ranges: seq<FileRange>, b: Bytes, acc: Accepts)
    requires Version(acc) && Claims(ranges, b, acc)
    ensures Claims(ranges, Flushed(b), acc)
    ensures Whole(b, acc) ==> Whole(Flushed(b), acc)
  { }

  /** Captured coverage is claimed truthfully once it was flushed. */
  lemma CaptureClaims(env: Env, t: Task, b: Bytes, acc: Accepts, c: Capture, flushed: bool)
    requires Version(acc) && Sane(b, acc) && Captures(b, c, flushed) && c.ranges.Ok?
    requires |c.ranges.value| <= MAX_COMPLETED_RANGES
    ensures flushed && Claims(c.ranges.value, Flushed(b), acc) && c.partial.len == Some(acc.total)
  {
    assert Storage.Inv(b.t.store);
  }

  lemma CapturedKept(env: Env, l: Life, c: Capture, next: Life, b: Bytes, acc: Accepts, flushed: bool)
    requires Version(acc) && Sane(b, acc) && Captures(b, c, flushed) && CapturedShape(l, c, next)
    requires Kept(l.task, b, acc) && Kept(l.durable, b, acc) && Sound(env, next.task) && l.task.partialPath.Some?
    ensures var after := if flushed then Flushed(b) else b;
      Kept(next.task, after, acc) && Kept(next.durable, after, acc)
    ensures next.task.resource == l.task.resource && next.task.partialPath == l.task.partialPath
  {
    FlushKeepsClaims(l.task.ranges, b, acc);
    FlushKeepsClaims(l.durable.ranges, b, acc);
    if next.task != l.task { CaptureClaims(env, next.task, b, acc, c, flushed); }
  }

  /** The effect of a capturing section. */
  lemma CaptureResult(env: Env, hash: Storage.Hash, s: State, w: Work, stray: Option<Path>, o: Outside)
    requires Delivery.Enabled(env, hash, s, Section(Act(Do(w), stray), o))
    requires s.bytes.Live? ==> s.bytes.plan.chunkSize > 0 && Storage.Inv(s.bytes.t.store)
    requires w.Tick? || w.PassBoundary? || w.CheckpointStop?
    ensures var l := s.world.life;
      Delivery.Apply(env, hash, s, Section(Act(Do(w), stray), o)) ==
      State(Up(Done(env, l, w), s.world.disk, s.world.handle && Done(env, l, w).task.partialPath.Some?),
        if o.flushed && (w.CheckpointStop? ==> w.held.Some?) then Flushed(s.bytes) else s.bytes, s.acc)
  { }

  predicate HasCapture(w: Work) { w.Tick? || w.PassBoundary? || (w.CheckpointStop? && w.held.Some?) }

  function CaptureOf(w: Work): Capture
    requires HasCapture(w)
  {
    if w.CheckpointStop? then w.held.value else w.capture
  }

  lemma CaptureShape(env: Env, l: Life, w: Work)
    requires Inv(env, l) && Doable(env, l, w) && HasCapture(w)
    ensures var next := Done(env, l, w);
      && CapturedShape(l, CaptureOf(w), next)
      && (Loading(next.pc) ==> Loading(l.pc)) && (next.pc.Transferring? <==> l.pc.Transferring?)
  {
    if w.Tick? { TickShape(env, l, w); } else { CheckpointShape(env, l, CaptureOf(w), w.now, w.written); }
  }

  lemma CaptureSection(env: Env, hash: Storage.Hash, s: State, w: Work, stray: Option<Path>, flushed: bool)
    requires DeliveryInv(env, hash, s) && s.world.Up? && Possible(env, s.world, Act(Do(w), stray)) && HasCapture(w)
    requires Captures(s.bytes, CaptureOf(w), flushed)
    ensures var next := Done(env, s.world.life, w);
      DeliveryInv(env, hash, State(Up(next, s.world.disk, s.world.handle && next.task.partialPath.Some?),
        if flushed then Flushed(s.bytes) else s.bytes, s.acc))
  {
    var l := s.world.life;
    SectionKeepsInv(env, s.world, Do(w), stray);
    CaptureFacts(env, l, s.world.disk, w, stray, s.world.handle);
    FlushKeepsSane(s.bytes, s.acc);
    CapturedKeeps(env, hash, s, Done(env, l, w), CaptureOf(w), flushed);
  }

  lemma CaptureFacts(env: Env, l: Life, d: Disk, w: Work, stray: Option<Path>, handle: bool)
    requires Inv(env, l) && Doable(env, l, w) && HasCapture(w) && PossibleWork(l, d, handle, w)
    ensures var next := Done(env, l, w);
      && CapturedShape(l, CaptureOf(w), next)
      && (Loading(next.pc) ==> Loading(l.pc)) && (next.pc.Transferring? <==> l.pc.Transferring?)
      && next.task.expectedSha256 == l.task.expectedSha256 && l.task.state in {Downloading, Paused, Validating}
      && Touched(env, l, d, Do(w), stray) == d
      && Holds(env, l, handle, Do(w)) == (handle && next.task.partialPath.Some?)
  {
    WorkKeepsInv(env, l, w);
    CaptureShape(env, l, w);
  }

  lemma CaptureDelivers(env: Env, hash: Storage.Hash, s: State, w: Work, stray: Option<Path>, o: Outside)
    requires DeliveryInv(env, hash, s) && Delivery.Enabled(env, hash, s, Section(Act(Do(w), stray), o)) && HasCapture(w)
    ensures DeliveryInv(env, hash, Delivery.Apply(env, hash, s, Section(Act(Do(w), stray), o)))
  {
    CaptureResult(env, hash, s, w, stray, o);
    CaptureSection(env, hash, s, w, stray, o.flushed);
  }

  lemma CapturedKeeps(env: Env, hash: Storage.Hash, s: State, next: Life, c: Capture, flushed: bool)
    requires DeliveryInv(env, hash, s) && s.world.Up? && Captures(s.bytes, c, flushed)
    requires CapturedShape(s.world.life, c, next)
    requires WorldInv(env, Up(next, s.world.disk, s.world.handle && next.task.partialPath.Some?))
    requires next.task.expectedSha256 == s.world.life.task.expectedSha256 && Sane(Flushed(s.bytes), s.acc)
    requires Loading(next.pc) ==> Loading(s.world.life.pc)
    requires next.pc.Transferring? <==> s.world.life.pc.Transferring?
    requires s.world.life.task.state in {Downloading, Paused, Validating}
    ensures DeliveryInv(env, hash, State(Up(next, s.world.disk, s.world.handle && next.task.partialPath.Some?),
      if flushed then Flushed(s.bytes) else s.bytes, s.acc))
  {
    CapturedKept(env, s.world.life, c, next, s.bytes, s.acc, flushed);
  }

  lemma UncheckedStopSection(env: Env, hash: Storage.Hash, s: State, w: Work, stray: Option<Path>)
    requires DeliveryInv(env, hash, s) && s.world.Up? && Possible(env, s.world, Act(Do(w), stray))
    requires w.CheckpointStop? && w.held.None?
    ensures var l := s.world.life;
      DeliveryInv(env, hash, State(Up(Done(env, l, w), s.world.disk, s.world.handle
        && Done(env, l, w).task.partialPath.Some?), s.bytes, s.acc))
  {
    var l := s.world.life;
    SectionKeepsInv(env, s.world, Do(w), stray);
    assert Done(env, l, w) == l.(pc := ApplyStop);
    CarryingKeeps(env, hash, s, l.(pc := ApplyStop), s.world.disk, s.world.handle && l.task.partialPath.Some?);
  }

  lemma UncheckedStopDelivers(env: Env, hash: Storage.Hash, s: State, w: Work, stray: Option<Path>, o: Outside)
    requires DeliveryInv(env, hash, s) && Delivery.Enabled(env, hash, s, Section(Act(Do(w), stray), o))
    requires w.CheckpointStop? && w.held.None?
    ensures DeliveryInv(env, hash, Delivery.Apply(env, hash, s, Section(Act(Do(w), stray), o)))
  {
    CaptureResult(env, hash, s, w, stray, o);
    UncheckedStopSection(env, hash, s, w, stray);
  }

  // ---------- Validation ----------

  /** What passes validation is the accepted version, with the user's digest. */
  lemma ValidatedIsWhole(b: Bytes, acc: Accepts, digest: Option<Storage.Digest>, hash: Storage.Hash)
    requires Version(acc) && Sane(b, acc) && Validates(b, digest, hash)
    ensures Whole(Flushed(b), acc) && Checked(digest, acc, hash)
  {
    var t := b.t;
    FullCoverageIsExact(t.store.completed, acc.total);
    assert Transfer.Correct(t, Transfer.Content(acc));
    assert t.store.data == Transfer.Content(acc);
  }

  lemma ValidationSection(env: Env, hash: Storage.Hash, s: State, stray: Option<Path>)
    requires DeliveryInv(env, hash, s) && s.world.Up?
    requires Possible(env, s.world, Act(Publish(EndValidation(true)), stray))
    requires Validates(s.bytes, s.world.life.task.expectedSha256, hash)
    ensures var l := s.world.life;
      DeliveryInv(env, hash, State(Up(Published(env, l, EndValidation(true)), s.world.disk.(whole := true),
        s.world.handle && l.task.partialPath.Some?), Flushed(s.bytes), s.acc))
  {
    var l := s.world.life;
    SectionKeepsInv(env, s.world, Publish(EndValidation(true)), stray);
    LinkingCarries(env, l, EndValidation(true));
    ValidatedIsWhole(s.bytes, s.acc, l.task.expectedSha256, hash);
    FlushKeepsSane(s.bytes, s.acc);
    FlushKeepsClaims(l.task.ranges, s.bytes, s.acc);
    FlushKeepsClaims(l.durable.ranges, s.bytes, s.acc);
  }

  lemma ValidationDelivers(env: Env, hash: Storage.Hash, s: State, stray: Option<Path>, o: Outside)
    requires DeliveryInv(env, hash, s)
    requires Delivery.Enabled(env, hash, s, Section(Act(Publish(EndValidation(true)), stray), o))
    ensures DeliveryInv(env, hash, Delivery.Apply(env, hash, s, Section(Act(Publish(EndValidation(true)), stray), o)))
  {
    ValidationSection(env, hash, s, stray);
    ValidationResult(env, hash, s, stray, o);
  }

  lemma ValidationResult(env: Env, hash: Storage.Hash, s: State, stray: Option<Path>, o: Outside)
    requires Delivery.Enabled(env, hash, s, Section(Act(Publish(EndValidation(true)), stray), o))
    requires s.bytes.Live? ==> s.bytes.plan.chunkSize > 0 && Storage.Inv(s.bytes.t.store)
    ensures var l, p := s.world.life, EndValidation(true);
      Delivery.Apply(env, hash, s, Section(Act(Publish(p), stray), o)) ==
      State(Up(Published(env, l, p), s.world.disk.(whole := true), s.world.handle && l.task.partialPath.Some?),
        Flushed(s.bytes), s.acc)
  { }

  // ---------- Transfers ----------

  /** A new transfer over the missing ranges of a file nobody writes. */
  lemma BeginSane(store: Storage.Store, o: Outside, acc: Accepts)
    requires Version(acc) && Splits(o, store.completed, acc.total)
    requires Storage.Inv(store) && store.lifecycle == Storage.Active && store.expectedLen == Some(acc.total)
    requires store.active == map[]
    requires forall x: nat :: x < acc.total && Covers(store.completed, x) ==> store.data[x] == Transfer.Content(acc)[x]
    ensures Sane(Live(TransferTheorems.Begin(store, o.gaps, o.crew), o.plan), acc)
  {
    Download.BeginVouched(store, o.gaps, o.crew, o.plan, acc);
  }

  lemma RestartSane(b: Bytes, o: Outside, acc: Accepts)
    requires Version(acc) && Sane(b, acc) && b.Live? && TransferTheorems.AllStopped(b.t)
    requires Splits(o, b.t.store.completed, acc.total)
    ensures Sane(Live(TransferTheorems.Begin(b.t.store, o.gaps, o.crew), o.plan), acc)
  {
    TransferTheorems.NoWritersLeft(b.t, acc.total);
    assert Transfer.Correct(b.t, Transfer.Content(acc));
    BeginSane(b.t.store, o, acc);
  }

  /** Claims speak of the storage only. */
  lemma SameStoreClaims(ranges: seq<FileRange>, b: Bytes, next: Bytes, acc: Accepts)
    requires Version(acc) && b.Live? && next.Live? && next.t.store == b.t.store && Claims(ranges, b, acc)
    ensures Claims(ranges, next, acc)
  { }

  lemma WaitSection(env: Env, hash: Storage.Hash, s: State, stray: Option<Path>, o: Outside)
    requires DeliveryInv(env, hash, s) && s.world.Up? && Possible(env, s.world, Act(Do(EndWait), stray))
    requires s.bytes.Live? ==> Splits(o, s.bytes.t.store.completed, s.acc.total)
    ensures s.bytes.Live?
    ensures var l := s.world.life;
      DeliveryInv(env, hash, State(Up(StopOr(l, Transferring(false)), s.world.disk, s.world.handle
        && l.task.partialPath.Some?),
        if l.cancelled then s.bytes else Live(TransferTheorems.Begin(s.bytes.t.store, o.gaps, o.crew), o.plan), s.acc))
  {
    var l := s.world.life;
    SectionKeepsInv(env, s.world, Do(EndWait), stray);
    assert l.task.partialPath.Some? && s.bytes.Live?;
    RestartSane(s.bytes, o, s.acc);
    var restarted := Live(TransferTheorems.Begin(s.bytes.t.store, o.gaps, o.crew), o.plan);
    SameStoreClaims(l.task.ranges, s.bytes, restarted, s.acc);
    SameStoreClaims(l.durable.ranges, s.bytes, restarted, s.acc);
  }

  lemma WaitDelivers(env: Env, hash: Storage.Hash, s: State, stray: Option<Path>, o: Outside)
    requires DeliveryInv(env, hash, s) && Delivery.Enabled(env, hash, s, Section(Act(Do(EndWait), stray), o))
    ensures DeliveryInv(env, hash, Delivery.Apply(env, hash, s, Section(Act(Do(EndWait), stray), o)))
  {
    WaitSection(env, hash, s, stray, o);
    WaitResult(env, hash, s, stray, o);
  }

  lemma WaitResult(env: Env, hash: Storage.Hash, s: State, stray: Option<Path>, o: Outside)
    requires Delivery.Enabled(env, hash, s, Section(Act(Do(EndWait), stray), o)) && s.bytes.Live?
    requires s.bytes.plan.chunkSize > 0 && Storage.Inv(s.bytes.t.store)
    ensures var l := s.world.life;
      Delivery.Apply(env, hash, s, Section(Act(Do(EndWait), stray), o)) ==
      State(Up(StopOr(l, Transferring(false)), s.world.disk, s.world.handle && l.task.partialPath.Some?),
        if l.cancelled then s.bytes else Live(TransferTheorems.Begin(s.bytes.t.store, o.gaps, o.crew), o.plan), s.acc)
  { }

  lemma FetchDelivers(env: Env, hash: Storage.Hash, s: State, work: Transfer.Event)
    requires DeliveryInv(env, hash, s) && Delivery.Enabled(env, hash, s, Fetch(work))
    ensures DeliveryInv(env, hash, Delivery.Apply(env, hash, s, Fetch(work)))
  {
    var t, plan := s.bytes.t, s.bytes.plan;
    FetchSane(t, work, plan, s.acc);
    Download.StepKeepsVouched(t, work, plan, s.acc, s.world.life.task.ranges);
    Download.StepKeepsVouched(t, work, plan, s.acc, s.world.life.durable.ranges);
  }

  lemma FetchSane(t: Transfer.State, work: Transfer.Event, plan: Coordinator.Plan, acc: Accepts)
    requires Version(acc) && Sane(Live(t, plan), acc) && Transfer.Enabled(t, work, plan, acc)
    ensures Sane(Live(Transfer.Apply(t, work, plan, acc), plan), acc)
  {
    TransferSafety.StepKeepsInv(t, work, plan, acc);
    var gaps: nat, requests: nat :| TransferTheorems.Progress(t, plan, gaps, requests);
    TransferTheorems.StepMakesProgress(t, work, plan, acc, gaps, requests);
    Download.WorkerCountKept(t, work, plan, acc);
  }

  // ---------- Preparing ----------

  lemma ReopenedSane(disk: seq<Storage.Byte>, ranges: seq<FileRange>, o: Outside, acc: Accepts)
    requires Version(acc) && |disk| == acc.total && Claims(ranges, Settled(disk), acc)
    requires Splits(o, ranges, acc.total)
    ensures var after := Live(TransferTheorems.Begin(Download.Reopened(disk, ranges, acc.total), o.gaps, o.crew),
      o.plan);
      Sane(after, acc) && Claims(ranges, after, acc)
  {
    var store := Download.Reopened(disk, ranges, acc.total);
    assert Storage.Inv(store);
    BeginSane(store, o, acc);
  }

  lemma CreatedSane(o: Outside)
    requires Version(o.acc) && Splits(o, [], o.acc.total)
    ensures Sane(Live(TransferTheorems.Begin(Storage.Created(Some(o.acc.total)), o.gaps, o.crew), o.plan), o.acc)
    ensures Sane(Settled(seq(o.acc.total, i => 0)), o.acc)
  {
    var store := Storage.Created(Some(o.acc.total));
    assert Storage.Inv(store);
    BeginSane(store, o, o.acc);
  }

  /** The effect of preparing. */
  lemma PrepareResult(env: Env, hash: Storage.Hash, s: State, w: Work, stray: Option<Path>, o: Outside)
    requires Delivery.Enabled(env, hash, s, Section(Act(Do(w), stray), o)) && w.Prepare?
    requires s.bytes.Live? ==> s.bytes.plan.chunkSize > 0 && Storage.Inv(s.bytes.t.store)
    ensures var l := s.world.life;
      var launched := Launched(env, l, w);
      Delivery.Apply(env, hash, s, Section(Act(Do(w), stray), o)) ==
      State(Up(Done(env, l, w), PreparedDiskOf(l, w.result, s.world.disk),
              launched || (s.world.handle && Done(env, l, w).task.partialPath.Some?)),
        if Creates(l, w) then
          if launched then Live(TransferTheorems.Begin(Storage.Created(Some(o.acc.total)), o.gaps, o.crew), o.plan)
          else Settled(seq(o.acc.total, i => 0))
        else if launched then Live(TransferTheorems.Begin(BaseStore(s, l.task), o.gaps, o.crew), o.plan)
        else s.bytes,
        if Creates(l, w) then o.acc else s.acc)
  {
    PreparedDisk(env, s.world.life, s.world.disk, w, stray);
  }

  /** A launch without a new file continues the retained one. */
  lemma LaunchRetains(env: Env, l: Life, w: Work)
    requires Inv(env, l) && Doable(env, l, w) && w.Prepare? && Launched(env, l, w) && !Creates(l, w)
    ensures SameFiles(l.task, Done(env, l, w).task) && l.task.partialPath.Some?
    ensures Done(env, l, w).durable == Done(env, l, w).task
  {
    PrepareShape(env, l, w);
    LaunchNeedsAFile(env, l, w);
  }

  lemma LaunchNeedsAFile(env: Env, l: Life, w: Work)
    requires Inv(env, l) && Doable(env, l, w) && w.Prepare? && Launched(env, l, w)
    ensures w.result.Probed? && !l.cancelled && (l.pc == ProbeResume ==> l.task.partialPath.Some?)
  { }

  lemma CreatedKept(env: Env, l: Life, w: Work, next: Life, b: Bytes, acc: Accepts)
    requires Inv(env, l) && Creates(l, w) && l.durable == l.task && PreparedShape(l, w.result, next) && Version(acc)
    requires Describes(acc, w.result.resource)
    ensures Kept(next.task, b, acc) && Kept(next.durable, b, acc) && next.task.finalPath.None? && !Sized(l.task)
  {
    assert l.task.ranges == [];
    NothingClaimed(b, acc);
  }

  /** The bytes of a new file. */
  ghost function CreatedBytes(o: Outside, launched: bool): Bytes {
    if launched then Live(TransferTheorems.Begin(Storage.Created(Some(o.acc.total)), o.gaps, o.crew), o.plan)
    else Settled(seq(o.acc.total, i => 0))
  }

  lemma CreationSection(env: Env, hash: Storage.Hash, s: State, w: Work, stray: Option<Path>, o: Outside)
    requires DeliveryInv(env, hash, s) && s.world.Up? && Possible(env, s.world, Act(Do(w), stray))
    requires Creates(s.world.life, w)
    requires w.result.created.value.len == Some(o.acc.total) && Version(o.acc) && Describes(o.acc, w.result.resource)
    requires Splits(o, [], o.acc.total)
    ensures !s.world.handle
    ensures var l := s.world.life;
      var launched := Launched(env, l, w);
      DeliveryInv(env, hash, State(Up(Done(env, l, w), CreatedDisk(w.result.created.value), launched),
        CreatedBytes(o, launched), o.acc))
  {
    var l := s.world.life;
    SectionKeepsInv(env, s.world, Do(w), stray);
    PreparedDisk(env, l, s.world.disk, w, stray);
    PrepareShape(env, l, w);
    CreatedSane(o);
    CreatedKept(env, l, w, Done(env, l, w), CreatedBytes(o, Launched(env, l, w)), o.acc);
  }

  lemma CreationDelivers(env: Env, hash: Storage.Hash, s: State, w: Work, stray: Option<Path>, o: Outside)
    requires DeliveryInv(env, hash, s) && Delivery.Enabled(env, hash, s, Section(Act(Do(w), stray), o))
    requires w.Prepare? && Creates(s.world.life, w)
    ensures DeliveryInv(env, hash, Delivery.Apply(env, hash, s, Section(Act(Do(w), stray), o)))
  {
    PrepareResult(env, hash, s, w, stray, o);
    CreationSection(env, hash, s, w, stray, o);
  }

  lemma RelaunchSection(env: Env, hash: Storage.Hash, s: State, w: Work, stray: Option<Path>, o: Outside)
    requires DeliveryInv(env, hash, s) && s.world.Up? && Possible(env, s.world, Act(Do(w), stray))
    requires w.Prepare? && !Creates(s.world.life, w) && Launched(env, s.world.life, w)
    requires Splits(o, BaseStore(s, s.world.life.task).completed, s.acc.total)
    ensures var l := s.world.life;
      DeliveryInv(env, hash, State(Up(Done(env, l, w), s.world.disk.(whole := false), true),
        Live(TransferTheorems.Begin(BaseStore(s, l.task), o.gaps, o.crew), o.plan), s.acc))
  {
    var l := s.world.life;
    SectionKeepsInv(env, s.world, Do(w), stray);
    PreparedDisk(env, l, s.world.disk, w, stray);
    LaunchRetains(env, l, w);
    BaseSane(s, l, o);
    RelaunchedKeeps(env, hash, s, Done(env, l, w),
      Live(TransferTheorems.Begin(BaseStore(s, l.task), o.gaps, o.crew), o.plan));
  }

  /** Whether the file was still open or had to be reopened. */
  lemma BaseSane(s: State, l: Life, o: Outside)
    requires Version(s.acc) && Sane(s.bytes, s.acc) && Claims(l.task.ranges, s.bytes, s.acc)
    requires s.bytes.Live? ==> TransferTheorems.AllStopped(s.bytes.t)
    requires Splits(o, BaseStore(s, l.task).completed, s.acc.total)
    ensures var b := Live(TransferTheorems.Begin(BaseStore(s, l.task), o.gaps, o.crew), o.plan);
      Sane(b, s.acc) && Claims(l.task.ranges, b, s.acc)
  {
    if s.bytes.Live? {
      RestartSane(s.bytes, o, s.acc);
      SameStoreClaims(l.task.ranges, s.bytes, Live(TransferTheorems.Begin(s.bytes.t.store, o.gaps, o.crew), o.plan),
        s.acc);
    } else {
      ReopenedSane(s.bytes.disk, l.task.ranges, o, s.acc);
    }
  }

  lemma RelaunchDelivers(env: Env, hash: Storage.Hash, s: State, w: Work, stray: Option<Path>, o: Outside)
    requires DeliveryInv(env, hash, s) && Delivery.Enabled(env, hash, s, Section(Act(Do(w), stray), o))
    requires w.Prepare? && !Creates(s.world.life, w) && Launched(env, s.world.life, w)
    ensures DeliveryInv(env, hash, Delivery.Apply(env, hash, s, Section(Act(Do(w), stray), o)))
  {
    PrepareResult(env, hash, s, w, stray, o);
    RelaunchUncreated(env, s.world.life, s.world.disk, w);
    RelaunchSection(env, hash, s, w, stray, o);
  }

  lemma RelaunchUncreated(env: Env, l: Life, d: Disk, w: Work)
    requires Inv(env, l) && Doable(env, l, w) && w.Prepare? && !Creates(l, w)
    ensures PreparedDiskOf(l, w.result, d) == d.(whole := false)
  { }

  lemma RelaunchedKeeps(env: Env, hash: Storage.Hash, s: State, next: Life, b: Bytes)
    requires DeliveryInv(env, hash, s) && s.world.Up? && SameFiles(s.world.life.task, next.task)
    requires next.durable == next.task
    requires WorldInv(env, Up(next, s.world.disk.(whole := false), true)) && next.pc.Transferring?
    requires s.world.life.task.partialPath.Some?
    requires b.Live? && Sane(b, s.acc) && Claims(s.world.life.task.ranges, b, s.acc)
    ensures DeliveryInv(env, hash, State(Up(next, s.world.disk.(whole := false), true), b, s.acc))
  { }

  lemma FailedPreparationSection(env: Env, hash: Storage.Hash, s: State, w: Work, stray: Option<Path>)
    requires DeliveryInv(env, hash, s) && s.world.Up? && Possible(env, s.world, Act(Do(w), stray))
    requires w.Prepare? && !Creates(s.world.life, w) && !Launched(env, s.world.life, w)
    ensures var l := s.world.life;
      DeliveryInv(env, hash, State(Up(Done(env, l, w), s.world.disk.(whole := false),
        s.world.handle && Done(env, l, w).task.partialPath.Some?), s.bytes, s.acc))
  {
    var l, d := s.world.life, s.world.disk;
    SectionKeepsInv(env, s.world, Do(w), stray);
    PreparedDisk(env, l, d, w, stray);
    NotLaunched(env, l, w);
    CarryingKeeps(env, hash, s, Done(env, l, w), d.(whole := false), s.world.handle
      && Done(env, l, w).task.partialPath.Some?);
  }

  lemma FailedPreparationDelivers(env: Env, hash: Storage.Hash, s: State, w: Work, stray: Option<Path>, o: Outside)
    requires DeliveryInv(env, hash, s) && Delivery.Enabled(env, hash, s, Section(Act(Do(w), stray), o))
    requires w.Prepare? && !Creates(s.world.life, w) && !Launched(env, s.world.life, w)
    ensures DeliveryInv(env, hash, Delivery.Apply(env, hash, s, Section(Act(Do(w), stray), o)))
  {
    PrepareResult(env, hash, s, w, stray, o);
    FailedPreparationSection(env, hash, s, w, stray);
  }

  lemma NotLaunched(env: Env, l: Life, w: Work)
    requires Inv(env, l) && Doable(env, l, w) && w.Prepare? && !Creates(l, w) && !Launched(env, l, w)
    ensures Carried(l, Done(env, l, w)) && Done(env, l, w).pc in {Failing, StopBoundary} && !l.pc.Transferring?
    ensures Done(env, l, w).task.expectedSha256 == l.task.expectedSha256
    ensures !(w.result.Probed? && !l.cancelled && l.pc == ProbeInitial && l.task.partialPath.None?
      && w.result.created.Some?)
  {
    WorkKeepsInv(env, l, w);
    PrepareShape(env, l, w);
    UncreatedKeepsPath(env, l, w);
  }

  /** Without a new file no path is adopted. */
  lemma UncreatedKeepsPath(env: Env, l: Life, w: Work)
    requires Inv(env, l) && Doable(env, l, w) && w.Prepare? && !Creates(l, w)
    ensures l.task.partialPath.None? ==> Done(env, l, w).task.partialPath.None?
    ensures l.task.finalPath.None?
  { }

  lemma PrepareDelivers(env: Env, hash: Storage.Hash, s: State, w: Work, stray: Option<Path>, o: Outside)
    requires DeliveryInv(env, hash, s) && Delivery.Enabled(env, hash, s, Section(Act(Do(w), stray), o)) && w.Prepare?
    ensures DeliveryInv(env, hash, Delivery.Apply(env, hash, s, Section(Act(Do(w), stray), o)))
  {
    if Creates(s.world.life, w) { CreationDelivers(env, hash, s, w, stray, o); }
    else if Launched(env, s.world.life, w) { RelaunchDelivers(env, hash, s, w, stray, o); }
    else { FailedPreparationDelivers(env, hash, s, w, stray, o); }
  }

  // ---------- Crashes ----------

  /** Whatever a crash leaves, claims and whole files survive it. */
  lemma CrashKeeps(ranges: seq<FileRange>, b: Bytes, acc: Accepts, left: seq<Storage.Byte>)
    requires Version(acc) && b.Live? && Sane(b, acc) && Claims(ranges, b, acc)
    requires Download.SurvivesCrash(b.t.store, left)
    ensures Sane(Settled(left), acc) && Claims(ranges, Settled(left), acc)
    ensures Whole(b, acc) ==> Whole(Settled(left), acc)
  {
    assert Transfer.Correct(b.t, Transfer.Content(acc));
    if Whole(b, acc) { assert left == b.t.store.data; }
  }

  lemma CrashDelivers(env: Env, hash: Storage.Hash, s: State, o: Outside)
    requires DeliveryInv(env, hash, s) && Delivery.Enabled(env, hash, s, Section(Crash, o))
    ensures DeliveryInv(env, hash, Delivery.Apply(env, hash, s, Section(Crash, o)))
  {
    NextKeepsInv(env, s.world, Crash);
    if s.bytes.Live? { CrashKeeps(s.world.life.durable.ranges, s.bytes, s.acc, o.left); }
  }

  lemma NormalizeCarries(env: Env, t: Task, d: Disk, now: nat)
    requires Sound(env, t) && Normalize(env, t, d, now).Ok?
    ensures var n := Normalize(env, t, d, now).value;
      && (n.ranges == t.ranges || n.ranges == []) && n.expectedSha256 == t.expectedSha256
      && (Sized(n) ==> Sized(t) && n.resource == t.resource)
  {
    NormalizeShape(env, t, d, now);
  }

  lemma RecoverDelivers(env: Env, hash: Storage.Hash, s: State, h: Happening, o: Outside)
    requires DeliveryInv(env, hash, s) && Delivery.Enabled(env, hash, s, Section(h, o)) && h.Recover?
    ensures DeliveryInv(env, hash, Delivery.Apply(env, hash, s, Section(h, o)))
  {
    NextKeepsInv(env, s.world, h);
    NothingClaimed(s.bytes, s.acc);
    if Normalize(env, s.world.record, s.world.disk, h.now).Ok? {
      NormalizeCarries(env, s.world.record, s.world.disk, h.now);
    }
  }

  // ---------- Everything ----------

  lemma DoDelivers(env: Env, hash: Storage.Hash, s: State, w: Work, stray: Option<Path>, o: Outside)
    requires DeliveryInv(env, hash, s) && Delivery.Enabled(env, hash, s, Section(Act(Do(w), stray), o))
    ensures DeliveryInv(env, hash, Delivery.Apply(env, hash, s, Section(Act(Do(w), stray), o)))
  {
    if w.Prepare? { PrepareDelivers(env, hash, s, w, stray, o); }
    else if HasCapture(w) { CaptureDelivers(env, hash, s, w, stray, o); }
    else if w.CheckpointStop? { UncheckedStopDelivers(env, hash, s, w, stray, o); }
    else if w.EndWait? { WaitDelivers(env, hash, s, stray, o); }
    else if w.Apply? || w.Fail? { EndDelivers(env, hash, s, w, stray, o); }
    else { MovingDelivers(env, hash, s, w, stray, o); }
  }

  lemma ActDelivers(env: Env, hash: Storage.Hash, s: State, ev: Event, stray: Option<Path>, o: Outside)
    requires DeliveryInv(env, hash, s) && Delivery.Enabled(env, hash, s, Section(Act(ev, stray), o))
    ensures DeliveryInv(env, hash, Delivery.Apply(env, hash, s, Section(Act(ev, stray), o)))
  {
    if ev.Ask? { AskDelivers(env, hash, s, ev.control, stray, o); }
    else if ev.Do? { DoDelivers(env, hash, s, ev.work, stray, o); }
    else if ev.publication == EndValidation(true) { ValidationDelivers(env, hash, s, stray, o); }
    else { PublishDelivers(env, hash, s, ev.publication, stray, o); }
  }

  lemma StepDelivers(env: Env, hash: Storage.Hash, s: State, step: Delivery.Step)
    requires DeliveryInv(env, hash, s) && Delivery.Enabled(env, hash, s, step)
    ensures DeliveryInv(env, hash, Delivery.Apply(env, hash, s, step))
  {
    if step.Fetch? { FetchDelivers(env, hash, s, step.work); }
    else if step.h.Act? { ActDelivers(env, hash, s, step.h.event, step.h.stray, step.o); }
    else if step.h.Crash? { CrashDelivers(env, hash, s, step.o); }
    else if step.h.Recover? { RecoverDelivers(env, hash, s, step.h, step.o); }
    else { NeverStreams(env, hash, s); }
  }

  /** A segmented task never transfers without a known length. */
  lemma NeverStreams(env: Env, hash: Storage.Hash, s: State)
    requires DeliveryInv(env, hash, s) && s.world.Up? && s.world.life.pc.Transferring?
    ensures ExpectedSize(s.world.life.task).Some?
  { }
}
