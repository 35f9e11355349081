/** A task, its directory and the bytes of its file together: what the final name
    finally reaches. Runs and controls are those of Recovery; while one transfers,
    workers fetch and store bytes as in Transfer. Segmented resources with a strong
    entity tag only. */
module Delivery {
  import opened Ranges
  import opened TaskRecord
  import opened Network
  import opened Lifecycle
  import opened LifecycleSafety
  import opened Recovery
  import opened RecoverySafety
  import opened RecoveryTheorems
  import Storage
  import Coordinator
  import Transfer
  import TransferSafety
  import TransferTheorems
  import Download

  type Accepts = Transfer.Accepts

  /** The bytes behind the task's file: in a process that transferred into it since
      the last crash, or as they are on disk. */
  datatype Bytes = Live(t: Transfer.State, plan: Coordinator.Plan) | Settled(disk: seq<Storage.Byte>)

  datatype State = State(world: World, bytes: Bytes, acc: Accepts)

  /** What the outside decides about the file in a section: whether a flush works,
      how the missing ranges are split over a crew, which version a new file is for,
      and what a crash leaves. */
  datatype Outside = Outside(
    flushed: bool, gaps: seq<FileRange>, crew: nat, plan: Coordinator.Plan, acc: Accepts, left: seq<Storage.Byte>)

  datatype Step = Fetch(work: Transfer.Event) | Section(h: Happening, o: Outside)

  // ---------- Steps ----------

  /** The version a resource was accepted as. */
  predicate Describes(acc: Accepts, r: Resource) {
    r.mode == Segmented && r.expectedSize == Some(acc.total) && r.validators == acc.validators
  }

  ghost predicate Version(acc: Accepts) { HasStrongIdentity(acc.validators) && |Transfer.Content(acc)| == acc.total }

  /** Preparing creates a new file. */
  predicate Creates(l: Life, w: Work) {
    w.Prepare? && w.result.Probed? && !l.cancelled && l.pc == ProbeInitial && l.task.partialPath.None?
      && w.result.created.Some?
  }

  function Launched(env: Env, l: Life, w: Work): bool
    requires Doable(env, l, w)
  {
    w.Prepare? && Done(env, l, w).pc.Transferring?
  }

  /** The storage a run starts to transfer into. */
  function BaseStore(s: State, t: Task): Storage.Store {
    if s.bytes.Live? then s.bytes.t.store else Download.Reopened(s.bytes.disk, t.ranges, s.acc.total)
  }

  ghost predicate Splits(o: Outside, completed: seq<FileRange>, total: nat) {
    o.plan.chunkSize > 0 && o.crew > 0 && Download.Complement(o.gaps, completed, total)
  }

  /** A capture is what storage reports. */
  predicate Captures(b: Bytes, c: Capture, flushed: bool) {
    b.Live? && c.partial.len == b.t.store.expectedLen
      && c.ranges == Storage.DurableCompletedRanges(b.t.store, flushed).1
  }

  ghost predicate WorkFits(env: Env, s: State, w: Work, o: Outside)
    requires s.world.Up? && Doable(env, s.world.life, w)
  {
    var l := s.world.life;
    match w
    case Prepare(r, _, _) =>
      && (r.Probed? ==> r.resource.mode == Segmented && HasStrongIdentity(r.resource.validators))
      && (if Creates(l, w) then
            && r.created.value.len == r.resource.expectedSize && Version(o.acc) && Describes(o.acc, r.resource)
            && Splits(o, [], o.acc.total)
          else Launched(env, l, w) ==> Splits(o, BaseStore(s, l.task).completed, s.acc.total))
    case Tick(c, _, _, _) => Captures(s.bytes, c, o.flushed)
    case PassBoundary(c, _, _) => Captures(s.bytes, c, o.flushed)
    case CheckpointStop(held, _, _) => held.Some? ==> Captures(s.bytes, held.value, o.flushed)
    case EndTransfer(ended) =>
      s.bytes.Live? ==>
        && TransferTheorems.AllStopped(s.bytes.t)
        && (ended == Transferred ==> TransferTheorems.Succeeds(s.bytes.t))
    case EndWait => s.bytes.Live? ==> Splits(o, s.bytes.t.store.completed, s.acc.total)
    case _ => true
  }

  /** Validation passes only exact coverage and the digest the user supplied. */
  predicate Validates(b: Bytes, digest: Option<Storage.Digest>, hash: Storage.Hash) {
    b.Live? && Storage.BeginValidate(b.t.store).Ok?
    && Storage.EndValidate(Storage.BeginValidate(b.t.store).value, digest, hash, None).1.Ok?
  }

  ghost predicate Enabled(env: Env, hash: Storage.Hash, s: State, step: Step) {
    match step
    case Fetch(work) =>
      && s.world.Up? && s.world.life.pc.Transferring? && s.bytes.Live?
      && Transfer.Enabled(s.bytes.t, work, s.bytes.plan, s.acc)
    case Section(h, o) =>
      && Possible(env, s.world, h)
      && (h.Act? && h.event.Do? ==> WorkFits(env, s, h.event.work, o))
      && (h.Act? && h.event == Publish(EndValidation(true)) ==>
          Validates(s.bytes, s.world.life.task.expectedSha256, hash))
      && (h.Crash? && s.bytes.Live? ==> Download.SurvivesCrash(s.bytes.t.store, o.left))
  }

  /** A capture or a validation flushes what was written. */
  function Flushes(h: Happening, o: Outside): bool {
    h.Act? &&
    (match h.event
     case Do(Tick(_, _, _, _)) => o.flushed
     case Do(PassBoundary(_, _, _)) => o.flushed
     case Do(CheckpointStop(held, _, _)) => held.Some? && o.flushed
     case Publish(EndValidation(lease)) => lease
     case _ => false)
  }

  ghost function BytesAfter(env: Env, s: State, h: Happening, o: Outside): Bytes
    requires Possible(env, s.world, h)
  {
    if h.Act? && h.event.Do? && h.event.work.Prepare? then
      var l, w := s.world.life, h.event.work;
      if Creates(l, w) then
        if Launched(env, l, w) then
          Live(TransferTheorems.Begin(Storage.Created(Some(o.acc.total)), o.gaps, o.crew), o.plan)
        else Settled(seq(o.acc.total, i => 0))
      else if Launched(env, l, w) then Live(TransferTheorems.Begin(BaseStore(s, l.task), o.gaps, o.crew), o.plan)
      else s.bytes
    else if h.Act? && h.event == Do(EndWait) && s.bytes.Live? && Next(env, s.world, h).life.pc.Transferring? then
      Live(TransferTheorems.Begin(s.bytes.t.store, o.gaps, o.crew), o.plan)
    else if h.Crash? && s.bytes.Live? then Settled(o.left)
    else if Flushes(h, o) && s.bytes.Live? then s.bytes.(t := s.bytes.t.(store := s.bytes.t.store.(unsynced := [])))
    else s.bytes
  }

  ghost function Apply(env: Env, hash: Storage.Hash, s: State, step: Step): State
    requires Enabled(env, hash, s, step)
    requires s.bytes.Live? ==> s.bytes.plan.chunkSize > 0 && Storage.Inv(s.bytes.t.store)
  {
    match step
    case Fetch(work) => s.(bytes := s.bytes.(t := Transfer.Apply(s.bytes.t, work, s.bytes.plan, s.acc)))
    case Section(h, o) =>
      State(Next(env, s.world, h), BytesAfter(env, s, h, o),
        if h.Act? && h.event.Do? && Creates(s.world.life, h.event.work) then o.acc else s.acc)
  }

  // ---------- The invariant ----------

  /** A record with a file is about the accepted version. */
  predicate Relates(t: Task, acc: Accepts) {
    t.partialPath.Some? || t.finalPath.Some? ==> t.resource.Some? && Describes(acc, t.resource.value)
  }

  /** The bytes a record claims are those of the accepted version, and safe. */
  ghost predicate Claims(ranges: seq<FileRange>, b: Bytes, acc: Accepts)
    requires Version(acc)
  {
    match b
    case Live(t, _) => Download.Vouched(ranges, t.store, acc.total)
    case Settled(disk) =>
      && Canonical(ranges) && Within(ranges, acc.total) && |ranges| <= MAX_COMPLETED_RANGES
      && (forall x: nat :: Covers(ranges, x) ==> x < |disk| && disk[x] == Transfer.Content(acc)[x])
  }

  /** Exactly the accepted version, whatever a crash does. */
  ghost predicate Whole(b: Bytes, acc: Accepts)
    requires Version(acc)
  {
    match b
    case Live(t, _) => t.store.data == Transfer.Content(acc) && t.store.unsynced == []
    case Settled(disk) => disk == Transfer.Content(acc)
  }

  /** The file of a version is well kept. */
  ghost predicate Sane(b: Bytes, acc: Accepts)
    requires Version(acc)
  {
    match b
    case Live(t, plan) => plan.chunkSize > 0 && Transfer.Inv(t, acc) && Download.Progressing(t, plan) && t.workers != []
    case Settled(disk) => |disk| == acc.total
  }

  /** Positions between the start of a transfer and the end of validation. */
  predicate Loading(pc: Pc) {
    || pc.Transferring? || pc.Boundary? || pc.Decide?
    || pc in {Revalidating, RetryWait, EnterValidating, InValidation}
  }

  ghost predicate Held(l: Life, handle: bool, d: Disk, b: Bytes) {
    && (l.task.partialPath.Some? ==> (handle <==> b.Live?))
    && (Loading(l.pc) ==> handle && !d.whole)
    && (b.Live? && !l.pc.Transferring? ==> TransferTheorems.AllStopped(b.t))
  }

  ghost predicate Kept(t: Task, b: Bytes, acc: Accepts)
    requires Version(acc)
  {
    Relates(t, acc) && Claims(t.ranges, b, acc)
  }

  ghost predicate DeliveryInv(env: Env, hash: Storage.Hash, s: State) {
    && WorldInv(env, s.world) && Version(s.acc) && Sane(s.bytes, s.acc)
    && (s.world.disk.whole ==> Whole(s.bytes, s.acc) && Checked(Durable(s.world).expectedSha256, s.acc, hash))
    && Kept(Durable(s.world), s.bytes, s.acc)
    && (Sized(Durable(s.world)) ==> s.world.disk.size == s.acc.total)
    && (match s.world
        case Up(l, d, handle) =>
          Kept(l.task, s.bytes, s.acc) && Held(l, handle, d, s.bytes) && (Sized(l.task) ==> d.size == s.acc.total)
        case Down(t, d) => s.bytes.Settled?)
  }

  predicate Sized(t: Task) { t.partialPath.Some? || t.finalPath.Some? }

  ghost predicate Checked(digest: Option<Storage.Digest>, acc: Accepts, hash: Storage.Hash)
    requires Version(acc)
  {
    digest.Some? ==> hash(Transfer.Content(acc)) == digest.value
  }
}
