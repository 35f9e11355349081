/** A task together with the directory it downloads into: crashes before and
    after every section, conservative loading, and recovery. Sections that touch
    the disk and then the record carry one outcome for each, so a crash between
    the two is the section with its later outcome false. */
module Recovery {
  import opened Ranges
  import opened TaskRecord
  import opened Network
  import opened Lifecycle
  import opened LifecycleSafety

  /** One inode: its name as a partial, its length, the final names linked to it,
      and whether a validation found it complete. */
  datatype Disk = Disk(partial: Option<Path>, size: nat, names: set<Path>, whole: bool)

  /** `handle` says whether the process holds the partial open from an earlier run. */
  datatype World = Up(life: Life, disk: Disk, handle: bool) | Down(record: Task, disk: Disk)

  datatype Happening =
    | Act(event: Event, stray: Option<Path>)
    | Stream(size: nat)
    | Crash
    | Recover(now: nat, written: bool)

  datatype LoadFailure = PartialMissing | PartialLengthMismatch | FinalMissing | FinalLengthMismatch

  /** `validate_recovery_file` for an available destination. */
  function RecoveryCheck(t: Task, d: Disk): Option<LoadFailure> {
    var present := t.partialPath.Some? && t.partialPath == d.partial;
    var expected := ExpectedSize(t);
    if t.partialPath.Some? && present && expected.Some? && d.size != expected.value then Some(PartialLengthMismatch)
    else if t.partialPath.Some? && !present
      && (t.state in {Downloading, Paused, Validating} || (t.state == Promoting && t.finalPath.None?)) then
          Some(PartialMissing)
    else if t.finalPath.Some? && t.finalPath.value !in d.names then Some(FinalMissing)
    else if t.finalPath.Some? && expected.Some? && d.size != expected.value then Some(FinalLengthMismatch)
    else None
  }

  /** `normalize_recovered_task`; both of its writes cannot happen together. */
  function Normalize(env: Env, t: Task, d: Disk, now: nat): Result<Task, StateError> {
    if t.state in {Failed, Cancelled} && t.partialPath.Some? && t.partialPath != d.partial then
      RecordPartialDeletion(t, Latest(now, t))
    else if t.state == Downloading then Transition(env, t, Paused, Latest(now, t))
    else if t.state == Promoting && t.finalPath.Some? then Transition(env, t, Completed, Latest(now, t))
    else if t.state in {Probing, Validating, Promoting} then Transition(env, t, Failed, Latest(now, t))
    else Ok(t)
  }

  function Boot(env: Env, t: Task, d: Disk, now: nat, written: bool): World {
    if RecoveryCheck(t, d).Some? then Down(t, d) else
    var n := Normalize(env, t, d, now);
    if n.Err? || (n.value != t && !written) then Down(t, d)
    else Up(Loaded(n.value), d, false)
  }

  // ---------- What each section does to the directory ----------

  function Unlinked(l: Life, d: Disk, attempted: bool): Disk {
    if attempted && l.task.partialPath.Some? && d.partial == l.task.partialPath then d.(partial := None) else d
  }

  function Touched(env: Env, l: Life, d: Disk, ev: Event, stray: Option<Path>): Disk
    requires Enabled(env, l, ev)
  {
    match ev
    case Ask(CancelInactive(deletePartial, now, written, removed, _)) =>
      Unlinked(l, d, deletePartial && removed && TryMove(env, l, Cancelled, now, written).Some?)
    case Do(Prepare(r, _, _)) =>
      if r.Probed? && !l.cancelled && l.pc == ProbeInitial && l.task.partialPath.None? && r.created.Some?
      then
        var len := if r.created.value.len.Some? then r.created.value.len.value else 0;
        Disk(Some(r.created.value.path), len, {}, false)
      else d.(whole := false)
    case Do(Apply(_, _, _, removed, _)) =>
      Unlinked(l, d, removed && RequestedStop(l) == Cancel(true) && Advance(env, l, ev).task.state == Cancelled)
    case Do(Fail(_, _, discard, removed, _)) =>
      Unlinked(l, d, discard && removed && Advance(env, l, ev).task.state == Failed)
    case Publish(EndValidation(lease)) => d.(whole := lease)
    case Publish(EndPromotion(linked)) =>
      if linked.Some? then d.(names := d.names + {linked.value})
      else if stray.Some? then d.(names := d.names + {stray.value}) else d
    case Publish(RemovePartialLink(unlinked)) => if unlinked then d.(partial := None) else d
    case _ => d
  }

  /** A run keeps the partial it opened; a record without one closes it. */
  function Holds(env: Env, l: Life, handle: bool, ev: Event): bool
    requires Enabled(env, l, ev)
  {
    var after := Advance(env, l, ev);
    if ev.Do? && ev.work.Prepare? && after.pc.Transferring? then true else handle && after.task.partialPath.Some?
  }

  predicate Measures(c: Capture, d: Disk) { c.partial.len.Some? ==> c.partial.len.value == d.size }

  /** The record's partial is a name in the directory. */
  predicate Present(t: Task, d: Disk) { t.partialPath.Some? && t.partialPath == d.partial }

  /** Work whose outcome depends on the directory or on an open handle. */
  predicate PossibleWork(l: Life, d: Disk, handle: bool, w: Work) {
    match w
    case Prepare(r, _, _) =>
      r.Probed? && l.task.partialPath.Some? ==> (handle ==> r.reopened) && (r.reopened ==> handle || Present(l.task, d))
    case Tick(c, _, _, _) => Measures(c, d)
    case PassBoundary(c, _, _) => Measures(c, d)
    case CheckpointStop(held, _, _) =>
      && (held.Some? ==> Measures(held.value, d))
      && (held.Some? <==> handle && l.task.state in {Downloading, Paused, Validating})
    case _ => true
  }

  /** Validation and linking both check that the partial's name still leads to the
      open file. */
  predicate PossiblePublication(l: Life, d: Disk, p: Publication, stray: Option<Path>) {
    match p
    case EndValidation(lease) => lease ==> Present(l.task, d)
    case EndPromotion(linked) => linked.Some? || stray.Some? ==> Present(l.task, d)
    case _ => true
  }

  ghost predicate Possible(env: Env, w: World, h: Happening) {
    match h
    case Act(ev, stray) =>
      && w.Up? && Enabled(env, w.life, ev)
      && (ev.Do? ==> PossibleWork(w.life, w.disk, w.handle, ev.work))
      && (ev.Publish? ==> PossiblePublication(w.life, w.disk, ev.publication, stray))
    case Stream(_) => w.Up? && w.life.pc.Transferring? && ExpectedSize(w.life.task).None?
    case Crash => w.Up?
    case Recover(_, _) => w.Down?
  }

  function Next(env: Env, w: World, h: Happening): World
    requires Possible(env, w, h)
  {
    match h
    case Act(ev, stray) =>
      Up(Advance(env, w.life, ev), Touched(env, w.life, w.disk, ev, stray), Holds(env, w.life, w.handle, ev))
    case Stream(size) => Up(w.life, w.disk.(size := size, whole := false), w.handle)
    case Crash => Down(w.life.durable, w.disk)
    case Recover(now, written) => Boot(env, w.record, w.disk, now, written)
  }

  // ---------- The invariant ----------

  /** What a record says about existing files holds of the directory. */
  predicate Backed(t: Task, d: Disk) {
    && (Present(t, d) && ExpectedSize(t).Some? ==> ExpectedSize(t).value == d.size)
    && (t.state in {Promoting, Completed} ==> d.whole && ExpectedSize(t) == Some(d.size))
    && (t.finalPath.Some? ==> t.finalPath.value in d.names && ExpectedSize(t) == Some(d.size))
  }

  /** A record that cannot be loaded without its partial. */
  predicate Needs(t: Task) {
    t.partialPath.Some? && (t.state in {Downloading, Paused, Validating} || (t.state == Promoting && t.finalPath.None?))
  }

  predicate Found(t: Task, d: Disk) { Needs(t) ==> Present(t, d) }

  predicate Positioned(l: Life, d: Disk) {
    && (l.pc == ProbeInitial ==> l.durable == l.task)
    && (l.pc == EnterPromoting ==> d.whole && ExpectedSize(l.task) == Some(d.size))
    && (l.pc.RecordFirst? ==> l.pc.final in d.names)
    && (l.pc.Cleanup? ==> l.durable == l.task)
    && (l.durable.finalPath.Some? ==> l.task.finalPath == l.durable.finalPath)
    && (l.task.partialPath.Some? && l.durable.partialPath.Some? && ExpectedSize(l.durable).Some? ==>
        ExpectedSize(l.task).Some?)
  }

  /** Memory misses a partial the durable record does not need only in a run about
      to fail, or one that failed with its revision exhausted. */
  predicate Lagging(l: Life, d: Disk) {
    Found(l.durable, d) && !Found(l.task, d) ==>
      l.task.state == Downloading && (l.pc == Failing || (l.pc == Inactive && l.task.revision + 1 >= U64_LIMIT))
  }

  predicate FilesInv(l: Life, d: Disk) {
    Backed(l.task, d) && Backed(l.durable, d) && Positioned(l, d) && Lagging(l, d)
  }

  ghost predicate WorldInv(env: Env, w: World) {
    match w
    case Up(l, d, handle) => Inv(env, l) && FilesInv(l, d) && (handle ==> l.task.partialPath.Some?)
    case Down(t, d) => Sound(env, t) && Backed(t, d)
  }

  // ---------- The two sections that can strand a record ----------

  /** A failing run deletes the partial its durable record needs while neither its
      failure nor the deletion is recorded. */
  predicate FailureStrands(l: Life, w: Work) {
    && w.Fail? && w.discard && w.removed && !w.written && l.task.revision + 1 < U64_LIMIT
    && !(w.forgotten && l.task.revision + 2 < U64_LIMIT)
    && Needs(l.durable) && l.durable.partialPath == l.task.partialPath
  }

  /** A retry in the same process starts to transfer into a partial whose name is
      gone, through the handle of the earlier run. */
  predicate RetryStrands(l: Life, d: Disk, w: Work) {
    && w.Prepare? && w.result.Probed? && w.written && w.result.reopened
    && l.pc == ProbeInitial && !l.cancelled && l.task.partialPath.Some? && !Present(l.task, d)
    && Reusable(l.task, w.result.resource) && l.task.revision + 2 < U64_LIMIT
  }

  predicate Strands(w: World, h: Happening) {
    w.Up? && h.Act? && h.event.Do?
      && (FailureStrands(w.life, h.event.work) || RetryStrands(w.life, w.disk, h.event.work))
  }
}
