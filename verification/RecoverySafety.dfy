/** Every section, crash and recovery keeps the directory behind the records. */
module RecoverySafety {
  import opened Ranges
  import opened TaskRecord
  import opened Network
  import opened Lifecycle
  import opened LifecycleSafety
  import opened Recovery

  // ---------- What a section leaves of the record ----------

  /** Paths, resource and coverage are as before. */
  predicate SameFiles(t: Task, next: Task) {
    && next.partialPath == t.partialPath && next.finalPath == t.finalPath
    && next.resource == t.resource && next.ranges == t.ranges
  }

  predicate PartialForgotten(t: Task, next: Task) {
    next.partialPath.None? && next.finalPath == t.finalPath && next.resource == t.resource && next.ranges == []
  }

  predicate DurableFrom(l: Life, next: Life) { next.durable == l.durable || next.durable == next.task }

  lemma DiscardShape(env: Env, l: Life, now: nat, removed: bool, written: bool)
    requires InStep(env, l)
    ensures var next := Discard(env, l, now, removed, written);
      && next.task.state == l.task.state && next.pc == l.pc
      && (SameFiles(l.task, next.task) || (PartialForgotten(l.task, next.task) && removed && next.durable == next.task))
      && DurableFrom(l, next)
  { }

  /** A section that ends a run or deletes an inactive partial. */
  predicate EndShape(l: Life, next: Life) {
    && (SameFiles(l.task, next.task) || (PartialForgotten(l.task, next.task) && next.durable == next.task))
    && DurableFrom(l, next)
  }

  /** The record is as it was, or its new state leaves no partial missing. */
  predicate SettledShape(l: Life, next: Life) {
    || (next.task == l.task && next.durable == l.durable)
    || next.task.state in {Failed, Cancelled} || next.durable == next.task
  }

  lemma MoveToStopShape(env: Env, l: Life, stop: Stop, next: TaskState, now: nat, written: bool, fallback: bool,
                        removed: bool, forgotten: bool)
    requires InStep(env, l) && l.task.state !in {Failed, Cancelled} && next in {Paused, Failed, Cancelled}
    ensures var after := MoveToStop(env, l, stop, next, now, written, fallback, removed, forgotten);
      && EndShape(l, after) && SettledShape(l, after) && after.pc == Inactive
      && (after.task.state == l.task.state || after.task.state == Failed
          || (after.task.state == next && Allows(l.task.state, next)))
      && (after.task.state == Cancelled ==> after.durable == after.task)
  {
    if TryMove(env, l, next, now, written).None? { FallbackShape(env, l, now, fallback); }
    else { StoppedShape(env, l, stop, next, now, written, removed, forgotten); }
  }

  lemma StoppedShape(env: Env, l: Life, stop: Stop, next: TaskState, now: nat, written: bool, removed: bool,
                     forgotten: bool)
    requires InStep(env, l) && TryMove(env, l, next, now, written).Some?
    ensures var saved := TryMove(env, l, next, now, written).value;
      var after := Finish(if stop == Cancel(true) then Discard(env, saved, now, removed, forgotten) else saved);
      EndShape(l, after) && after.durable == after.task && after.task.state == next && Allows(l.task.state, next)
  {
    TryMoveKeeps(env, l, next, now, written);
    DiscardShape(env, TryMove(env, l, next, now, written).value, now, removed, forgotten);
  }

  lemma FallbackShape(env: Env, l: Life, now: nat, fallback: bool)
    requires InStep(env, l) && l.task.state !in {Failed, Cancelled}
    ensures var after := MarkStopFailed(env, l, now, fallback);
      EndShape(l, after) && SettledShape(l, after) && after.pc == Inactive && after.task.state in {l.task.state, Failed}
  {
    if Transition(env, l.task, Failed, Latest(now, l.task)).Ok? {
      MoveKeeps(env, l, Failed, Latest(now, l.task), fallback);
    }
  }

  lemma StopShape(env: Env, l: Life, w: Work)
    requires InStep(env, l) && l.task.state !in {Failed, Cancelled} && Doable(env, l, w) && w.Apply?
    ensures var next := Done(env, l, w);
      && EndShape(l, next) && SettledShape(l, next) && next.pc == Inactive
      && (next.task.state == l.task.state || next.task.state in {Paused, Failed, Cancelled})
      && (next.task.state == Cancelled ==> next.durable == next.task)
      && (next.task.state == Paused ==> l.task.state in {Downloading, Paused})
  {
    var target := StopTarget(RequestedStop(l), l.task.state);
    if target.Some? {
      MoveToStopShape(env, l, RequestedStop(l), target.value, w.now, w.written, w.fallback, w.removed, w.forgotten);
    }
  }

  /** A failing run's record can fail exactly while it has a revision left. */
  lemma CanFail(env: Env, t: Task, now: nat)
    requires Sound(env, t) && Allows(t.state, Failed) && t.finalPath.None? && t.updatedAt <= now
    ensures Transition(env, t, Failed, now).Ok? <==> t.revision + 1 < U64_LIMIT
  {
    if t.revision + 1 < U64_LIMIT {
      var moved := Bump(t, now).value.(state := Failed);
      assert Consistent(moved);
      assert ValidateTask(env, moved).None?;
    }
  }

  /** The failure as it is in memory after its own checkpoint. */
  function FailedLife(env: Env, l: Life, now: nat, written: bool): Life {
    var t := Transition(env, l.task, Failed, Latest(now, l.task));
    if t.Ok? then Persist(env, l, t.value, written).0 else l
  }

  lemma FailedShape(env: Env, l: Life, now: nat, written: bool)
    requires InStep(env, l) && Allows(l.task.state, Failed) && l.task.state != Failed && l.task.finalPath.None?
    ensures var failed := FailedLife(env, l, now, written);
      && InStep(env, failed) && failed.pc == l.pc
      && SameFiles(l.task, failed.task)
      && (if l.task.revision + 1 < U64_LIMIT
          then failed.task.state == Failed && failed.task.revision == l.task.revision + 1
            && failed.durable == (if written then failed.task else l.durable)
          else failed == l)
  {
    CanFail(env, l.task, Latest(now, l.task));
    if l.task.revision + 1 < U64_LIMIT { MoveKeeps(env, l, Failed, Latest(now, l.task), written); }
  }

  lemma ForgottenShape(env: Env, l: Life, now: nat, removed: bool, forgotten: bool)
    requires InStep(env, l) && l.task.state == Failed && l.task.finalPath.None?
    ensures var next := Discard(env, l, now, removed, forgotten);
      if removed && forgotten && l.task.partialPath.Some? && l.task.revision + 1 < U64_LIMIT
      then PartialForgotten(l.task, next.task) && next.durable == next.task && next.task.state == Failed
      else next == l
  {
    if RecordPartialDeletion(l.task, Latest(now, l.task)).Ok? { ForgetKeepsSound(env, l.task, Latest(now, l.task)); }
  }

  lemma FailShape(env: Env, l: Life, w: Work)
    requires InStep(env, l) && Doable(env, l, w) && w.Fail?
    requires Allows(l.task.state, Failed) && l.task.state != Failed && l.task.finalPath.None?
    ensures var next := Done(env, l, w);
      && EndShape(l, next) && next.pc == Inactive
      && (if l.task.revision + 1 < U64_LIMIT then next.task.state == Failed
          else next.task == l.task && next.durable == l.durable)
      && (next.task.state == Failed ==>
            (next.durable == next.task || next.durable == l.durable)
            && (next.durable == next.task <==>
                 w.written || (w.discard && w.removed && w.forgotten && l.task.partialPath.Some?
                   && l.task.revision + 2 < U64_LIMIT)))
  {
    FailedShape(env, l, w.now, w.written);
    var failed := FailedLife(env, l, w.now, w.written);
    if w.discard && failed.task.state == Failed { ForgottenShape(env, failed, w.now, w.removed, w.forgotten); }
  }

  /** What ending a run does to the directory. */
  predicate Deleted(d: Disk, after: Disk, t: Task) {
    after == d || (after == d.(partial := None) && t.partialPath == d.partial)
  }

  lemma BackedWithout(t: Task, d: Disk)
    requires Backed(t, d)
    ensures Backed(t, d.(partial := None))
  { }

  lemma EndedFiles(l: Life, next: Life, d: Disk, after: Disk)
    requires FilesInv(l, d) && EndShape(l, next) && next.pc == Inactive
    requires next.task.state == l.task.state || next.task.state in {Paused, Failed, Cancelled}
    requires l.task.state !in {Failed, Cancelled}
    requires Deleted(d, after, l.task)
    requires after != d ==> next.task.state in {Failed, Cancelled}
    requires SettledShape(l, next)
    requires next.task == l.task ==> after == d && (l.pc != Failing || l.task.revision + 1 >= U64_LIMIT)
    ensures FilesInv(next, after)
  {
    BackedWithout(l.task, d);
    BackedWithout(l.durable, d);
  }

  // ---------- Controls ----------

  lemma MoveShape(env: Env, l: Life, next: TaskState, now: nat, written: bool)
    requires InStep(env, l)
    ensures var moved := TryMove(env, l, next, now, written);
      moved.Some? ==>
        && moved.value.durable == moved.value.task && SameFiles(l.task, moved.value.task)
        && moved.value.task.state == next && moved.value.pc == l.pc && moved.value.task.revision == l.task.revision + 1
  {
    TryMoveKeeps(env, l, next, now, written);
  }

  lemma RequeueKeeps(env: Env, l: Life, d: Disk, c: Control)
    requires WorldInv(env, Up(l, d, false)) && Askable(l, c) && c.Requeue?
    ensures FilesInv(Asked(env, l, c), d)
  {
    MoveShape(env, l, Queued, c.now, c.written);
  }

  lemma StartKeeps(env: Env, l: Life, d: Disk, c: Control)
    requires WorldInv(env, Up(l, d, false)) && Askable(l, c) && c.Start?
    ensures FilesInv(Asked(env, l, c), d)
  {
    MoveShape(env, l, Probing, c.now, c.written);
  }

  lemma CancelInactiveShape(env: Env, l: Life, c: Control)
    requires InStep(env, l) && Askable(l, c) && c.CancelInactive?
    ensures var after := Asked(env, l, c);
      && EndShape(l, after) && after.pc == Inactive
      && (if TryMove(env, l, Cancelled, c.now, c.written).None? then after == l
          else after.task != l.task && after.task.state == Cancelled && after.durable == after.task)
  {
    MoveShape(env, l, Cancelled, c.now, c.written);
    var moved := TryMove(env, l, Cancelled, c.now, c.written);
    if moved.Some? {
      TryMoveKeeps(env, l, Cancelled, c.now, c.written);
      DiscardShape(env, moved.value, c.now, c.removed, c.forgotten);
    }
  }

  lemma CancelInactiveDisk(env: Env, l: Life, d: Disk, c: Control, stray: Option<Path>)
    requires Askable(l, c) && c.CancelInactive?
    ensures var after := Touched(env, l, d, Ask(c), stray);
      Deleted(d, after, l.task) && (TryMove(env, l, Cancelled, c.now, c.written).None? ==> after == d)
  { }

  lemma CancelInactiveKeeps(env: Env, l: Life, d: Disk, c: Control, stray: Option<Path>)
    requires InStep(env, l) && FilesInv(l, d) && Askable(l, c) && c.CancelInactive?
    ensures FilesInv(Asked(env, l, c), Touched(env, l, d, Ask(c), stray))
  {
    CancelInactiveShape(env, l, c);
    CancelInactiveDisk(env, l, d, c, stray);
    if TryMove(env, l, Cancelled, c.now, c.written).Some? {
      EndedFiles(l, Asked(env, l, c), d, Touched(env, l, d, Ask(c), stray));
    }
  }

  lemma AskKeeps(env: Env, l: Life, d: Disk, c: Control, stray: Option<Path>)
    requires WorldInv(env, Up(l, d, false)) && Askable(l, c)
    ensures FilesInv(Asked(env, l, c), Touched(env, l, d, Ask(c), stray))
  {
    match c
    case Start(_, _) => StartKeeps(env, l, d, c);
    case Requeue(_, _) => RequeueKeeps(env, l, d, c);
    case CancelInactive(_, _, _, _, _) => CancelInactiveKeeps(env, l, d, c, stray);
    case _ => RequestKeepsFiles(env, l, d, c);
  }

  lemma RequestKeepsFiles(env: Env, l: Life, d: Disk, c: Control)
    requires WorldInv(env, Up(l, d, false)) && Askable(l, c) && !c.Start? && !c.Requeue? && !c.CancelInactive?
    ensures FilesInv(Asked(env, l, c), d)
  { }

  // ---------- The run ----------

  lemma LaunchShape(env: Env, l: Life, now: nat, written: bool)
    requires l.durable.revision <= l.task.revision
    ensures var after := Launch(env, l, now, written);
      && SameFiles(l.task, after.task) && after.task.state in {l.task.state, Downloading}
      && DurableFrom(l, after) && after.pc in {Transferring(false), Failing}
      && (if after.pc.Transferring? then after.durable == after.task && after.task.state == Downloading && written
          else after.durable == l.durable)
  { }

  lemma OpenShape(env: Env, t: Task, r: ProbeResult, at: nat)
    requires r.Probed? && OpenPartial(env, t, r, at).Ok?
    ensures var chosen := OpenPartial(env, t, r, at).value;
      && chosen.state == t.state && chosen.finalPath == t.finalPath && chosen.resource == t.resource
      && chosen.ranges == t.ranges
      && t.revision <= chosen.revision
      && (t.partialPath.Some? ==> chosen == t && r.reopened)
      && (t.partialPath.None? ==>
            && r.created.Some? && chosen.partialPath == Some(r.created.value.path)
            && ExpectedSize(t) == r.created.value.len)
  { }

  /** Preparing keeps a retained partial or adopts the created one. */
  predicate PreparedShape(l: Life, r: ProbeResult, after: Life) {
    && after.task.finalPath == l.task.finalPath && after.task.ranges == l.task.ranges
    && after.task.state in {l.task.state, Downloading}
    && (SameFiles(l.task, after.task)
        || (l.task.partialPath.None? && after.task.partialPath.None?)
        || (l.task.partialPath.None? && r.Probed? && r.created.Some?
          && after.task.partialPath == Some(r.created.value.path)
            && ExpectedSize(after.task) == r.created.value.len && after.task.resource == Some(r.resource)))
    && DurableFrom(l, after)
    && (after.pc == StopBoundary ==> after.task == l.task && after.durable == l.durable)
    && (after.pc.Transferring? ==>
         && r.Probed? && after.durable == after.task && after.task.state == Downloading
         && after.task.resource == Some(r.resource) && after.task.partialPath.Some?
         && (l.task.partialPath.Some? ==> r.reopened && Reusable(l.task, r.resource)))
    && (!after.pc.Transferring? ==> after.durable == l.durable)
    && after.pc in {Transferring(false), Failing, StopBoundary}
  }

  lemma InitialShape(env: Env, l: Life, r: ProbeResult, now: nat, written: bool)
    requires r.Probed? && l.pc == ProbeInitial && InStep(env, l)
    ensures PreparedShape(l, r, PrepareInitial(env, l, r, now, written))
  {
    var at := Latest(now, l.task);
    var known := ApplyResource(l.task, r.resource, at);
    if known.Ok? && OpenPartial(env, known.value, r, at).Ok? {
      OpenShape(env, known.value, r, at);
      LaunchShape(env, l.(task := OpenPartial(env, known.value, r, at).value), at, written);
    }
  }

  lemma ResumeShape(env: Env, l: Life, r: ProbeResult, now: nat, written: bool)
    requires r.Probed? && l.pc == ProbeResume && InStep(env, l)
    ensures PreparedShape(l, r, PrepareResume(env, l, r, now, written))
  {
    LaunchShape(env, l, Latest(now, l.task), written);
  }

  lemma PrepareShape(env: Env, l: Life, w: Work)
    requires InStep(env, l) && Doable(env, l, w) && w.Prepare?
    ensures PreparedShape(l, w.result, Done(env, l, w))
  {
    if w.result.Probed? && !l.cancelled {
      if l.pc == ProbeInitial { InitialShape(env, l, w.result, w.now, w.written); }
      else { ResumeShape(env, l, w.result, w.now, w.written); }
    }
  }

  function CreatedDisk(p: PartialInfo): Disk {
    Disk(Some(p.path), if p.len.Some? then p.len.value else 0, {}, false)
  }

  /** The directory after preparing: a created file, or the old one, no longer
      known to be whole. */
  function PreparedDiskOf(l: Life, r: ProbeResult, d: Disk): Disk {
    if r.Probed? && !l.cancelled && l.pc == ProbeInitial && l.task.partialPath.None? && r.created.Some?
    then CreatedDisk(r.created.value) else d.(whole := false)
  }

  lemma PreparedFiles(l: Life, r: ProbeResult, after: Life, d: Disk, next: Disk)
    requires FilesInv(l, d) && PreparedShape(l, r, after) && l.task.state in {Probing, Paused} && l.task.finalPath.None?
    requires l.pc in {ProbeInitial, ProbeResume}
    requires l.durable.state !in {Promoting, Completed} && l.durable.finalPath.None?
    requires l.task.partialPath.None? ==> l.durable == l.task
    requires l.pc == ProbeResume ==> l.task.partialPath.Some?
    requires l.cancelled ==> after.task == l.task
    requires next == PreparedDiskOf(l, r, d)
    ensures FilesInv(after, next)
  { }

  lemma PrepareKeeps(env: Env, l: Life, d: Disk, w: Work, stray: Option<Path>)
    requires Inv(env, l) && FilesInv(l, d) && Doable(env, l, w) && w.Prepare?
    ensures FilesInv(Done(env, l, w), Touched(env, l, d, Do(w), stray))
  {
    PrepareShape(env, l, w);
    PreparedDisk(env, l, d, w, stray);
    PreparedFiles(l, w.result, Done(env, l, w), d, Touched(env, l, d, Do(w), stray));
  }

  lemma PreparedDisk(env: Env, l: Life, d: Disk, w: Work, stray: Option<Path>)
    requires Doable(env, l, w) && w.Prepare?
    ensures Touched(env, l, d, Do(w), stray) == PreparedDiskOf(l, w.result, d)
    ensures l.cancelled ==> Done(env, l, w).task == l.task
  { }

  /** A checkpoint of captured coverage. */
  predicate CapturedShape(l: Life, c: Capture, next: Life) {
    && next.task.state == l.task.state && next.task.finalPath == l.task.finalPath
    && next.task.partialPath == l.task.partialPath
    && (next.task == l.task || RefreshedTo(l.task, c, next.task)) && DurableFrom(l, next)
  }

  predicate RefreshedTo(t: Task, c: Capture, next: Task) {
    && c.ranges.Ok? && next.ranges == c.ranges.value && t.resource.Some? && t.partialPath == Some(c.partial.path)
    && next.resource == Some(t.resource.value.(expectedSize := c.partial.len))
    && (ExpectedSize(t) == c.partial.len || (ExpectedSize(t).None? && t.resource.value.mode == Single))
    && next.state == t.state && next.finalPath == t.finalPath && next.partialPath == t.partialPath
  }

  lemma CheckpointShape(env: Env, l: Life, c: Capture, now: nat, written: bool)
    requires InStep(env, l) && CaptureFits(l, c)
    ensures CapturedShape(l, c, Checkpointed(env, l, c, now, written).0)
    ensures var t := RefreshCompleted(l.task, c.partial, c.ranges, Latest(now, l.task));
      t.Ok? ==> t.value == l.task || RefreshedTo(l.task, c, t.value)
  {
    CheckpointKeeps(env, l, c, now, written);
  }

  lemma CapturedFiles(l: Life, c: Capture, next: Life, d: Disk)
    requires FilesInv(l, d) && CapturedShape(l, c, next) && Measures(c, d)
    requires l.task.finalPath.None? && l.task.state in {Downloading, Paused, Validating, Probing}
    requires l.pc !in {ProbeInitial, EnterPromoting} && l.pc !in {Failing, Inactive}
    requires next.pc in {Failing, ApplyStop} || next.pc.Decide? || next.pc.Transferring?
    ensures FilesInv(next, d)
  { }

  lemma TickShape(env: Env, l: Life, w: Work)
    requires InStep(env, l) && Doable(env, l, w) && w.Tick?
    ensures CapturedShape(l, w.capture, Done(env, l, w)) && Done(env, l, w).pc.Transferring?
  {
    CheckpointShape(env, l, w.capture, w.now, w.written);
    CheckpointKeeps(env, l, w.capture, w.now, w.written);
  }

  lemma TickKeeps(env: Env, l: Life, d: Disk, w: Work)
    requires Inv(env, l) && FilesInv(l, d) && Doable(env, l, w) && w.Tick? && Measures(w.capture, d)
    ensures FilesInv(Done(env, l, w), d)
  {
    TickShape(env, l, w);
    CapturedFiles(l, w.capture, Done(env, l, w), d);
  }

  lemma BoundaryKeeps(env: Env, l: Life, d: Disk, w: Work)
    requires Inv(env, l) && FilesInv(l, d) && Doable(env, l, w) && w.PassBoundary? && Measures(w.capture, d)
    ensures FilesInv(Done(env, l, w), d)
  {
    CheckpointShape(env, l, w.capture, w.now, w.written);
    CapturedFiles(l, w.capture, Done(env, l, w), d);
  }

  lemma HeldKeeps(env: Env, l: Life, d: Disk, w: Work)
    requires Inv(env, l) && FilesInv(l, d) && Doable(env, l, w) && w.CheckpointStop?
    requires w.held.Some? ==> Measures(w.held.value, d)
    ensures FilesInv(Done(env, l, w), d)
  {
    if w.held.Some? {
      CheckpointShape(env, l, w.held.value, w.now, w.written);
      CapturedFiles(l, w.held.value, Done(env, l, w), d);
    }
  }

  lemma ApplyDisk(env: Env, l: Life, d: Disk, w: Work, stray: Option<Path>)
    requires Doable(env, l, w) && w.Apply?
    ensures var after := Touched(env, l, d, Do(w), stray);
      Deleted(d, after, l.task) && (after != d ==> Done(env, l, w).task.state == Cancelled)
  { }

  lemma ApplyKeeps(env: Env, l: Life, d: Disk, w: Work, stray: Option<Path>)
    requires Inv(env, l) && FilesInv(l, d) && Doable(env, l, w) && w.Apply?
    ensures FilesInv(Done(env, l, w), Touched(env, l, d, Do(w), stray))
  {
    StopShape(env, l, w);
    ApplyDisk(env, l, d, w, stray);
    EndedFiles(l, Done(env, l, w), d, Touched(env, l, d, Do(w), stray));
  }

  lemma FailDisk(env: Env, l: Life, d: Disk, w: Work, stray: Option<Path>)
    requires Doable(env, l, w) && w.Fail?
    ensures Touched(env, l, d, Do(w), stray) ==
      if w.discard && w.removed && Done(env, l, w).task.state == Failed && Present(l.task, d) then d.(partial := None)
        else d
  { }

  lemma FailKeeps(env: Env, l: Life, d: Disk, w: Work, stray: Option<Path>)
    requires InStep(env, l) && FilesInv(l, d) && Placed(l.pc, l.task) && Doable(env, l, w) && w.Fail?
    ensures FilesInv(Done(env, l, w), Touched(env, l, d, Do(w), stray))
  {
    FailDisk(env, l, d, w, stray);
    FailShape(env, l, w);
    EndedFiles(l, Done(env, l, w), d, Touched(env, l, d, Do(w), stray));
  }

  lemma MovingKeeps(env: Env, l: Life, d: Disk, w: Work)
    requires Inv(env, l) && FilesInv(l, d) && Doable(env, l, w)
    requires w.ProbeInterrupted? || w.ProbeAgain? || w.EndTransfer? || w.Decided? || w.EndRevalidation? || w.EndWait?
    ensures FilesInv(Done(env, l, w), d)
  {
    assert Done(env, l, w).task == l.task && Done(env, l, w).durable == l.durable;
  }

  lemma DoKeeps(env: Env, l: Life, d: Disk, w: Work, handle: bool, stray: Option<Path>)
    requires Inv(env, l) && FilesInv(l, d) && Doable(env, l, w) && PossibleWork(l, d, handle, w)
    ensures FilesInv(Done(env, l, w), Touched(env, l, d, Do(w), stray))
  {
    match w
    case Prepare(_, _, _) => PrepareKeeps(env, l, d, w, stray);
    case Apply(_, _, _, _, _) => ApplyKeeps(env, l, d, w, stray);
    case Fail(_, _, _, _, _) => FailKeeps(env, l, d, w, stray);
    case Tick(_, _, _, _) => TickKeeps(env, l, d, w);
    case PassBoundary(_, _, _) => BoundaryKeeps(env, l, d, w);
    case CheckpointStop(_, _, _) => HeldKeeps(env, l, d, w);
    case _ => MovingKeeps(env, l, d, w);
  }

  // ---------- Publication ----------

  lemma EnterShape(env: Env, l: Life, state: TaskState, pc: Pc, now: nat, written: bool)
    requires InStep(env, l)
    ensures var after := Enter(env, l, state, pc, now, written);
      && SameFiles(l.task, after.task)
      && ((after.task == l.task && after.durable == l.durable && after.pc in {StopBoundary, Failing})
          || (after.task.state == state && after.durable == after.task && after.pc == pc))
  {
    TryMoveKeeps(env, l, state, now, written);
  }

  lemma BeginValidationKeeps(env: Env, l: Life, d: Disk, p: Publication)
    requires Inv(env, l) && FilesInv(l, d) && Publishable(l, p) && p.BeginValidation?
    ensures FilesInv(Published(env, l, p), d)
  {
    EnterShape(env, l, Validating, InValidation, p.now, p.written);
  }

  lemma BeginPromotionKeeps(env: Env, l: Life, d: Disk, p: Publication)
    requires Inv(env, l) && FilesInv(l, d) && Publishable(l, p) && p.BeginPromotion?
    ensures FilesInv(Published(env, l, p), d)
  {
    EnterShape(env, l, Promoting, Publishing, p.now, p.written);
  }

  lemma NoteShape(env: Env, l: Life, final: Path, retained: Option<Path>, pc: Pc, now: nat, written: bool)
    requires InStep(env, l)
    ensures var after := NotePromotion(env, l, final, retained, pc, now, written);
      && after.task.state == l.task.state && after.task.resource == l.task.resource
      && after.task.ranges == l.task.ranges
      && ((after.task == l.task && after.durable == l.durable) || after.task.finalPath == Some(final))
      && (after.task.finalPath == l.task.finalPath || l.task.finalPath.None?)
      && (after.task.partialPath == l.task.partialPath || after.task.partialPath.None?)
      && DurableFrom(l, after) && after.pc in {pc, Inactive}
      && (after.pc == pc && pc != Inactive ==> after.durable == after.task && after.task.finalPath == Some(final))
  {
    var t := RecordPromotion(env, l.task, final, retained, Latest(now, l.task));
    if t.Ok? {
      PromotionKeepsSound(env, l.task, final, retained, Latest(now, l.task));
      PersistKeeps(env, l, t.value, written);
    }
  }

  lemma CompletionShape(env: Env, l: Life, now: nat, written: bool)
    requires InStep(env, l) && l.pc == Completing
    ensures var after := Published(env, l, Complete(now, written));
      && SameFiles(l.task, after.task) && (after.task == l.task || after.task.state == Completed)
      && DurableFrom(l, after) && after.pc in {Closing, Inactive}
  {
    TryMoveKeeps(env, l, Completed, now, written);
  }

  /** Noting a published name, or forgetting a partial once it has one. */
  lemma NotedFiles(l: Life, next: Life, d: Disk)
    requires FilesInv(l, d) && l.task.state == Promoting && DurableFrom(l, next)
    requires next.task.state in {Promoting, Completed} && ExpectedSize(next.task) == ExpectedSize(l.task)
    requires next.task.finalPath == l.task.finalPath
      || (l.task.finalPath.None? && next.task.finalPath.Some? && next.task.finalPath.value in d.names)
    requires next.task.partialPath == l.task.partialPath || (next.task.partialPath.None? && next.task.finalPath.Some?)
    requires next.task.finalPath.Some? || (next.task == l.task && next.durable == l.durable)
    requires l.pc !in {Failing, Inactive}
    requires next.pc in {Inactive, Completing, Closing} || (next.pc.Cleanup? && next.durable == next.task)
    ensures FilesInv(next, d)
  { }

  lemma RecordLinkKeeps(env: Env, l: Life, d: Disk, p: Publication)
    requires InStep(env, l) && FilesInv(l, d) && Placed(l.pc, l.task) && Publishable(l, p) && p.RecordLink?
    ensures FilesInv(Published(env, l, p), d)
  {
    NoteShape(env, l, l.pc.final, l.task.partialPath, Cleanup(l.pc.final), p.now, p.written);
    RetainsPartial(env, l, l.pc.final, Cleanup(l.pc.final), p.now, p.written);
    NotedFiles(l, Published(env, l, p), d);
  }

  lemma RetainsPartial(env: Env, l: Life, final: Path, pc: Pc, now: nat, written: bool)
    ensures NotePromotion(env, l, final, l.task.partialPath, pc, now, written).task.partialPath == l.task.partialPath
  { }

  lemma RecordCleanupKeeps(env: Env, l: Life, d: Disk, p: Publication)
    requires InStep(env, l) && FilesInv(l, d) && Placed(l.pc, l.task) && Publishable(l, p) && p.RecordCleanup?
    ensures FilesInv(Published(env, l, p), d)
  {
    NoteShape(env, l, l.pc.named, None, Completing, p.now, p.written);
    NotedFiles(l, Published(env, l, p), d);
  }

  lemma CompleteKeeps(env: Env, l: Life, d: Disk, p: Publication)
    requires InStep(env, l) && FilesInv(l, d) && Placed(l.pc, l.task) && Publishable(l, p) && p.Complete?
    ensures FilesInv(Published(env, l, p), d)
  {
    CompletionShape(env, l, p.now, p.written);
    NotedFiles(l, Published(env, l, p), d);
  }

  /** Sections of a publication that write no record. */
  lemma LinkingKeeps(env: Env, l: Life, d: Disk, p: Publication, stray: Option<Path>)
    requires Inv(env, l) && FilesInv(l, d) && Publishable(l, p) && PossiblePublication(l, d, p, stray)
    requires p.EndValidation? || p.EndPromotion? || p.RemovePartialLink? || p.Close?
    ensures FilesInv(Published(env, l, p), Touched(env, l, d, Publish(p), stray))
  { }

  lemma PublishKeeps(env: Env, l: Life, d: Disk, p: Publication, stray: Option<Path>)
    requires Inv(env, l) && FilesInv(l, d) && Publishable(l, p) && PossiblePublication(l, d, p, stray)
    ensures FilesInv(Published(env, l, p), Touched(env, l, d, Publish(p), stray))
  {
    if p.BeginValidation? { BeginValidationKeeps(env, l, d, p); }
    else if p.BeginPromotion? { BeginPromotionKeeps(env, l, d, p); }
    else if p.RecordLink? { RecordLinkKeeps(env, l, d, p); }
    else if p.RecordCleanup? { RecordCleanupKeeps(env, l, d, p); }
    else if p.Complete? { CompleteKeeps(env, l, d, p); }
    else { LinkingKeeps(env, l, d, p, stray); }
  }

  // ---------- Everything ----------

  predicate Normalized(t: Task, n: Task) {
    match t.state
    case Downloading => SameFiles(t, n) && n.state == Paused
    case Promoting => SameFiles(t, n) && n.state == if t.finalPath.Some? then Completed else Failed
    case Probing => SameFiles(t, n) && n.state == Failed
    case Validating => SameFiles(t, n) && n.state == Failed
    case Failed => n == t || (PartialForgotten(t, n) && n.state == t.state)
    case Cancelled => n == t || (PartialForgotten(t, n) && n.state == t.state)
    case _ => n == t
  }

  lemma NormalizeShape(env: Env, t: Task, d: Disk, now: nat)
    requires Sound(env, t) && Normalize(env, t, d, now).Ok?
    ensures Sound(env, Normalize(env, t, d, now).value) && Normalized(t, Normalize(env, t, d, now).value)
  {
    var n := Normalize(env, t, d, now).value;
    if n != t {
      if t.state in {Failed, Cancelled} { ForgetKeepsSound(env, t, Latest(now, t)); }
      else { TransitionKeepsSound(env, t, n.state, Latest(now, t)); }
    }
  }

  lemma BootKeeps(env: Env, t: Task, d: Disk, now: nat, written: bool)
    requires WorldInv(env, Down(t, d))
    ensures WorldInv(env, Boot(env, t, d, now, written))
  {
    if Normalize(env, t, d, now).Ok? { NormalizeShape(env, t, d, now); }
  }

  lemma StreamKeeps(env: Env, l: Life, d: Disk, size: nat)
    requires Inv(env, l) && FilesInv(l, d) && l.pc.Transferring? && ExpectedSize(l.task).None?
    ensures FilesInv(l, d.(size := size, whole := false))
  { }

  lemma ActKeeps(env: Env, w: World, ev: Event, stray: Option<Path>)
    requires WorldInv(env, w) && Possible(env, w, Act(ev, stray))
    ensures FilesInv(Advance(env, w.life, ev), Touched(env, w.life, w.disk, ev, stray))
  {
    match ev
    case Ask(c) => AskKeeps(env, w.life, w.disk, c, stray);
    case Do(work) => DoKeeps(env, w.life, w.disk, work, w.handle, stray);
    case Publish(p) => PublishKeeps(env, w.life, w.disk, p, stray);
  }

  lemma HandleKept(env: Env, l: Life, handle: bool, ev: Event)
    requires Inv(env, l) && Enabled(env, l, ev)
    ensures Holds(env, l, handle, ev) ==> Advance(env, l, ev).task.partialPath.Some?
  {
    if ev.Do? && ev.work.Prepare? { PrepareShape(env, l, ev.work); }
  }

  lemma NextKeepsInv(env: Env, w: World, h: Happening)
    requires WorldInv(env, w) && Possible(env, w, h)
    ensures WorldInv(env, Next(env, w, h))
  {
    match h
    case Act(ev, stray) =>
      StepKeepsInv(env, w.life, ev);
      ActKeeps(env, w, ev, stray);
      HandleKept(env, w.life, w.handle, ev);
    case Stream(size) => StreamKeeps(env, w.life, w.disk, size);
    case Crash =>
    case Recover(now, written) => BootKeeps(env, w.record, w.disk, now, written);
  }
}
