/** What every interleaving of a run with its controls keeps: the stop decision
    and the publication decision exclude each other. */
module LifecycleSafety {
  import opened Ranges
  import opened TaskRecord
  import opened Network
  import opened Lifecycle
  import Storage

  /** The record in memory is at least as new as the durable one, and only a
      failed or deferred checkpoint separates them. */
  ghost predicate InStep(env: Env, l: Life) {
    && Sound(env, l.task) && Sound(env, l.durable)
    && l.task.id == l.durable.id && l.task.expectedSha256 == l.durable.expectedSha256
    && l.durable.revision <= l.task.revision
    && (l.durable.revision == l.task.revision ==> l.durable == l.task)
    && (l.task.state !in {Promoting, Completed, Failed} ==> l.durable.state !in {Promoting, Completed})
  }

  /** Which task states each position of the run can see. */
  predicate Placed(pc: Pc, t: Task) {
    match pc
    case Inactive => true
    case ProbeInitial => t.state == Probing
    case ProbeResume => t.state == Paused
    case Transferring(_) | Boundary(_) | Decide(_) | Revalidating | RetryWait | EnterValidating =>
      t.state == Downloading
    case InValidation | EnterPromoting => t.state == Validating
    case Publishing | RecordFirst(_) => t.state == Promoting && t.finalPath.None?
    case Cleanup(path) => t.state == Promoting && t.finalPath == Some(path) && t.partialPath.Some?
    case RecordSecond(path) => t.state == Promoting && t.finalPath == Some(path)
    case Completing => t.state == Promoting && t.finalPath.Some?
    case Closing => t.state == Completed
    case StopBoundary | ApplyStop => t.state in {Probing, Paused, Downloading, Validating}
    case Failing => t.state in {Probing, Paused, Downloading, Validating} || (t.state == Promoting && t.finalPath.None?)
  }

  /** A stop is recorded only while it can still win, and cancellation is visible
      only with a recorded stop or a failed checkpoint. */
  predicate StopSettled(l: Life) {
    && (l.pc == Inactive ==> l.stop.None? && !l.cancelled)
    && (l.stop.Some? ==> l.cancelled)
    && (l.cancelled && l.stop.None? ==> l.pc in {Transferring(true), Failing})
    && (l.pc == Transferring(true) ==> l.cancelled)
    && (l.pc in {StopBoundary, ApplyStop} ==> l.stop.Some?)
    && (l.stop == Some(Pause) ==> l.task.state == Downloading)
    && (l.stop.Some? && l.task.state in {Promoting, Completed} ==> l.pc == Closing && l.stop == Some(Shutdown))
    && (Running(l) && l.task.state == Promoting ==> !l.cancelled)
  }

  ghost predicate Inv(env: Env, l: Life) { InStep(env, l) && Placed(l.pc, l.task) && StopSettled(l) }

  /** This run can no longer publish. */
  predicate Lost(l: Life) { l.task.state !in {Promoting, Completed} && (Running(l) ==> l.cancelled) }

  /** What no section ever takes back. */
  predicate Onward(l: Life, next: Life) {
    && l.generation <= next.generation
    && l.durable.revision <= next.durable.revision
    && (next.durable == l.durable || next.durable == next.task)
    && next.task.expectedSha256 == l.task.expectedSha256
    && (l.generation == next.generation && Lost(l) ==> Lost(next))
  }

  lemma PersistKeeps(env: Env, l: Life, t: Task, written: bool)
    requires InStep(env, l) && Sound(env, t) && t.id == l.task.id && t.expectedSha256 == l.task.expectedSha256
    requires t == l.task || t.revision > l.task.revision
    ensures Persist(env, l, t, written).1 ==> InStep(env, Persist(env, l, t, written).0)
    ensures t.state in {l.task.state, Failed} ==> InStep(env, Persist(env, l, t, written).0)
    ensures l.task.state !in {Promoting, Completed, Failed} ==> InStep(env, Persist(env, l, t, written).0)
    ensures Persist(env, l, t, written).0 == l.(task := t, durable := Persist(env, l, t, written).0.durable)
    ensures Persist(env, l, t, written).1 ==> Persist(env, l, t, written).0.durable == t
    ensures written ==> Persist(env, l, t, written).1
    ensures Persist(env, l, t, written).0.durable in {l.durable, t}
    ensures l.durable.revision <= Persist(env, l, t, written).0.durable.revision
  { }

  lemma MoveKeeps(env: Env, l: Life, next: TaskState, now: nat, written: bool)
    requires InStep(env, l) && Transition(env, l.task, next, now).Ok?
    ensures var t := Transition(env, l.task, next, now).value;
      && Sound(env, t) && t == l.task.(state := next, revision := t.revision, updatedAt := t.updatedAt)
      && t.revision == l.task.revision + 1 && Allows(l.task.state, next)
      && (l.task.state != Failed || Persist(env, l, t, written).1 ==> InStep(env, Persist(env, l, t, written).0))
      && Persist(env, l, t, written).0 == l.(task := t, durable := Persist(env, l, t, written).0.durable)
      && (Persist(env, l, t, written).1 ==> Persist(env, l, t, written).0.durable == t)
      && Persist(env, l, t, written).0.durable in {l.durable, t}
      && l.durable.revision <= Persist(env, l, t, written).0.durable.revision
  {
    var t := Transition(env, l.task, next, now).value;
    TransitionKeepsSound(env, l.task, next, now);
    PersistKeeps(env, l, t, written);
  }

  lemma TryMoveKeeps(env: Env, l: Life, next: TaskState, now: nat, written: bool)
    requires InStep(env, l)
    ensures var moved := TryMove(env, l, next, now, written);
      moved.Some? ==>
        && moved.value == l.(task := moved.value.task, durable := moved.value.task)
        && Sound(env, moved.value.task) && Allows(l.task.state, next)
        && moved.value.task == l.task.(state := next, revision := l.task.revision + 1,
            updatedAt := moved.value.task.updatedAt)
        && l.durable.revision < moved.value.task.revision
  {
    if Transition(env, l.task, next, Latest(now, l.task)).Ok? { MoveKeeps(env, l, next, Latest(now, l.task), written); }
  }

  /** A capture that covers what the record claims keeps it sound. */
  lemma CaptureKeepsSound(env: Env, l: Life, c: Capture, now: nat)
    requires Sound(env, l.task) && CaptureFits(l, c) && RefreshCompleted(l.task, c.partial, c.ranges, now).Ok?
    ensures Sound(env, RefreshCompleted(l.task, c.partial, c.ranges, now).value)
  {
    if l.task.state == Validating { GrownStaysExact(l.task.ranges, c.ranges.value, c.partial.len.value); }
    RefreshOutcome(env, l.task, c.partial, c.ranges, now);
  }

  lemma CheckpointKeeps(env: Env, l: Life, c: Capture, now: nat, written: bool)
    requires InStep(env, l) && CaptureFits(l, c)
    ensures var (next, ok) := Checkpointed(env, l, c, now, written);
      && InStep(env, next)
      && next == l.(task := next.task, durable := next.durable)
      && next.task.state == l.task.state && next.task.finalPath == l.task.finalPath
      && next.task.partialPath == l.task.partialPath
      && next.task.expectedSha256 == l.task.expectedSha256
      && (ok ==> next.durable == next.task)
      && next.durable in {l.durable, next.task} && l.durable.revision <= next.durable.revision
  {
    var t := RefreshCompleted(l.task, c.partial, c.ranges, Latest(now, l.task));
    if t.Ok? {
      CaptureKeepsSound(env, l, c, Latest(now, l.task));
      PersistKeeps(env, l, t.value, written);
    }
  }

  lemma DiscardKeeps(env: Env, l: Life, now: nat, removed: bool, written: bool)
    requires InStep(env, l)
    ensures var next := Discard(env, l, now, removed, written);
      && InStep(env, next)
      && next == l.(task := next.task, durable := next.durable)
      && next.task.state == l.task.state && next.task.finalPath == l.task.finalPath
      && next.task.expectedSha256 == l.task.expectedSha256
      && next.durable in {l.durable, next.task} && l.durable.revision <= next.durable.revision
      && (next.durable == l.durable ==> next.task == l.task)
  {
    var t := RecordPartialDeletion(l.task, Latest(now, l.task));
    if t.Ok? {
      ForgetKeepsSound(env, l.task, Latest(now, l.task));
      PersistKeeps(env, l, t.value, written);
    }
  }

  lemma InitialKeeps(env: Env, l: Life, r: ProbeResult, now: nat, written: bool)
    requires Inv(env, l) && Doable(env, l, Prepare(r, now, written)) && r.Probed? && !l.cancelled
    requires l.pc == ProbeInitial
    ensures Inv(env, PrepareInitial(env, l, r, now, written))
    ensures Onward(l, PrepareInitial(env, l, r, now, written))
  {
    var at := Latest(now, l.task);
    var known := ApplyResource(l.task, r.resource, at);
    if known.Ok? {
      ResourceKeepsSound(env, l.task, r.resource, at);
      AttachmentKeeps(env, l, l.(task := known.value), r, at, written);
      if l.task.partialPath.None? || Reusable(l.task, r.resource) { InitialBranches(env, l, r, now, written); }
    }
  }

  /** What preparing does once the resource is accepted. */
  lemma InitialBranches(env: Env, l: Life, r: ProbeResult, now: nat, written: bool)
    requires r.Probed? && l.task.state == Probing && (l.task.partialPath.None? || Reusable(l.task, r.resource))
    requires ApplyResource(l.task, r.resource, Latest(now, l.task)).Ok?
    ensures var at := Latest(now, l.task);
      var known := l.(task := ApplyResource(l.task, r.resource, at).value);
      var after := PrepareInitial(env, l, r, now, written);
      || after == known.(pc := Failing) || after == Launch(env, known, at, written)
      || (r.created.Some? && AttachPartial(env, known.task, r.created.value, at).Ok?
          && after == Launch(env, known.(task := AttachPartial(env, known.task, r.created.value, at).value), at,
              written))
  { }

  /** `l` with the probed resource stored, about to attach a partial. */
  lemma AttachmentKeeps(env: Env, l: Life, known: Life, r: ProbeResult, at: nat, written: bool)
    requires Inv(env, l) && l.pc == ProbeInitial && !l.cancelled && r.Probed?
    requires r.created.Some? ==> env.sanitize(r.created.value.finalName) == r.created.value.finalName
    requires known == l.(task := known.task) && Sound(env, known.task) && known.task.state == Probing
    requires known.task.revision > l.task.revision
    requires known.task.id == l.task.id && known.task.expectedSha256 == l.task.expectedSha256
    ensures Inv(env, known.(pc := Failing)) && Onward(l, known.(pc := Failing))
    ensures Inv(env, Launch(env, known, at, written)) && Onward(l, Launch(env, known, at, written))
    ensures r.created.Some? && AttachPartial(env, known.task, r.created.value, at).Ok? ==>
      var attached := known.(task := AttachPartial(env, known.task, r.created.value, at).value);
      Inv(env, Launch(env, attached, at, written)) && Onward(l, Launch(env, attached, at, written))
  {
    LaunchKeeps(env, known, at, written);
    if r.created.Some? && AttachPartial(env, known.task, r.created.value, at).Ok? {
      AttachKeepsSound(env, known.task, r.created.value, at);
      LaunchKeeps(env, known.(task := AttachPartial(env, known.task, r.created.value, at).value), at, written);
    }
  }

  lemma ResumeKeeps(env: Env, l: Life, r: ProbeResult, now: nat, written: bool)
    requires Inv(env, l) && Doable(env, l, Prepare(r, now, written)) && r.Probed? && !l.cancelled && l.pc == ProbeResume
    ensures Inv(env, PrepareResume(env, l, r, now, written))
    ensures Onward(l, PrepareResume(env, l, r, now, written))
  {
    LaunchKeeps(env, l, Latest(now, l.task), written);
  }

  lemma LaunchKeeps(env: Env, l: Life, now: nat, written: bool)
    requires InStep(env, l) && Running(l) && !l.cancelled && l.stop.None? && l.task.state in {Probing, Paused}
    ensures Inv(env, Launch(env, l, now, written))
    ensures Onward(l, Launch(env, l, now, written))
  {
    if Transition(env, l.task, Downloading, now).Ok? { MoveKeeps(env, l, Downloading, now, written); }
  }

  lemma StopKeeps(env: Env, l: Life, now: nat, written: bool, fallback: bool, removed: bool, forgotten: bool)
    requires Inv(env, l)
    ensures Inv(env, ApplyStopTo(env, l, now, written, fallback, removed, forgotten))
    ensures Onward(l, ApplyStopTo(env, l, now, written, fallback, removed, forgotten))
  {
    var stop := RequestedStop(l);
    var target := StopTarget(stop, l.task.state);
    if target.Some? { MoveToStopKeeps(env, l, stop, target.value, now, written, fallback, removed, forgotten); }
  }

  lemma MoveToStopKeeps(env: Env, l: Life, stop: Stop, next: TaskState, now: nat, written: bool, fallback: bool,
                        removed: bool, forgotten: bool)
    requires InStep(env, l) && next in {Paused, Cancelled, Failed}
    ensures Inv(env, MoveToStop(env, l, stop, next, now, written, fallback, removed, forgotten))
    ensures Onward(l, MoveToStop(env, l, stop, next, now, written, fallback, removed, forgotten))
  {
    TryMoveKeeps(env, l, next, now, written);
    match TryMove(env, l, next, now, written)
    case None => FallbackKeeps(env, l, now, fallback);
    case Some(saved) =>
      FinishKeeps(env, l, saved);
      DiscardKeeps(env, saved, now, removed, forgotten);
      FinishKeeps(env, l, Discard(env, saved, now, removed, forgotten));
  }

  lemma FinishKeeps(env: Env, l: Life, saved: Life)
    requires InStep(env, saved) && saved.task.state !in {Promoting, Completed} && saved.generation == l.generation
    requires saved.task.expectedSha256 == l.task.expectedSha256
    requires saved.durable in {l.durable, saved.task} && l.durable.revision <= saved.durable.revision
    ensures Inv(env, Finish(saved)) && Onward(l, Finish(saved))
  { }

  lemma FallbackKeeps(env: Env, l: Life, now: nat, written: bool)
    requires InStep(env, l)
    ensures Inv(env, MarkStopFailed(env, l, now, written)) && Onward(l, MarkStopFailed(env, l, now, written))
  {
    if Transition(env, l.task, Failed, Latest(now, l.task)).Ok? {
      MoveKeeps(env, l, Failed, Latest(now, l.task), written);
    }
  }

  lemma FailKeeps(env: Env, l: Life, now: nat, written: bool, discard: bool, removed: bool, forgotten: bool)
    requires Inv(env, l)
    ensures Inv(env, FailRun(env, l, now, written, discard, removed, forgotten))
    ensures Onward(l, FailRun(env, l, now, written, discard, removed, forgotten))
  {
    var at := Latest(now, l.task);
    if Transition(env, l.task, Failed, at).Ok? {
      MoveKeeps(env, l, Failed, at, written);
      DiscardKeeps(env, Persist(env, l, Transition(env, l.task, Failed, at).value, written).0, now, removed, forgotten);
    } else {
      DiscardKeeps(env, l, now, removed, forgotten);
    }
  }

  lemma RecordingKeeps(env: Env, l: Life, final: Path, retained: Option<Path>, pc: Pc, now: nat, written: bool)
    requires Inv(env, l) && l.task.state == Promoting && l.stop.None?
    requires RecordPromotion(env, l.task, final, retained, Latest(now, l.task)).Ok? ==>
      Placed(pc, RecordPromotion(env, l.task, final, retained, Latest(now, l.task)).value)
    requires pc in {Completing} || pc.Cleanup?
    ensures Inv(env, NotePromotion(env, l, final, retained, pc, now, written))
    ensures Onward(l, NotePromotion(env, l, final, retained, pc, now, written))
  {
    var at := Latest(now, l.task);
    if !l.cancelled && RecordPromotion(env, l.task, final, retained, at).Ok? {
      PromotionKeepsSound(env, l.task, final, retained, at);
      PersistKeeps(env, l, RecordPromotion(env, l.task, final, retained, at).value, written);
    }
  }

  // ---------- Controls issued from outside the run ----------

  lemma StartKeeps(env: Env, l: Life, c: Control)
    requires Inv(env, l) && Askable(l, c) && c.Start?
    ensures Inv(env, Asked(env, l, c)) && Onward(l, Asked(env, l, c))
  {
    TryMoveKeeps(env, l, Probing, c.now, c.written);
  }

  lemma RequeueKeeps(env: Env, l: Life, c: Control)
    requires Inv(env, l) && Askable(l, c) && c.Requeue?
    ensures Inv(env, Asked(env, l, c)) && Onward(l, Asked(env, l, c))
  {
    TryMoveKeeps(env, l, Queued, c.now, c.written);
  }

  lemma CancelInactiveKeeps(env: Env, l: Life, c: Control)
    requires Inv(env, l) && Askable(l, c) && c.CancelInactive?
    ensures Inv(env, Asked(env, l, c)) && Onward(l, Asked(env, l, c))
  {
    TryMoveKeeps(env, l, Cancelled, c.now, c.written);
    var moved := TryMove(env, l, Cancelled, c.now, c.written);
    if moved.Some? && c.deletePartial { DiscardKeeps(env, moved.value, c.now, c.removed, c.forgotten); }
  }

  /** Controls that write nothing. */
  lemma RequestKeeps(env: Env, l: Life, c: Control)
    requires Inv(env, l) && Askable(l, c) && !c.Start? && !c.Requeue? && !c.CancelInactive?
    ensures Inv(env, Asked(env, l, c)) && Onward(l, Asked(env, l, c))
  { }

  lemma ControlKeepsInv(env: Env, l: Life, c: Control)
    requires Inv(env, l) && Askable(l, c)
    ensures Inv(env, Asked(env, l, c)) && Onward(l, Asked(env, l, c))
  {
    match c
    case Start(_, _) => StartKeeps(env, l, c);
    case Requeue(_, _) => RequeueKeeps(env, l, c);
    case CancelInactive(_, _, _, _, _) => CancelInactiveKeeps(env, l, c);
    case _ => RequestKeeps(env, l, c);
  }

  lemma WorkKeepsInv(env: Env, l: Life, w: Work)
    requires Inv(env, l) && Doable(env, l, w)
    ensures Inv(env, Done(env, l, w))
    ensures Onward(l, Done(env, l, w))
  {
    match w
    case Prepare(r, now, written) =>
      PreparedKeeps(env, l, r, now, written);
    case Tick(c, now, deferred, written) => TickKeeps(env, l, c, now, deferred, written);
    case PassBoundary(c, now, written) => BoundaryKeeps(env, l, c, now, written);
    case CheckpointStop(held, now, written) =>
      if held.Some? { HeldKeeps(env, l, held.value, now, written); }
    case Apply(now, written, fallback, removed, forgotten) =>
      StopKeeps(env, l, now, written, fallback, removed, forgotten);
    case Fail(now, written, discard, removed, forgotten) =>
      FailKeeps(env, l, now, written, discard, removed, forgotten);
    case _ => PlainWorkKeeps(env, l, w);
  }

  lemma PreparedKeeps(env: Env, l: Life, r: ProbeResult, now: nat, written: bool)
    requires Inv(env, l) && Doable(env, l, Prepare(r, now, written))
    ensures Inv(env, Done(env, l, Prepare(r, now, written)))
    ensures Onward(l, Done(env, l, Prepare(r, now, written)))
  {
    if r.Probed? && !l.cancelled {
      if l.pc == ProbeInitial { InitialKeeps(env, l, r, now, written); } else { ResumeKeeps(env, l, r, now, written); }
    }
  }

  lemma BoundaryKeeps(env: Env, l: Life, c: Capture, now: nat, written: bool)
    requires Inv(env, l) && Doable(env, l, PassBoundary(c, now, written))
    ensures Inv(env, Done(env, l, PassBoundary(c, now, written)))
    ensures Onward(l, Done(env, l, PassBoundary(c, now, written)))
  {
    CheckpointKeeps(env, l, c, now, written);
  }

  lemma HeldKeeps(env: Env, l: Life, c: Capture, now: nat, written: bool)
    requires Inv(env, l) && Doable(env, l, CheckpointStop(Some(c), now, written))
    ensures Inv(env, Done(env, l, CheckpointStop(Some(c), now, written)))
    ensures Onward(l, Done(env, l, CheckpointStop(Some(c), now, written)))
  {
    CheckpointKeeps(env, l, c, now, written);
  }

  /** Sections that only move the run along. */
  lemma PlainWorkKeeps(env: Env, l: Life, w: Work)
    requires Inv(env, l) && Doable(env, l, w)
    requires w.ProbeInterrupted? || w.ProbeAgain? || w.EndTransfer? || w.Decided? || w.EndRevalidation? || w.EndWait?
    ensures Inv(env, Done(env, l, w))
    ensures Onward(l, Done(env, l, w))
  {
    assert Done(env, l, w) == l.(pc := Done(env, l, w).pc, budget := Done(env, l, w).budget);
  }

  lemma TickKeeps(env: Env, l: Life, c: Capture, now: nat, deferred: bool, written: bool)
    requires Inv(env, l) && Doable(env, l, Tick(c, now, deferred, written))
    ensures Inv(env, Done(env, l, Tick(c, now, deferred, written)))
    ensures Onward(l, Done(env, l, Tick(c, now, deferred, written)))
  {
    CheckpointKeeps(env, l, c, now, written);
    DeferredKeeps(env, l, c, now);
  }

  /** A routine checkpoint that is put off changes the record in memory only. */
  lemma DeferredKeeps(env: Env, l: Life, c: Capture, now: nat)
    requires InStep(env, l) && CaptureFits(l, c)
    ensures var t := RefreshCompleted(l.task, c.partial, c.ranges, Latest(now, l.task));
      t.Ok? ==>
        && InStep(env, l.(task := t.value)) && t.value.state == l.task.state
        && t.value.finalPath == l.task.finalPath
  {
    var t := RefreshCompleted(l.task, c.partial, c.ranges, Latest(now, l.task));
    if t.Ok? { CaptureKeepsSound(env, l, c, Latest(now, l.task)); }
  }

  lemma PublicationKeepsInv(env: Env, l: Life, p: Publication)
    requires Inv(env, l) && Publishable(l, p)
    ensures Inv(env, Published(env, l, p))
    ensures Onward(l, Published(env, l, p))
  {
    match p
    case BeginValidation(now, written) =>
      EnterKeeps(env, l, Validating, InValidation, now, written);
    case BeginPromotion(now, written) => EnterKeeps(env, l, Promoting, Publishing, now, written);
    case RecordLink(now, written) => RecordLinkKeeps(env, l, now, written);
    case RecordCleanup(now, written) => RecordingKeeps(env, l, l.pc.named, None, Completing, now, written);
    case Complete(now, written) => CompletionKeeps(env, l, now, written);
    case _ => PlainPublicationKeeps(env, l, p);
  }

  lemma PlainPublicationKeeps(env: Env, l: Life, p: Publication)
    requires Inv(env, l) && Publishable(l, p)
    requires p.EndValidation? || p.EndPromotion? || p.RemovePartialLink? || p.Close?
    ensures Inv(env, Published(env, l, p))
    ensures Onward(l, Published(env, l, p))
  { }

  lemma EnterKeeps(env: Env, l: Life, state: TaskState, pc: Pc, now: nat, written: bool)
    requires Inv(env, l)
    requires (l.pc == EnterValidating && state == Validating && pc == InValidation)
          || (l.pc == EnterPromoting && state == Promoting && pc == Publishing)
    ensures Inv(env, Enter(env, l, state, pc, now, written))
    ensures Onward(l, Enter(env, l, state, pc, now, written))
  {
    TryMoveKeeps(env, l, state, now, written);
  }

  lemma RecordLinkKeeps(env: Env, l: Life, now: nat, written: bool)
    requires Inv(env, l) && l.pc.RecordFirst?
    ensures Inv(env, Published(env, l, RecordLink(now, written)))
    ensures Onward(l, Published(env, l, RecordLink(now, written)))
  {
    RecordingKeeps(env, l, l.pc.final, l.task.partialPath, Cleanup(l.pc.final), now, written);
  }

  lemma CompletionKeeps(env: Env, l: Life, now: nat, written: bool)
    requires Inv(env, l) && l.pc == Completing
    ensures Inv(env, Published(env, l, Complete(now, written)))
    ensures Onward(l, Published(env, l, Complete(now, written)))
  {
    TryMoveKeeps(env, l, Completed, now, written);
  }

  lemma StepKeepsInv(env: Env, l: Life, ev: Event)
    requires Inv(env, l) && Enabled(env, l, ev)
    ensures Inv(env, Advance(env, l, ev))
    ensures Onward(l, Advance(env, l, ev))
  {
    match ev
    case Ask(c) => ControlKeepsInv(env, l, c);
    case Do(w) => WorkKeepsInv(env, l, w);
    case Publish(p) => PublicationKeepsInv(env, l, p);
  }
}
