/** What every section of a run leads to from any state it can be in: which control
    is accepted, when an error is retried, and which single obstacle keeps a
    publication from going on. */
module LifecycleOutcomes {
  import opened Ranges
  import opened TaskRecord
  import opened Network
  import opened Lifecycle
  import opened LifecycleSafety
  import opened LifecycleProgress
  import opened RecordOutcomes

  // ---------- Controls ----------

  predicate Stoppable(s: TaskState) { s in {Queued, Probing, Downloading, Paused, Validating} }

  /** A running task takes one stop request: a pause only while it downloads, a
      cancellation only before it promotes, and a shutdown unless it promotes. */
  lemma RequestsExactly(env: Env, l: Life, c: Control)
    requires c.RequestPause? || c.RequestCancel? || c.RequestShutdown?
    ensures Askable(l, c) <==>
      && l.pc != Inactive && l.stop.None?
      && (match c
          case RequestPause => l.task.state == Downloading
          case RequestCancel(_) => Stoppable(l.task.state)
          case _ => l.task.state != Promoting)
    ensures Askable(l, c) ==>
      Asked(env, l, c) == l.(cancelled := true, stop := Some(
        match c
        case RequestPause => Stop.Pause
        case RequestCancel(deletePartial) => Stop.Cancel(deletePartial)
        case _ => Stop.Shutdown))
  { }

  /** Without a run, a queued task can be started, a paused one resumed, a failed one
      queued again, and any unfinished one cancelled. */
  lemma InactiveControlsExactly(env: Env, l: Life, c: Control)
    requires Inv(env, l) && !(c.RequestPause? || c.RequestCancel? || c.RequestShutdown?)
    ensures Askable(l, c) <==>
      && l.pc == Inactive
      && (match c
          case Start(_, _) => l.task.state == Queued
          case ResumeTask => l.task.state == Paused
          case Requeue(_, _) => l.task.state == Failed
          case _ => Stoppable(l.task.state))
    ensures c.ResumeTask? && Askable(l, c) ==>
      Asked(env, l, c) == l.(pc := ProbeResume, generation := l.generation + 1, budget := Budget(0, false))
  { }

  /** The record once it forgot its deleted partial, in memory and on disk. */
  function Forgotten(l: Life, at: nat): Life {
    var t := Advanced(l.task, at).(partialPath := None, ranges := []);
    l.(task := t, durable := t)
  }

  /** A deleted partial is forgotten exactly when that can be recorded. */
  lemma DiscardExactly(env: Env, l: Life, now: nat, removed: bool, written: bool)
    requires InStep(env, l) && l.task.state in {Failed, Cancelled}
    ensures Discard(env, l, now, removed, written) ==
      if removed && written && l.task.partialPath.Some? && l.task.revision + 1 < U64_LIMIT
      then Forgotten(l, Latest(now, l.task)) else l
  {
    ForgettingExactly(env, l.task, Latest(now, l.task));
    if RecordPartialDeletion(l.task, Latest(now, l.task)).Ok? {
      ForgetKeepsSound(env, l.task, Latest(now, l.task));
      PersistKeeps(env, l, RecordPartialDeletion(l.task, Latest(now, l.task)).value, written);
    }
  }

  /** An inactive task is cancelled exactly when that can be recorded. */
  lemma CancellationExactly(env: Env, l: Life, c: Control)
    requires Inv(env, l) && Askable(l, c) && c.CancelInactive?
    ensures Asked(env, l, c) ==
      if !(c.written && l.task.revision + 1 < U64_LIMIT) then l
      else (
        var cancelled := MovedTo(l, Cancelled, Latest(c.now, l.task));
        if c.deletePartial && c.removed && c.forgotten && l.task.partialPath.Some? && l.task.revision + 2 < U64_LIMIT
        then Forgotten(cancelled, Latest(c.now, cancelled.task)) else cancelled)
  {
    TryMoveExactly(env, l, Cancelled, c.now, c.written);
    TryMoveKeeps(env, l, Cancelled, c.now, c.written);
    var moved := TryMove(env, l, Cancelled, c.now, c.written);
    if moved.Some? { DiscardExactly(env, moved.value, c.now, c.removed, c.forgotten); }
  }

  // ---------- Checkpoints of a transfer ----------

  /** A capture is taken into the record in memory unless it is not valid for it; it
      is durable at once or was so before, unless its write fails. */
  lemma CheckpointExactly(env: Env, l: Life, c: Capture, now: nat, written: bool)
    requires InStep(env, l) && CaptureFits(l, c)
    ensures var (next, ok) := Checkpointed(env, l, c, now, written);
      var t := RefreshCompleted(l.task, c.partial, c.ranges, Latest(now, l.task));
      && (ok <==> t.Ok? && (written || t.value == l.durable))
      && next == (if t.Err? then l else l.(task := t.value, durable := if ok then t.value else l.durable))
  {
    var t := RefreshCompleted(l.task, c.partial, c.ranges, Latest(now, l.task));
    if t.Ok? {
      RefreshExactly(env, l.task, c.partial, c.ranges, Latest(now, l.task));
      CaptureKeepsSound(env, l, c, Latest(now, l.task));
    }
  }

  /** A progress tick that cannot be recorded ends the transfer; a deferred one is
      kept in memory. */
  lemma TickExactly(env: Env, l: Life, w: Work)
    requires Inv(env, l) && Doable(env, l, w) && w.Tick?
    ensures var next := Done(env, l, w);
      var t := RefreshCompleted(l.task, w.capture.partial, w.capture.ranges, Latest(w.now, l.task));
      var recorded := t.Ok? && (w.written || w.deferred || t.value == l.durable);
      && (next.pc == Transferring(!recorded)) && (next.cancelled <==> l.cancelled || !recorded)
      && next.task == (if t.Ok? then t.value else l.task)
      && next.durable == (if recorded && (!w.deferred || t.value == l.durable) then t.value else l.durable)
      && next.stop == l.stop && next.budget == l.budget && next.generation == l.generation
  {
    CheckpointExactly(env, l, w.capture, w.now, w.written);
    var t := RefreshCompleted(l.task, w.capture.partial, w.capture.ranges, Latest(w.now, l.task));
    if t.Ok? {
      RefreshExactly(env, l.task, w.capture.partial, w.capture.ranges, Latest(w.now, l.task));
      CaptureKeepsSound(env, l, w.capture, Latest(w.now, l.task));
    }
  }

  /** A transfer goes on to its decision, and a stop to its application, exactly when
      the coverage at its boundary is recorded. */
  lemma BoundaryExactly(env: Env, l: Life, w: Work)
    requires Inv(env, l) && Doable(env, l, w) && (w.PassBoundary? || w.CheckpointStop?)
    ensures var c := if w.PassBoundary? then Some(w.capture) else w.held;
      var next := Done(env, l, w);
      if c.None? then next == l.(pc := ApplyStop) else (
        var t := RefreshCompleted(l.task, c.value.partial, c.value.ranges, Latest(w.now, l.task));
        var recorded := t.Ok? && (w.written || t.value == l.durable);
        && next.pc == (if !recorded then Failing else if w.PassBoundary? then Decide(l.pc.transferred) else ApplyStop)
        && next == l.(pc := next.pc, task := if t.Ok? then t.value else l.task,
                      durable := if recorded then t.value else l.durable))
  {
    if w.PassBoundary? { CheckpointExactly(env, l, w.capture, w.now, w.written); }
    else if w.held.Some? { CheckpointExactly(env, l, w.held.value, w.now, w.written); }
  }

  // ---------- Decisions ----------

  /** The next wait, while the budget has one. */
  function Waiting(env: Env, l: Life): Life {
    if l.budget.used + 1 <= env.maximumRetries
    then l.(pc := RetryWait, budget := Budget(l.budget.used + 1, l.budget.revalidated))
    else l.(pc := Failing)
  }

  /** A visible cancellation comes first, then completion; an error is retried while
      the budget lasts, revalidated once, or ends the run. */
  lemma DecisionsExactly(env: Env, l: Life, w: Work)
    requires Doable(env, l, w) && w.Decided?
    ensures Done(env, l, w) ==
      if l.cancelled then l.(pc := StopBoundary)
      else if l.pc == Decide(true) then l.(pc := EnterValidating)
      else match w.after
        case GiveUp => l.(pc := Failing)
        case Again => Waiting(env, l)
        case Revalidate => l.(pc := Revalidating, budget := Budget(l.budget.used, true))
  { }

  /** The other steps of a run before its publication. */
  lemma StepsExactly(env: Env, l: Life, w: Work)
    requires Doable(env, l, w)
    ensures match w
      case ProbeInterrupted => Done(env, l, w) == l.(pc := StopBoundary)
      case ProbeAgain => Done(env, l, w) == l.(budget := Budget(l.budget.used + 1, l.budget.revalidated))
      case Prepare(ProbeFailed, _, _) => Done(env, l, w) == l.(pc := Failing)
      case Prepare(Probed(_, _, _), _, _) => l.cancelled ==> Done(env, l, w) == l.(pc := StopBoundary)
      case EndTransfer(ended) =>
        Done(env, l, w) == l.(pc :=
          if l.pc == Transferring(true) then Failing
          else match ended
            case Interrupted => StopBoundary
            case Transferred => Boundary(true)
            case Errored => Boundary(false))
      case EndRevalidation(answer) =>
        Done(env, l, w) == (match answer
          case Unmodified => Waiting(env, l)
          case Rejected => l.(pc := Failing)
          case Withdrawn => l.(pc := StopBoundary))
      case EndWait => Done(env, l, w) == l.(pc := if l.cancelled then StopBoundary else Transferring(false))
      case _ => true
  { }

  /** The server is asked again at most once in a run: entering the revalidation
      sets a mark that stays until the next run and bars a second one. */
  lemma RevalidatesOnce(env: Env, l: Life, ev: Event)
    requires Enabled(env, l, ev)
    ensures var next := Advance(env, l, ev);
      && (next.pc == Revalidating && l.pc != Revalidating ==> !l.budget.revalidated && next.budget.revalidated)
      && (l.budget.revalidated && next.generation == l.generation ==> next.budget.revalidated)
  {
    match ev
    case Ask(c) => AskKeepsMark(env, l, c);
    case Do(w) => WorkKeepsMark(env, l, w);
    case Publish(p) => PublicationKeepsMark(env, l, p);
  }

  predicate KeepsMark(l: Life, next: Life) {
    && (next.pc == Revalidating && l.pc != Revalidating ==> !l.budget.revalidated && next.budget.revalidated)
    && (l.budget.revalidated && next.generation == l.generation ==> next.budget.revalidated)
  }

  lemma AskKeepsMark(env: Env, l: Life, c: Control)
    requires Askable(l, c)
    ensures KeepsMark(l, Asked(env, l, c))
  { }

  lemma WorkKeepsMark(env: Env, l: Life, w: Work)
    requires Doable(env, l, w)
    ensures KeepsMark(l, Done(env, l, w))
  {
    match w
    case Prepare(_, _, _) => PrepareKeepsMark(env, l, w);
    case Tick(c, _, _, _) => CheckpointKeepsMark(env, l, w, c);
    case PassBoundary(c, _, _) => CheckpointKeepsMark(env, l, w, c);
    case CheckpointStop(held, _, _) => if held.Some? { CheckpointKeepsMark(env, l, w, held.value); }
    case Apply(now, written, fallback, removed, forgotten) =>
      StopEnds(env, l, now, written, fallback, removed, forgotten);
    case Fail(now, written, discard, removed, forgotten) =>
      FailureEnds(env, l, now, written, discard, removed, forgotten);
    case _ =>
  }

  lemma CheckpointKeepsMark(env: Env, l: Life, w: Work, c: Capture)
    requires Doable(env, l, w)
    requires w.Tick? || w.PassBoundary? || w.CheckpointStop?
    requires if w.CheckpointStop? then w.held == Some(c) else w.capture == c
    ensures KeepsMark(l, Done(env, l, w))
  {
    var (next, _) := Checkpointed(env, l, c, w.now, w.written);
    assert next == l.(task := next.task, durable := next.durable);
  }

  lemma DiscardTouches(env: Env, l: Life, now: nat, removed: bool, written: bool)
    ensures var next := Discard(env, l, now, removed, written);
      next == l.(task := next.task, durable := next.durable)
  { }

  lemma StopEnds(env: Env, l: Life, now: nat, written: bool, fallback: bool, removed: bool, forgotten: bool)
    ensures var next := ApplyStopTo(env, l, now, written, fallback, removed, forgotten);
      next.pc == Inactive && next.budget == l.budget
  {
    var target := StopTarget(RequestedStop(l), l.task.state);
    if target.Some? {
      var moved := TryMove(env, l, target.value, now, written);
      if moved.Some? { DiscardTouches(env, moved.value, now, removed, forgotten); }
    }
  }

  lemma FailureEnds(env: Env, l: Life, now: nat, written: bool, discard: bool, removed: bool, forgotten: bool)
    ensures var next := FailRun(env, l, now, written, discard, removed, forgotten);
      next.pc == Inactive && next.budget == l.budget
  {
    var t := Transition(env, l.task, Failed, Latest(now, l.task));
    var failed := if t.Ok? then Persist(env, l, t.value, written).0 else l;
    DiscardTouches(env, failed, now, removed, forgotten);
  }

  lemma PrepareKeepsMark(env: Env, l: Life, w: Work)
    requires Doable(env, l, w) && w.Prepare?
    ensures KeepsMark(l, Done(env, l, w))
  { }

  lemma PublicationKeepsMark(env: Env, l: Life, p: Publication)
    requires Publishable(l, p)
    ensures KeepsMark(l, Published(env, l, p))
  { }

  // ---------- Failing ----------

  /** The failure as recorded, on disk only if that was written. */
  function FailedAt(l: Life, at: nat, written: bool): Life {
    var moved := MovedTo(l, Failed, at);
    if written then moved else moved.(durable := l.durable)
  }

  lemma FailedExactly(env: Env, l: Life, now: nat, written: bool)
    requires InStep(env, l) && MayMove(l.task, Failed)
    ensures var t := Transition(env, l.task, Failed, Latest(now, l.task));
      && (t.Ok? <==> l.task.revision + 1 < U64_LIMIT)
      && (t.Ok? ==>
           var failed := Persist(env, l, t.value, written).0;
           failed == FailedAt(l, Latest(now, l.task), written) && InStep(env, failed))
  {
    TransitionExactly(env, l.task, Failed, Latest(now, l.task));
    if Transition(env, l.task, Failed, Latest(now, l.task)).Ok? {
      MoveKeeps(env, l, Failed, Latest(now, l.task), written);
    }
  }

  lemma FailRunSplits(env: Env, l: Life, now: nat, written: bool, discard: bool, removed: bool, forgotten: bool,
                      failed: Life)
    requires var t := Transition(env, l.task, Failed, Latest(now, l.task));
      failed == if t.Ok? then Persist(env, l, t.value, written).0 else l
    ensures FailRun(env, l, now, written, discard, removed, forgotten) ==
      Finish(if discard && failed.task.state == Failed then Discard(env, failed, now, removed, forgotten) else failed)
  { }

  /** A failing run is failed in memory while a revision is left, on disk if that was
      written, and loses its partial exactly if that is configured, was deleted and
      could be recorded. */
  lemma FailureExactly(env: Env, l: Life, w: Work)
    requires Inv(env, l) && Doable(env, l, w) && w.Fail?
    ensures var failed := FailedAt(l, Latest(w.now, l.task), w.written);
      Done(env, l, w) == Finish(
        if l.task.revision + 1 >= U64_LIMIT then l
        else if w.discard && w.removed && w.forgotten && l.task.partialPath.Some? && l.task.revision + 2 < U64_LIMIT
        then Forgotten(failed, Latest(w.now, failed.task)) else failed)
  {
    FailedExactly(env, l, w.now, w.written);
    if l.task.revision + 1 < U64_LIMIT {
      var failed := FailedAt(l, Latest(w.now, l.task), w.written);
      FailRunSplits(env, l, w.now, w.written, w.discard, w.removed, w.forgotten, failed);
      DiscardExactly(env, failed, w.now, w.removed, w.forgotten);
    } else {
      FailRunSplits(env, l, w.now, w.written, w.discard, w.removed, w.forgotten, l);
    }
  }

  // ---------- Stopping ----------

  /** The state a stop asks for; a paused task that is shut down needs none. */
  function Target(stop: Stop, state: TaskState): TaskState {
    match stop
    case Pause => Paused
    case Cancel(_) => Cancelled
    case Shutdown => if state == Downloading then Paused else Failed
  }

  predicate NothingToStop(l: Life) { l.stop == Some(Shutdown) && l.task.state == Paused }

  lemma StopSplits(env: Env, l: Life, w: Work)
    requires Doable(env, l, w) && w.Apply? && l.stop.Some?
    ensures Done(env, l, w) ==
      if NothingToStop(l) then Finish(l)
      else MoveToStop(env, l, l.stop.value, Target(l.stop.value, l.task.state), w.now, w.written, w.fallback,
        w.removed, w.forgotten)
  { }

  lemma StopMoves(env: Env, l: Life, w: Work, stop: Stop, target: TaskState)
    requires InStep(env, l) && w.Apply? && MayMove(l.task, target) && w.written && l.task.revision + 1 < U64_LIMIT
    requires stop == Cancel(true) ==> target == Cancelled
    ensures var moved := MovedTo(l, target, Latest(w.now, l.task));
      MoveToStop(env, l, stop, target, w.now, w.written, w.fallback, w.removed, w.forgotten) == Finish(
        if stop == Cancel(true) && w.removed && w.forgotten && l.task.partialPath.Some?
          && l.task.revision + 2 < U64_LIMIT
        then Forgotten(moved, Latest(w.now, moved.task)) else moved)
  {
    TryMoveExactly(env, l, target, w.now, w.written);
    TryMoveKeeps(env, l, target, w.now, w.written);
    if stop == Cancel(true) {
      DiscardExactly(env, MovedTo(l, target, Latest(w.now, l.task)), w.now, w.removed, w.forgotten);
    }
  }

  lemma StopFails(env: Env, l: Life, w: Work, stop: Stop, target: TaskState)
    requires InStep(env, l) && w.Apply? && MayMove(l.task, Failed)
    requires !(w.written && l.task.revision + 1 < U64_LIMIT)
    ensures MoveToStop(env, l, stop, target, w.now, w.written, w.fallback, w.removed, w.forgotten) ==
      Finish(if l.task.revision + 1 < U64_LIMIT then FailedAt(l, Latest(w.now, l.task), w.fallback) else l)
  {
    TryMoveExactly(env, l, target, w.now, w.written);
    FailedExactly(env, l, w.now, w.fallback);
  }

  /** A recorded stop is applied with one checkpoint; if that fails the run is failed
      with another, and a paused task that is shut down needs none. A deletion asked
      for with a cancellation is recorded with a third. */
  lemma StopExactly(env: Env, l: Life, w: Work)
    requires Inv(env, l) && Doable(env, l, w) && w.Apply?
    ensures l.stop.Some?
    ensures var at := Latest(w.now, l.task);
      var moved := MovedTo(l, Target(l.stop.value, l.task.state), at);
      Done(env, l, w) == Finish(
        if NothingToStop(l) || l.task.revision + 1 >= U64_LIMIT then l
        else if !w.written then FailedAt(l, at, w.fallback)
        else if l.stop.value == Cancel(true) && w.removed && w.forgotten && l.task.partialPath.Some?
          && l.task.revision + 2 < U64_LIMIT
        then Forgotten(moved, Latest(w.now, moved.task)) else moved)
  {
    StopSplits(env, l, w);
    if !NothingToStop(l) {
      var target := Target(l.stop.value, l.task.state);
      if w.written && l.task.revision + 1 < U64_LIMIT { StopMoves(env, l, w, l.stop.value, target); }
      else { StopFails(env, l, w, l.stop.value, target); }
    }
  }

  // ---------- Publication ----------

  /** Validation and promotion are entered exactly if no cancellation is visible, all
      bytes are there and the move is recorded. */
  lemma EntryExactly(env: Env, l: Life, p: Publication)
    requires Inv(env, l) && Publishable(l, p) && (p.BeginValidation? || p.BeginPromotion?)
    ensures Published(env, l, p) ==
      if l.cancelled then l.(pc := StopBoundary)
      else if !(p.written && l.task.revision + 1 < U64_LIMIT && Whole(l.task)) then l.(pc := Failing)
      else if p.BeginValidation? then MovedTo(l, Validating, Latest(p.now, l.task)).(pc := InValidation)
      else MovedTo(l, Promoting, Latest(p.now, l.task)).(pc := Publishing)
  {
    TryMoveExactly(env, l, if p.BeginValidation? then Validating else Promoting, p.now, p.written);
    if ExpectedSize(l.task).Some? { FullCoverageExactly(l.task.ranges, ExpectedSize(l.task).value); }
  }

  /** The record once it names the published file, in memory. */
  function Named(l: Life, path: Path, retained: Option<Path>, at: nat): Life {
    l.(task := Advanced(l.task, at).(finalPath := Some(path), partialPath := retained))
  }

  /** The link and the removal of the partial are recorded one after the other; what
      cannot be recorded leaves the task promoting until recovery. */
  lemma NotesExactly(env: Env, l: Life, p: Publication)
    requires Inv(env, l) && Publishable(l, p) && (p.RecordLink? || p.RecordCleanup?)
    ensures var path := if p.RecordLink? then l.pc.final else l.pc.named;
      var noted := Named(l, path, if p.RecordLink? then l.task.partialPath else None, Latest(p.now, l.task));
      Published(env, l, p) ==
        if !(env.confinedFinal(path, l.task.destination) && l.task.revision + 1 < U64_LIMIT) then Finish(l)
        else if !p.written then Finish(noted)
        else noted.(durable := noted.task, pc := if p.RecordLink? then Cleanup(path) else Completing)
  {
    var path := if p.RecordLink? then l.pc.final else l.pc.named;
    var retained := if p.RecordLink? then l.task.partialPath else None;
    var at := Latest(p.now, l.task);
    RecordOutcomes.PromotionExactly(env, l.task, path, retained, at);
    var t := RecordPromotion(env, l.task, path, retained, at);
    if t.Ok? {
      PromotionKeepsSound(env, l.task, path, retained, at);
      PersistKeeps(env, l, t.value, p.written);
    }
  }

  /** A run completes exactly when its last checkpoint is written. */
  lemma CompletionExactly(env: Env, l: Life, p: Publication)
    requires Inv(env, l) && Publishable(l, p) && p.Complete?
    ensures Published(env, l, p) ==
      if p.written && l.task.revision + 1 < U64_LIMIT
      then MovedTo(l, Completed, Latest(p.now, l.task)).(pc := Closing) else Finish(l)
  {
    TryMoveExactly(env, l, Completed, p.now, p.written);
  }

  /** The sections of a publication that record nothing. */
  lemma PublicationStepsExactly(env: Env, l: Life, p: Publication)
    requires Publishable(l, p)
    ensures match p
      case EndValidation(lease) =>
        Published(env, l, p) ==
          l.(pc := if l.cancelled then StopBoundary else if lease then EnterPromoting else Failing)
      case EndPromotion(linked) =>
        Published(env, l, p) == l.(pc := match linked case Some(path) => RecordFirst(path) case None => Failing)
      case RemovePartialLink(unlinked) =>
        Published(env, l, p) == l.(pc := if unlinked then RecordSecond(l.pc.published) else Completing)
      case Close => Published(env, l, p) == l.(pc := Inactive, stop := None, cancelled := false)
      case _ => true
  { }
}
