/** One managed task as an interleaving of its run with user controls. Every
    event is one section guarded by the task lock; persistence outcomes, network
    results and the clock are carried by the events. */
module Lifecycle {
  import opened Ranges
  import opened TaskRecord
  import opened Network
  import Storage

  datatype Stop = Pause | Cancel(deletePartial: bool) | Shutdown

  /** Where the run of the current generation stands. */
  datatype Pc =
    | Inactive
    | ProbeInitial | ProbeResume
    | Transferring(checkpointFailed: bool)
    | Boundary(transferred: bool) | Decide(complete: bool)
    | Revalidating | RetryWait
    | EnterValidating | InValidation | EnterPromoting
    | Publishing | RecordFirst(final: Path) | Cleanup(published: Path) | RecordSecond(named: Path)
    | Completing | Closing
    | StopBoundary | ApplyStop
    | Failing

  /** Retries scheduled by the run so far, and whether it revalidated after a 416. */
  datatype Budget = Budget(used: nat, revalidated: bool)

  datatype Life = Life(
    task: Task,
    durable: Task,
    generation: nat,
    cancelled: bool,
    stop: Option<Stop>,
    pc: Pc,
    budget: Budget)

  function Loaded(t: Task): Life { Life(t, t, 0, false, None, Inactive, Budget(0, false)) }

  /** The flushed coverage a checkpoint reads from storage. */
  datatype Capture = Capture(partial: PartialInfo, ranges: Result<seq<FileRange>, Storage.StorageError>)

  datatype ProbeResult = Probed(resource: Resource, created: Option<PartialInfo>, reopened: bool) | ProbeFailed

  datatype TransferResult = Transferred | Interrupted | Errored

  datatype AfterError = GiveUp | Again | Revalidate

  datatype Revalidation = Unmodified | Rejected | Withdrawn

  /** Requests from outside the run. */
  datatype Control =
    | Start(now: nat, written: bool) | ResumeTask | Requeue(now: nat, written: bool)
    | RequestPause | RequestCancel(deletePartial: bool) | RequestShutdown
    | CancelInactive(deletePartial: bool, now: nat, written: bool, removed: bool, forgotten: bool)

  /** The run up to the end of its transfer, and its ways of ending early. */
  datatype Work =
    | Prepare(result: ProbeResult, now: nat, written: bool) | ProbeInterrupted | ProbeAgain
    | Tick(capture: Capture, now: nat, deferred: bool, written: bool)
    | EndTransfer(ended: TransferResult)
    | PassBoundary(capture: Capture, now: nat, written: bool) | Decided(after: AfterError)
    | EndRevalidation(answer: Revalidation) | EndWait
    | CheckpointStop(held: Option<Capture>, now: nat, written: bool)
    | Apply(now: nat, written: bool, fallback: bool, removed: bool, forgotten: bool)
    | Fail(now: nat, written: bool, discard: bool, removed: bool, forgotten: bool)

  /** The completion of a run. */
  datatype Publication =
    | BeginValidation(now: nat, written: bool) | EndValidation(lease: bool)
    | BeginPromotion(now: nat, written: bool) | EndPromotion(linked: Option<Path>)
    | RecordLink(now: nat, written: bool) | RemovePartialLink(unlinked: bool) | RecordCleanup(now: nat, written: bool)
    | Complete(now: nat, written: bool) | Close

  datatype Event = Ask(control: Control) | Do(work: Work) | Publish(publication: Publication)

  predicate Running(l: Life) { l.pc != Inactive }

  function Latest(now: nat, t: Task): nat { if now < t.updatedAt then t.updatedAt else now }

  /** A critical checkpoint; false reports a failure. */
  function Persist(env: Env, l: Life, t: Task, written: bool): (Life, bool) {
    if ValidateTask(env, t).Some? then (l.(task := t), false)
    else if l.durable.revision >= t.revision then (l.(task := t), l.durable.revision == t.revision)
    else if written then (l.(task := t, durable := t), true)
    else (l.(task := t), false)
  }

  lemma PersistReplaces(env: Env, l: Life, t: Task, written: bool)
    ensures Persist(env, l.(task := t), t, written) == Persist(env, l, t, written)
  { }

  /** A transition with its critical checkpoint; anything but success restores
      the previous record. */
  function TryMove(env: Env, l: Life, next: TaskState, now: nat, written: bool): Option<Life> {
    var t := Transition(env, l.task, next, Latest(now, l.task));
    if t.Err? then None else
    var (saved, ok) := Persist(env, l, t.value, written);
    if ok then Some(saved) else None
  }

  function Finish(l: Life): Life { l.(pc := Inactive, stop := None, cancelled := false) }

  function BeginRun(l: Life, pc: Pc): Life {
    l.(pc := pc, generation := l.generation + 1, cancelled := false, stop := None, budget := Budget(0, false))
  }

  /** `schedule_retry` with nothing to wait for but the budget. */
  function Scheduled(env: Env, l: Life): Life {
    if l.budget.used >= env.maximumRetries then l.(pc := Failing)
    else l.(pc := RetryWait, budget := l.budget.(used := l.budget.used + 1))
  }

  /** `discard_terminal_partial`. */
  function Discard(env: Env, l: Life, now: nat, removed: bool, written: bool): Life {
    var t := RecordPartialDeletion(l.task, Latest(now, l.task));
    if !removed || t.Err? then l else
    var (saved, ok) := Persist(env, l, t.value, written);
    if ok then saved else l
  }

  function Checkpointed(env: Env, l: Life, c: Capture, now: nat, written: bool): (Life, bool) {
    var t := RefreshCompleted(l.task, c.partial, c.ranges, Latest(now, l.task));
    if t.Err? then (l, false) else Persist(env, l, t.value, written)
  }

  // ---------- Preparing a run ----------

  predicate Reusable(t: Task, resource: Resource) {
    t.resource == Some(resource) && (t.ranges != [] ==> HasStrongIdentity(resource.validators))
  }

  /** The retained partial if there is one, or else a newly created one. */
  function OpenPartial(env: Env, t: Task, r: ProbeResult, at: nat): Result<Task, StateError>
    requires r.Probed?
  {
    if t.partialPath.Some? then (if r.reopened then Ok(t) else Err(StorageFailed))
    else if r.created.None? then Err(StorageFailed)
    else AttachPartial(env, t, r.created.value, at)
  }

  function PrepareInitial(env: Env, l: Life, r: ProbeResult, now: nat, written: bool): Life
    requires r.Probed?
  {
    if l.task.state != Probing || (l.task.partialPath.Some? && !Reusable(l.task, r.resource)) then
      l.(pc := Failing) else
    var at := Latest(now, l.task);
    var known := ApplyResource(l.task, r.resource, at);
    if known.Err? then l.(pc := Failing) else
    var attached := OpenPartial(env, known.value, r, at);
    if attached.Err? then l.(task := known.value, pc := Failing)
    else Launch(env, l.(task := attached.value), at, written)
  }

  function PrepareResume(env: Env, l: Life, r: ProbeResult, now: nat, written: bool): Life
    requires r.Probed?
  {
    if l.task.state != Paused || !Reusable(l.task, r.resource) || !r.reopened then l.(pc := Failing)
    else Launch(env, l, Latest(now, l.task), written)
  }

  /** Enters Downloading; a failed checkpoint leaves the in-memory record ahead. */
  function Launch(env: Env, l: Life, now: nat, written: bool): Life {
    var t := Transition(env, l.task, Downloading, now);
    if t.Err? then l.(pc := Failing) else
    var (saved, ok) := Persist(env, l, t.value, written);
    saved.(pc := if ok then Transferring(false) else Failing)
  }

  // ---------- Stopping and failing ----------

  function StopTarget(stop: Stop, state: TaskState): Option<TaskState> {
    match stop
    case Pause => Some(Paused)
    case Cancel(_) => Some(Cancelled)
    case Shutdown => if state == Downloading then Some(Paused) else if state == Paused then None else Some(Failed)
  }

  /** The fallback request if a stop was applied without one being recorded. */
  function RequestedStop(l: Life): Stop {
    if l.stop.Some? then l.stop.value else if l.task.state == Downloading then Pause else Cancel(false)
  }

  /** `mark_stop_failed`, after the record was restored. */
  function MarkStopFailed(env: Env, l: Life, now: nat, written: bool): Life {
    var failed := Transition(env, l.task, Failed, Latest(now, l.task));
    Finish(if failed.Ok? then Persist(env, l, failed.value, written).0 else l)
  }

  /** The stop and its fallback are two checkpoints with an outcome each. */
  function MoveToStop(env: Env, l: Life, stop: Stop, next: TaskState, now: nat, written: bool, fallback: bool,
                      removed: bool, forgotten: bool): Life
  {
    match TryMove(env, l, next, now, written)
    case None => MarkStopFailed(env, l, now, fallback)
    case Some(saved) => Finish(if stop == Cancel(true) then Discard(env, saved, now, removed, forgotten) else saved)
  }

  function ApplyStopTo(env: Env, l: Life, now: nat, written: bool, fallback: bool, removed: bool,
                       forgotten: bool): Life {
    var stop := RequestedStop(l);
    match StopTarget(stop, l.task.state)
    case None => Finish(l)
    case Some(next) => MoveToStop(env, l, stop, next, now, written, fallback, removed, forgotten)
  }

  function FailRun(env: Env, l: Life, now: nat, written: bool, discard: bool, removed: bool, forgotten: bool): Life {
    var t := Transition(env, l.task, Failed, Latest(now, l.task));
    var failed := if t.Ok? then Persist(env, l, t.value, written).0 else l;
    Finish(if discard && failed.task.state == Failed then Discard(env, failed, now, removed, forgotten) else failed)
  }

  // ---------- Enabled events and their effect ----------

  /** What storage reports: it knows no coverage before the length, and never less
      than the record already claims. */
  ghost predicate CaptureFits(l: Life, c: Capture) {
    && (c.partial.len.Some? ==> c.partial.len.value <= MAX_SAFE_INTEGER)
    && (c.ranges.Ok? && c.partial.len.None? ==> c.ranges.value == [])
    && (c.ranges.Ok? ==> Grown(l.task.ranges, c.ranges.value))
  }

  predicate Askable(l: Life, c: Control) {
    match c
    case Start(_, _) => !Running(l) && l.task.state == Queued
    case ResumeTask => !Running(l) && l.task.state == Paused
    case Requeue(_, _) => !Running(l) && l.task.state == Failed
    case RequestPause => Running(l) && l.task.state == Downloading && l.stop.None?
    case RequestCancel(_) => Running(l) && Allows(l.task.state, Cancelled) && l.stop.None?
    case RequestShutdown => Running(l) && l.stop.None? && l.task.state != Promoting
    case CancelInactive(_, _, _, _, _) => !Running(l) && Allows(l.task.state, Cancelled)
  }

  ghost predicate Doable(env: Env, l: Life, w: Work) {
    match w
    case Prepare(r, _, _) =>
      && l.pc in {ProbeInitial, ProbeResume}
      && (r.Probed? ==> NewResource(env, r.resource) == Ok(r.resource))
      && (r.Probed? && r.created.Some? ==> env.sanitize(r.created.value.finalName) == r.created.value.finalName)
    case ProbeInterrupted => l.pc in {ProbeInitial, ProbeResume} && l.cancelled
    case ProbeAgain => l.pc in {ProbeInitial, ProbeResume, Revalidating} && l.budget.used < env.maximumRetries
    case Tick(c, _, _, _) => l.pc == Transferring(false) && CaptureFits(l, c)
    case EndTransfer(ended) => l.pc.Transferring? && (ended == Interrupted ==> l.cancelled)
    case PassBoundary(c, _, _) => l.pc.Boundary? && CaptureFits(l, c)
    case Decided(after) => l.pc.Decide? && (after == Revalidate ==> !l.budget.revalidated)
    case EndRevalidation(answer) => l.pc == Revalidating && (answer == Withdrawn ==> l.cancelled)
    case EndWait => l.pc == RetryWait
    case CheckpointStop(held, _, _) => l.pc == StopBoundary && (held.Some? ==> CaptureFits(l, held.value))
    case Apply(_, _, _, _, _) => l.pc == ApplyStop
    case Fail(_, _, _, _, _) => l.pc == Failing
  }

  predicate Publishable(l: Life, p: Publication) {
    match p
    case BeginValidation(_, _) => l.pc == EnterValidating
    case EndValidation(_) => l.pc == InValidation
    case BeginPromotion(_, _) => l.pc == EnterPromoting
    case EndPromotion(_) => l.pc == Publishing
    case RecordLink(_, _) => l.pc.RecordFirst?
    case RemovePartialLink(_) => l.pc.Cleanup?
    case RecordCleanup(_, _) => l.pc.RecordSecond?
    case Complete(_, _) => l.pc == Completing
    case Close => l.pc == Closing
  }

  ghost predicate Enabled(env: Env, l: Life, ev: Event) {
    match ev
    case Ask(c) => Askable(l, c)
    case Do(w) => Doable(env, l, w)
    case Publish(p) => Publishable(l, p)
  }

  function StopOr(l: Life, pc: Pc): Life { l.(pc := if l.cancelled then StopBoundary else pc) }

  function Asked(env: Env, l: Life, c: Control): Life
    requires Askable(l, c)
  {
    match c
    case Start(now, written) =>
      (match TryMove(env, l, Probing, now, written) case None => l case Some(saved) => BeginRun(saved, ProbeInitial))
    case ResumeTask => BeginRun(l, ProbeResume)
    case Requeue(now, written) =>
      (match TryMove(env, l, Queued, now, written) case None => l case Some(saved) => saved)
    case RequestPause => l.(stop := Some(Pause), cancelled := true)
    case RequestCancel(deletePartial) => l.(stop := Some(Cancel(deletePartial)), cancelled := true)
    case RequestShutdown => l.(stop := Some(Shutdown), cancelled := true)
    case CancelInactive(deletePartial, now, written, removed, forgotten) =>
      (match TryMove(env, l, Cancelled, now, written)
       case None => l
       case Some(saved) => if deletePartial then Discard(env, saved, now, removed, forgotten) else saved)
  }

  /** What follows a transfer whose coverage was checkpointed. */
  function Decision(env: Env, l: Life, after: AfterError): Life
    requires l.pc.Decide?
  {
    if l.cancelled then l.(pc := StopBoundary)
    else if l.pc.complete then l.(pc := EnterValidating)
    else match after
      case GiveUp => l.(pc := Failing)
      case Again => Scheduled(env, l)
      case Revalidate => l.(pc := Revalidating, budget := l.budget.(revalidated := true))
  }

  function Done(env: Env, l: Life, w: Work): Life
    requires Doable(env, l, w)
  {
    match w
    case Prepare(r, now, written) =>
      if r.ProbeFailed? then l.(pc := Failing)
      else if l.cancelled then l.(pc := StopBoundary)
      else if l.pc == ProbeInitial then PrepareInitial(env, l, r, now, written)
      else PrepareResume(env, l, r, now, written)
    case ProbeInterrupted => l.(pc := StopBoundary)
    case ProbeAgain => l.(budget := l.budget.(used := l.budget.used + 1))
    case Tick(c, now, deferred, written) =>
      var t := RefreshCompleted(l.task, c.partial, c.ranges, Latest(now, l.task));
      if t.Ok? && ValidateTask(env, t.value).None? && deferred && t.value.revision > l.durable.revision then
        l.(task := t.value)
      else
        var (next, ok) := Checkpointed(env, l, c, now, written);
        if ok then next else next.(pc := Transferring(true), cancelled := true)
    case EndTransfer(ended) =>
      if l.pc.checkpointFailed then l.(pc := Failing)
      else if ended == Interrupted then l.(pc := StopBoundary)
      else l.(pc := Boundary(ended == Transferred))
    case PassBoundary(c, now, written) =>
      var (next, ok) := Checkpointed(env, l, c, now, written);
      next.(pc := if ok then Decide(l.pc.transferred) else Failing)
    case Decided(after) => Decision(env, l, after)
    case EndRevalidation(answer) =>
      (match answer
       case Unmodified => Scheduled(env, l)
       case Rejected => l.(pc := Failing)
       case Withdrawn => l.(pc := StopBoundary))
    case EndWait => StopOr(l, Transferring(false))
    case CheckpointStop(held, now, written) =>
      if held.None? then l.(pc := ApplyStop) else
      var (next, ok) := Checkpointed(env, l, held.value, now, written);
      next.(pc := if ok then ApplyStop else Failing)
    case Apply(now, written, fallback, removed, forgotten) =>
      ApplyStopTo(env, l, now, written, fallback, removed, forgotten)
    case Fail(now, written, discard, removed, forgotten) => FailRun(env, l, now, written, discard, removed, forgotten)
  }

  function Published(env: Env, l: Life, p: Publication): Life
    requires Publishable(l, p)
  {
    match p
    case BeginValidation(now, written) => Enter(env, l, Validating, InValidation, now, written)
    case EndValidation(lease) => StopOr(l, if lease then EnterPromoting else Failing)
    case BeginPromotion(now, written) => Enter(env, l, Promoting, Publishing, now, written)
    case EndPromotion(linked) => l.(pc := if linked.Some? then RecordFirst(linked.value) else Failing)
    case RecordLink(now, written) =>
      NotePromotion(env, l, l.pc.final, l.task.partialPath, Cleanup(l.pc.final), now, written)
    case RemovePartialLink(unlinked) => l.(pc := if unlinked then RecordSecond(l.pc.published) else Completing)
    case RecordCleanup(now, written) => NotePromotion(env, l, l.pc.named, None, Completing, now, written)
    case Complete(now, written) =>
      (match if l.cancelled then None else TryMove(env, l, Completed, now, written)
       case None => Finish(l)
       case Some(saved) => saved.(pc := Closing))
    case Close => Finish(l)
  }

  function Advance(env: Env, l: Life, ev: Event): Life
    requires Enabled(env, l, ev)
  {
    match ev
    case Ask(c) => Asked(env, l, c)
    case Do(w) => Done(env, l, w)
    case Publish(p) => Published(env, l, p)
  }

  /** `transition_for_run`, refused once cancellation is visible. */
  function Enter(env: Env, l: Life, state: TaskState, pc: Pc, now: nat, written: bool): Life {
    if l.cancelled then l.(pc := StopBoundary)
    else match TryMove(env, l, state, now, written)
      case None => l.(pc := Failing)
      case Some(saved) => saved.(pc := pc)
  }

  /** `record_promotion`; a failure leaves the task promoting until restart. */
  function NotePromotion(env: Env, l: Life, final: Path, retained: Option<Path>, pc: Pc, now: nat,
                         written: bool): Life {
    if l.cancelled then Finish(l) else
    var t := RecordPromotion(env, l.task, final, retained, Latest(now, l.task));
    if t.Err? then Finish(l) else
    var (saved, ok) := Persist(env, l, t.value, written);
    if ok then saved.(pc := pc) else Finish(saved)
  }
}
