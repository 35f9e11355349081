/** That runs get somewhere: an undisturbed publication completes, and a run can
    only go on by waiting for another retry. */
module LifecycleProgress {
  import opened Ranges
  import opened TaskRecord
  import opened Network
  import opened Lifecycle
  import opened LifecycleSafety
  import opened LifecycleTheorems

  // ---------- Entering a run and its transfer ----------

  /** The record after a move, in memory and on disk. */
  function MovedTo(l: Life, next: TaskState, at: nat): Life {
    var moved := l.task.(state := next, revision := l.task.revision + 1, updatedAt := at);
    l.(task := moved, durable := moved)
  }

  lemma TryMoveExactly(env: Env, l: Life, next: TaskState, now: nat, written: bool)
    requires InStep(env, l)
    ensures TryMove(env, l, next, now, written).Some? <==>
      written && MayMove(l.task, next) && l.task.revision + 1 < U64_LIMIT
    ensures TryMove(env, l, next, now, written).Some? ==>
      TryMove(env, l, next, now, written).value == MovedTo(l, next, Latest(now, l.task))
  {
    TransitionExactly(env, l.task, next, Latest(now, l.task));
    TryMoveKeeps(env, l, next, now, written);
    if Transition(env, l.task, next, Latest(now, l.task)).Ok? { MoveKeeps(env, l, next, Latest(now, l.task), written); }
  }

  /** A queued task starts its next run, and a failed one is queued again,
      exactly when the new state can be recorded; otherwise nothing happens. */
  lemma StartExactly(env: Env, l: Life, c: Control)
    requires Inv(env, l) && Askable(l, c) && (c.Start? || c.Requeue?)
    ensures Asked(env, l, c) ==
      if !(c.written && l.task.revision + 1 < U64_LIMIT) then l
      else if c.Requeue? then MovedTo(l, Queued, Latest(c.now, l.task))
      else MovedTo(l, Probing, Latest(c.now, l.task)).(pc := ProbeInitial, generation := l.generation + 1,
                                                       budget := Budget(0, false))
  {
    TryMoveExactly(env, l, if c.Start? then Probing else Queued, c.now, c.written);
  }

  lemma LaunchExactly(env: Env, l: Life, at: nat, written: bool)
    requires Sound(env, l.task) && MayMove(l.task, Downloading) && l.task.updatedAt <= at
    requires l.durable.revision <= l.task.revision
    ensures var after := Launch(env, l, at, written);
      if written && l.task.revision + 1 < U64_LIMIT
      then after == MovedTo(l, Downloading, at).(pc := Transferring(false))
      else after.pc == Failing && after.durable == l.durable
  {
    TransitionExactly(env, l.task, Downloading, at);
    if l.task.revision + 1 < U64_LIMIT {
      TransitionKeepsSound(env, l.task, Downloading, at);
      assert Transition(env, l.task, Downloading, at).Ok?;
    }
  }

  /** The resource just probed is the one the record's bytes belong to. */
  ghost predicate SameBytes(t: Task, resource: Resource) {
    t.resource == Some(resource) && (HasStrongIdentity(resource.validators) || forall x: nat :: !Covers(t.ranges, x))
  }

  lemma ReusableMeansSameBytes(env: Env, t: Task, resource: Resource)
    requires Sound(env, t)
    ensures Reusable(t, resource) <==> SameBytes(t, resource)
  {
    if t.ranges != [] { assert In(t.ranges[0].start, t.ranges[0]) && Covers(t.ranges, t.ranges[0].start); }
  }

  /** A paused task is transferred again exactly when its server still offers the
      same resource, its partial reopens, and the move is recorded; otherwise the
      run fails with the durable record as it was. */
  lemma ResumeExactly(env: Env, l: Life, w: Work)
    requires Inv(env, l) && Doable(env, l, w) && w.Prepare? && w.result.Probed?
    requires l.pc == ProbeResume && !l.cancelled
    ensures var after := Done(env, l, w);
      if w.written && w.result.reopened && SameBytes(l.task, w.result.resource) && l.task.revision + 1 < U64_LIMIT
      then after == MovedTo(l, Downloading, Latest(w.now, l.task)).(pc := Transferring(false))
      else after.pc == Failing && after.durable == l.durable
  {
    ReusableMeansSameBytes(env, l.task, w.result.resource);
    LaunchExactly(env, l, Latest(w.now, l.task), w.written);
  }

  /** A retained partial is reopened into a new run's transfer exactly under the
      same conditions, with one revision more for the resource. */
  lemma RelaunchExactly(env: Env, l: Life, w: Work)
    requires Inv(env, l) && Doable(env, l, w) && w.Prepare? && w.result.Probed?
    requires l.pc == ProbeInitial && !l.cancelled && l.task.partialPath.Some?
    ensures var after := Done(env, l, w);
      if w.written && w.result.reopened && SameBytes(l.task, w.result.resource) && l.task.revision + 2 < U64_LIMIT
      then after == MovedTo(Renewed(l, 1), Downloading, Latest(w.now, l.task)).(pc := Transferring(false))
      else after.pc == Failing && after.durable == l.durable
  {
    ReusableMeansSameBytes(env, l.task, w.result.resource);
    var at := Latest(w.now, l.task);
    var known := ApplyResource(l.task, w.result.resource, at);
    if Reusable(l.task, w.result.resource) && known.Ok? {
      ResourceKeepsSound(env, l.task, w.result.resource, at);
      if w.result.reopened { LaunchExactly(env, l.(task := known.value), at, w.written); }
    }
  }

  /** The record with `n` more unsaved revisions. */
  function Renewed(l: Life, n: nat): Life { l.(task := l.task.(revision := l.task.revision + n)) }

  /** A task without a partial is transferred exactly when storage created one for
      the probed length inside the task's destination, and the move is recorded;
      the record then names the resource, the partial and the name it got. */
  lemma CreateExactly(env: Env, l: Life, w: Work)
    requires Inv(env, l) && Doable(env, l, w) && w.Prepare? && w.result.Probed?
    requires l.pc == ProbeInitial && !l.cancelled && l.task.partialPath.None?
    ensures var after := Done(env, l, w);
      if w.written && w.result.created.Some? && Fits(env, l.task, w.result.resource, w.result.created.value)
         && l.task.revision + 3 < U64_LIMIT
      then after == MovedTo(Renewed(Equipped(l, w.result.resource, w.result.created.value), 2), Downloading,
                            Latest(w.now, l.task)).(pc := Transferring(false))
      else after.pc == Failing && after.durable == l.durable
  {
    var at := Latest(w.now, l.task);
    var known := ApplyResource(l.task, w.result.resource, at);
    if known.Ok? && w.result.created.Some? {
      ResourceKeepsSound(env, l.task, w.result.resource, at);
      var attached := AttachPartial(env, known.value, w.result.created.value, at);
      if attached.Ok? {
        AttachKeepsSound(env, known.value, w.result.created.value, at);
        LaunchExactly(env, l.(task := attached.value), at, w.written);
      }
    }
  }

  predicate Fits(env: Env, t: Task, resource: Resource, p: PartialInfo) {
    p.len == resource.expectedSize && p.parent == t.destination && env.confinedPartial(p.path, t.destination)
  }

  function Equipped(l: Life, resource: Resource, p: PartialInfo): Life {
    l.(task := l.task.(resource := Some(resource), partialPath := Some(p.path), displayName := p.finalName))
  }

  // ---------- Publication ----------

  /** These events finish the run with `path` published and durable. */
  ghost predicate CompletesBy(env: Env, l: Life, evs: seq<Event>, path: Path) {
    ValidRun(env, l, evs) &&
    (var end := Run(env, l, evs);
     && end.pc == Inactive && end.task.state == Completed && end.task.finalPath == Some(path)
     && end.task.partialPath.None? && end.durable == end.task && end.generation == l.generation)
  }

  lemma CompletesLater(env: Env, l: Life, p: Publication, rest: seq<Event>, path: Path)
    requires Publishable(l, p) && CompletesBy(env, Published(env, l, p), rest, path)
    requires Published(env, l, p).generation == l.generation
    ensures CompletesBy(env, l, [Publish(p)] + rest, path)
  {
    assert ([Publish(p)] + rest)[1..] == rest;
    assert Advance(env, l, Publish(p)) == Published(env, l, p);
  }

  /** The only obstacles to the next stage are a stop, a failed write, or an
      exhausted revision. */
  lemma StageSucceeds(env: Env, l: Life, next: TaskState, now: nat)
    requires InStep(env, l) && Allows(l.task.state, next) && next in {Validating, Promoting, Completed}
    requires l.task.revision + 1 < U64_LIMIT
    requires ExpectedSize(l.task).Some? && HasExactCoverage(l.task.ranges, ExpectedSize(l.task).value)
    requires next == Completed ==> l.task.finalPath.Some?
    ensures TryMove(env, l, next, now, true).Some?
    ensures var moved := TryMove(env, l, next, now, true).value;
      && moved == l.(task := moved.task, durable := moved.task)
      && moved.task == l.task.(state := next, revision := l.task.revision + 1, updatedAt := moved.task.updatedAt)
  {
    var moved := Bump(l.task, Latest(now, l.task)).value.(state := next);
    assert Consistent(moved);
    assert l.task.resource.Some? ==> NewResource(env, l.task.resource.value).Ok?;
    assert ValidateTask(env, moved).None?;
    TryMoveKeeps(env, l, next, now, true);
  }

  predicate Undisturbed(l: Life, margin: nat) {
    && !l.cancelled && l.stop.None? && l.task.revision + margin < U64_LIMIT
    && ExpectedSize(l.task).Some? && HasExactCoverage(l.task.ranges, ExpectedSize(l.task).value)
  }

  lemma ClosesNow(env: Env, l: Life, path: Path)
    requires l.pc == Closing && l.task.state == Completed && l.task.finalPath == Some(path) && l.task.partialPath.None?
    requires l.durable == l.task
    ensures CompletesBy(env, l, [Publish(Close)], path)
  {
    assert [Publish(Close)][1..] == [];
    assert Run(env, l, [Publish(Close)]) == Finish(l);
  }

  lemma Closes(env: Env, l: Life, path: Path, now: nat)
    requires Inv(env, l) && l.pc == Completing && Undisturbed(l, 1)
    requires l.task.finalPath == Some(path) && l.task.partialPath.None?
    ensures CompletesBy(env, l, [Publish(Complete(now, true)), Publish(Close)], path)
  {
    StageSucceeds(env, l, Completed, now);
    ClosesNow(env, Published(env, l, Complete(now, true)), path);
    CompletesLater(env, l, Complete(now, true), [Publish(Close)], path);
    assert [Publish(Complete(now, true))] + [Publish(Close)] == [Publish(Complete(now, true)), Publish(Close)];
  }

  lemma Records(env: Env, l: Life, final: Path, retained: Option<Path>, pc: Pc, now: nat)
    requires InStep(env, l) && Undisturbed(l, 1) && l.task.state == Promoting
    requires env.confinedFinal(final, l.task.destination)
    requires l.task.finalPath.Some? ==> l.task.finalPath == Some(final)
    requires retained.Some? ==> l.task.partialPath == retained
    ensures var next := NotePromotion(env, l, final, retained, pc, now, true);
      && next.pc == pc && next.task.finalPath == Some(final) && next.task.partialPath == retained
      && next == l.(pc := pc, task := next.task, durable := next.durable)
      && next.task.revision == l.task.revision + 1 && next.task.state == Promoting
      && next.task.destination == l.task.destination && next.task.ranges == l.task.ranges
      && next.task.resource == l.task.resource
  {
    PromotionKeepsSound(env, l.task, final, retained, Latest(now, l.task));
    PersistKeeps(env, l, RecordPromotion(env, l.task, final, retained, Latest(now, l.task)).value, true);
  }

  lemma Forgets(env: Env, l: Life, path: Path, now: nat)
    requires Inv(env, l) && l.pc == RecordSecond(path) && Undisturbed(l, 2)
    requires env.confinedFinal(path, l.task.destination)
    ensures CompletesBy(env, l, [Publish(RecordCleanup(now, true))]
      + [Publish(Complete(now, true)), Publish(Close)], path)
  {
    Records(env, l, path, None, Completing, now);
    PublicationKeepsInv(env, l, RecordCleanup(now, true));
    Closes(env, Published(env, l, RecordCleanup(now, true)), path, now);
    CompletesLater(env, l, RecordCleanup(now, true), [Publish(Complete(now, true)), Publish(Close)], path);
  }

  lemma CleansUp(env: Env, l: Life, path: Path, now: nat)
    requires Inv(env, l) && l.pc == Cleanup(path) && Undisturbed(l, 2) && env.confinedFinal(path, l.task.destination)
    ensures CompletesBy(env, l, Ending(now), path)
  {
    PublicationKeepsInv(env, l, RemovePartialLink(true));
    Forgets(env, Published(env, l, RemovePartialLink(true)), path, now);
    var rest := [Publish(RecordCleanup(now, true))] + [Publish(Complete(now, true)), Publish(Close)];
    CompletesLater(env, l, RemovePartialLink(true), rest, path);
    assert [Publish(RemovePartialLink(true))] + rest == Ending(now);
  }

  function Ending(now: nat): seq<Event> {
    [Publish(RemovePartialLink(true)), Publish(RecordCleanup(now, true)), Publish(Complete(now, true)), Publish(Close)]
  }

  lemma Publishes(env: Env, l: Life, path: Path, now: nat)
    requires Inv(env, l) && l.pc == Publishing && Undisturbed(l, 3) && env.confinedFinal(path, l.task.destination)
    requires l.task.partialPath.Some?
    ensures CompletesBy(env, l, [Publish(EndPromotion(Some(path)))]
      + ([Publish(RecordLink(now, true))] + Ending(now)), path)
  {
    var first := Published(env, l, EndPromotion(Some(path)));
    PublicationKeepsInv(env, l, EndPromotion(Some(path)));
    Records(env, first, path, first.task.partialPath, Cleanup(path), now);
    PublicationKeepsInv(env, first, RecordLink(now, true));
    CleansUp(env, Published(env, first, RecordLink(now, true)), path, now);
    CompletesLater(env, first, RecordLink(now, true), Ending(now), path);
    CompletesLater(env, l, EndPromotion(Some(path)), [Publish(RecordLink(now, true))] + Ending(now), path);
  }

  lemma Promotes(env: Env, l: Life, path: Path, now: nat)
    requires Inv(env, l) && l.pc == EnterPromoting && Undisturbed(l, 4) && env.confinedFinal(path, l.task.destination)
    ensures CompletesBy(env, l, [Publish(BeginPromotion(now, true))]
      + ([Publish(EndPromotion(Some(path)))] + ([Publish(RecordLink(now, true))] + Ending(now))), path)
  {
    StageSucceeds(env, l, Promoting, now);
    PublicationKeepsInv(env, l, BeginPromotion(now, true));
    Publishes(env, Published(env, l, BeginPromotion(now, true)), path, now);
    CompletesLater(env, l, BeginPromotion(now, true), [Publish(EndPromotion(Some(path)))]
      + ([Publish(RecordLink(now, true))] + Ending(now)), path);
  }

  /** A fully downloaded run that nobody stops, whose file validates and links and
      whose checkpoints are written, completes with that name durable and its
      partial gone. */
  lemma UndisturbedRunCompletes(env: Env, l: Life, path: Path, now: nat) returns (evs: seq<Event>)
    requires Inv(env, l) && l.pc == EnterValidating && Undisturbed(l, 5) && env.confinedFinal(path, l.task.destination)
    ensures |evs| == 9 && CompletesBy(env, l, evs, path)
  {
    StageSucceeds(env, l, Validating, now);
    var validating := Published(env, l, BeginValidation(now, true));
    PublicationKeepsInv(env, l, BeginValidation(now, true));
    var leased := Published(env, validating, EndValidation(true));
    PublicationKeepsInv(env, validating, EndValidation(true));
    Promotes(env, leased, path, now);
    evs := [Publish(BeginPromotion(now, true))]
      + ([Publish(EndPromotion(Some(path)))] + ([Publish(RecordLink(now, true))] + Ending(now)));
    CompletesLater(env, validating, EndValidation(true), evs, path);
    evs := [Publish(EndValidation(true))] + evs;
    CompletesLater(env, l, BeginValidation(now, true), evs, path);
    evs := [Publish(BeginValidation(now, true))] + evs;
  }

  // ---------- Every run ends ----------

  const FIRST_RANK: nat := 15

  /** Sections left at most before the run ends or schedules another retry. */
  function Rank(pc: Pc): nat {
    match pc
    case Inactive => 0
    case Failing => 1
    case Closing => 1
    case ApplyStop => 2
    case Completing => 2
    case StopBoundary => 3
    case RecordSecond(_) => 3
    case Cleanup(_) => 4
    case RecordFirst(_) => 5
    case Publishing => 6
    case EnterPromoting => 7
    case InValidation => 8
    case EnterValidating => 9
    case Revalidating => 10
    case Decide(_) => 11
    case Boundary(_) => 12
    case Transferring(_) => 13
    case RetryWait => 14
    case ProbeInitial => FIRST_RANK
    case ProbeResume => FIRST_RANK
  }

  function RetriesLeft(env: Env, l: Life): nat {
    if l.budget.used < env.maximumRetries then env.maximumRetries - l.budget.used else 0
  }

  /** Sections left at most, apart from progress ticks. */
  function Potential(env: Env, l: Life): nat {
    if l.pc == Inactive then 0 else Rank(l.pc) + FIRST_RANK * RetriesLeft(env, l)
  }

  predicate IsTick(ev: Event) { ev.Do? && ev.work.Tick? }

  predicate IsSection(ev: Event) { !ev.Ask? && !IsTick(ev) }

  predicate Starts(ev: Event) { ev.Ask? && (ev.control.Start? || ev.control.ResumeTask?) }

  /** A section that schedules nothing moves the run along. */
  predicate MovesOn(l: Life, next: Life) { next.budget.used == l.budget.used && Rank(next.pc) < Rank(l.pc) }

  lemma MovingLowers(env: Env, l: Life, next: Life)
    requires MovesOn(l, next)
    ensures Potential(env, next) < Potential(env, l)
  { }

  /** A scheduled retry pays for the sections it allows. */
  lemma SchedulingLowers(env: Env, l: Life)
    requires Running(l) && l.pc in {Decide(false), Revalidating}
    ensures Potential(env, Scheduled(env, l)) < Potential(env, l)
  { }

  lemma AgainLowers(env: Env, l: Life)
    requires Doable(env, l, ProbeAgain)
    ensures Potential(env, Done(env, l, ProbeAgain)) < Potential(env, l)
  { }

  lemma EnterPositions(env: Env, l: Life, state: TaskState, pc: Pc, now: nat, written: bool)
    ensures var after := Enter(env, l, state, pc, now, written);
      after.pc in {pc, StopBoundary, Failing} && after.budget == l.budget
  { }

  lemma NotePositions(env: Env, l: Life, final: Path, retained: Option<Path>, pc: Pc, now: nat, written: bool)
    ensures var after := NotePromotion(env, l, final, retained, pc, now, written);
      after.pc in {pc, Inactive} && after.budget == l.budget
  { }

  lemma CompletePositions(env: Env, l: Life, now: nat, written: bool)
    requires Publishable(l, Complete(now, written))
    ensures var after := Published(env, l, Complete(now, written));
      after.pc in {Closing, Inactive} && after.budget == l.budget
  { }

  lemma EnterMoves(env: Env, l: Life, p: Publication)
    requires Publishable(l, p) && (p.BeginValidation? || p.BeginPromotion?)
    ensures MovesOn(l, Published(env, l, p))
  {
    if p.BeginValidation? { EnterPositions(env, l, Validating, InValidation, p.now, p.written); }
    else { EnterPositions(env, l, Promoting, Publishing, p.now, p.written); }
  }

  lemma LinkMoves(env: Env, l: Life, p: Publication)
    requires Publishable(l, p) && p.RecordLink?
    ensures MovesOn(l, Published(env, l, p))
  {
    NotePositions(env, l, l.pc.final, l.task.partialPath, Cleanup(l.pc.final), p.now, p.written);
  }

  lemma CleanupMoves(env: Env, l: Life, p: Publication)
    requires Publishable(l, p) && p.RecordCleanup?
    ensures MovesOn(l, Published(env, l, p))
  {
    NotePositions(env, l, l.pc.named, None, Completing, p.now, p.written);
  }

  lemma PublicationMoves(env: Env, l: Life, p: Publication)
    requires Publishable(l, p)
    ensures MovesOn(l, Published(env, l, p))
  {
    if p.BeginValidation? || p.BeginPromotion? { EnterMoves(env, l, p); }
    else if p.RecordLink? { LinkMoves(env, l, p); }
    else if p.RecordCleanup? { CleanupMoves(env, l, p); }
    else if p.Complete? { CompletePositions(env, l, p.now, p.written); }
    else { PlainMoves(env, l, p); }
  }

  lemma PlainMoves(env: Env, l: Life, p: Publication)
    requires Publishable(l, p) && (p.EndValidation? || p.EndPromotion? || p.RemovePartialLink? || p.Close?)
    ensures MovesOn(l, Published(env, l, p))
  { }

  lemma LaunchPositions(env: Env, l: Life, now: nat, written: bool)
    ensures var after := Launch(env, l, now, written);
      after.pc in {Transferring(false), Failing} && after.budget == l.budget
  { }

  lemma PrepareMoves(env: Env, l: Life, w: Work)
    requires Doable(env, l, w) && w.Prepare?
    ensures MovesOn(l, Done(env, l, w))
  {
    var at := Latest(w.now, l.task);
    if w.result.Probed? {
      LaunchPositions(env, l, at, w.written);
      var known := ApplyResource(l.task, w.result.resource, at);
      if known.Ok? {
        var chosen := OpenPartial(env, known.value, w.result, at);
        if chosen.Ok? { LaunchPositions(env, l.(task := chosen.value), at, w.written); }
      }
    }
  }

  lemma EndingMoves(env: Env, l: Life, w: Work)
    requires Doable(env, l, w) && (w.Apply? || w.Fail?)
    ensures MovesOn(l, Done(env, l, w))
  {
    if w.Apply? { StopPositions(env, l, w); }
  }

  lemma StopPositions(env: Env, l: Life, w: Work)
    requires Doable(env, l, w) && w.Apply?
    ensures Done(env, l, w).pc == Inactive && Done(env, l, w).budget == l.budget
  {
    var target := StopTarget(RequestedStop(l), l.task.state);
    if target.Some? {
      StopEnds(env, l, RequestedStop(l), target.value, w.now, w.written, w.fallback, w.removed, w.forgotten);
    }
  }

  lemma StopEnds(env: Env, l: Life, stop: Stop, next: TaskState, now: nat, written: bool, fallback: bool,
                 removed: bool, forgotten: bool)
    ensures var after := MoveToStop(env, l, stop, next, now, written, fallback, removed, forgotten);
      after.pc == Inactive && after.budget == l.budget
  { }

  lemma CheckpointMoves(env: Env, l: Life, w: Work)
    requires Doable(env, l, w) && (w.PassBoundary? || w.CheckpointStop?)
    ensures MovesOn(l, Done(env, l, w))
  { }

  lemma WorkLowers(env: Env, l: Life, w: Work)
    requires Doable(env, l, w) && !w.Tick?
    ensures Potential(env, Done(env, l, w)) < Potential(env, l)
  {
    match w
    case Prepare(_, _, _) => PrepareMoves(env, l, w); MovingLowers(env, l, Done(env, l, w));
    case ProbeAgain => AgainLowers(env, l);
    case Decided(after) =>
      if !l.cancelled && !l.pc.complete && after == Again { SchedulingLowers(env, l); }
      else { MovingLowers(env, l, Done(env, l, w)); }
    case EndRevalidation(answer) =>
      if answer == Unmodified { SchedulingLowers(env, l); } else { MovingLowers(env, l, Done(env, l, w)); }
    case PassBoundary(_, _, _) => CheckpointMoves(env, l, w); MovingLowers(env, l, Done(env, l, w));
    case CheckpointStop(_, _, _) => CheckpointMoves(env, l, w); MovingLowers(env, l, Done(env, l, w));
    case Apply(_, _, _, _, _) => EndingMoves(env, l, w); MovingLowers(env, l, Done(env, l, w));
    case Fail(_, _, _, _, _) => EndingMoves(env, l, w); MovingLowers(env, l, Done(env, l, w));
    case EndTransfer(_) => MovingLowers(env, l, Done(env, l, w));
    case EndWait => MovingLowers(env, l, Done(env, l, w));
    case ProbeInterrupted => MovingLowers(env, l, Done(env, l, w));
  }

  lemma TickStays(env: Env, l: Life, w: Work)
    requires Doable(env, l, w) && w.Tick?
    ensures Potential(env, Done(env, l, w)) == Potential(env, l)
  { }

  lemma ControlStarts(env: Env, l: Life, c: Control)
    requires Askable(l, c)
    ensures Potential(env, Asked(env, l, c)) <=
      Potential(env, l) + if Starts(Ask(c)) then FIRST_RANK * (env.maximumRetries + 1) else 0
  {
    if !Starts(Ask(c)) { PositionsKept(env, l, c); }
  }

  lemma PositionsKept(env: Env, l: Life, c: Control)
    requires Askable(l, c) && !Starts(Ask(c))
    ensures Asked(env, l, c).pc == l.pc && Asked(env, l, c).budget == l.budget
  { }

  lemma EventLowers(env: Env, l: Life, ev: Event)
    requires Enabled(env, l, ev)
    ensures (if IsSection(ev) then 1 else 0) + Potential(env, Advance(env, l, ev)) <=
      Potential(env, l) + if Starts(ev) then FIRST_RANK * (env.maximumRetries + 1) else 0
  {
    match ev
    case Ask(c) => ControlStarts(env, l, c);
    case Do(w) => if w.Tick? { TickStays(env, l, w); } else { WorkLowers(env, l, w); }
    case Publish(p) => PublicationMoves(env, l, p); MovingLowers(env, l, Published(env, l, p));
  }

  function Sections(evs: seq<Event>): nat {
    if evs == [] then 0 else Sections(evs[1..]) + if IsSection(evs[0]) then 1 else 0
  }

  function Started(evs: seq<Event>): nat {
    if evs == [] then 0 else Started(evs[1..]) + if Starts(evs[0]) then 1 else 0
  }

  /** Apart from progress ticks a run takes at most fifteen sections for its start
      and for each retry its budget allows. */
  lemma {:induction false} RunsEnd(env: Env, l: Life, evs: seq<Event>)
    requires ValidRun(env, l, evs)
    ensures Sections(evs) + Potential(env, Run(env, l, evs)) <=
      Potential(env, l) + FIRST_RANK * (env.maximumRetries + 1) * Started(evs)
    decreases |evs|
  {
    if evs != [] {
      EventLowers(env, l, evs[0]);
      RunsEnd(env, Advance(env, l, evs[0]), evs[1..]);
      Distributes(FIRST_RANK * (env.maximumRetries + 1), Started(evs[1..]), if Starts(evs[0]) then 1 else 0);
    }
  }

  lemma Distributes(k: nat, a: nat, b: nat)
    ensures k * (a + b) == k * a + k * b
  { }

  /** One start, and no control afterwards that starts it again: the run is over
      after fifteen sections for each retry allowed and one more. */
  lemma OneRunIsBounded(env: Env, l: Life, evs: seq<Event>)
    requires ValidRun(env, l, evs) && l.pc == Inactive && Started(evs) <= 1
    requires Sections(evs) >= FIRST_RANK * (env.maximumRetries + 1)
    ensures !Running(Run(env, l, evs))
  {
    RunsEnd(env, l, evs);
    AtMostOnce(FIRST_RANK * (env.maximumRetries + 1), Started(evs));
    if Running(Run(env, l, evs)) { RunningHasPotential(env, Run(env, l, evs)); }
  }

  lemma AtMostOnce(k: nat, n: nat)
    requires n <= 1
    ensures k * n <= k
  { }

  lemma RunningHasPotential(env: Env, l: Life)
    requires Running(l)
    ensures Potential(env, l) > 0
  { }

  /** A run that has not ended always has a next section of its own. */
  lemma RunningHasASection(env: Env, l: Life, c: Capture, now: nat) returns (ev: Event)
    requires Running(l) && CaptureFits(l, c)
    ensures Enabled(env, l, ev) && IsSection(ev)
  {
    ev := match l.pc
      case ProbeInitial => Do(Prepare(ProbeFailed, now, true))
      case ProbeResume => Do(Prepare(ProbeFailed, now, true))
      case Transferring(_) => Do(EndTransfer(Errored))
      case Boundary(_) => Do(PassBoundary(c, now, true))
      case Decide(_) => Do(Decided(GiveUp))
      case Revalidating => Do(EndRevalidation(Rejected))
      case RetryWait => Do(EndWait)
      case EnterValidating => Publish(BeginValidation(now, true))
      case InValidation => Publish(EndValidation(true))
      case EnterPromoting => Publish(BeginPromotion(now, true))
      case Publishing => Publish(EndPromotion(None))
      case RecordFirst(_) => Publish(RecordLink(now, true))
      case Cleanup(_) => Publish(RemovePartialLink(true))
      case RecordSecond(_) => Publish(RecordCleanup(now, true))
      case Completing => Publish(Complete(now, true))
      case Closing => Publish(Close)
      case StopBoundary => Do(CheckpointStop(None, now, true))
      case ApplyStop => Do(Apply(now, true, true, false, false))
      case _ => Do(Fail(now, true, false, false, false));
  }
}
