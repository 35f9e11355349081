/** Stop versus publish, over every interleaving of a run with its controls. */
module LifecycleTheorems {
  import opened Ranges
  import opened TaskRecord
  import opened Network
  import opened Lifecycle
  import opened LifecycleSafety
  import Storage

  ghost predicate ValidRun(env: Env, l: Life, evs: seq<Event>)
    decreases |evs|
  {
    evs == [] || (Enabled(env, l, evs[0]) && ValidRun(env, Advance(env, l, evs[0]), evs[1..]))
  }

  ghost function Run(env: Env, l: Life, evs: seq<Event>): Life
    requires ValidRun(env, l, evs)
    decreases |evs|
  {
    if evs == [] then l else Run(env, Advance(env, l, evs[0]), evs[1..])
  }

  /** A new task, checkpointed before anything runs. */
  lemma NewTaskKeepsInv(env: Env, t: Task)
    requires Sound(env, t) && t.state == Queued
    ensures Inv(env, Loaded(t))
  { }

  lemma {:induction false} RunKeepsLife(env: Env, l: Life, evs: seq<Event>)
    requires Inv(env, l) && ValidRun(env, l, evs)
    ensures Inv(env, Run(env, l, evs))
    ensures l.generation <= Run(env, l, evs).generation
    ensures l.durable.revision <= Run(env, l, evs).durable.revision
    decreases |evs|
  {
    if evs != [] {
      StepKeepsInv(env, l, evs[0]);
      RunKeepsLife(env, Advance(env, l, evs[0]), evs[1..]);
    }
  }

  /** From the creation of a task on, whatever controls, failures and refused writes
      it meets, its durable record is valid and a completed one is whole. */
  lemma NewTaskStaysValid(env: Env, id: TaskId, url: string, needsSession: bool, digest: Option<seq<Storage.Byte>>,
                          dir: Path, name: string, workers: nat, now: nat, evs: seq<Event>)
    requires Idempotent(env) && Sanitizes(env)
    requires NewTask(env, id, url, needsSession, digest, dir, name, workers, now).Ok?
    ensures var l := Loaded(NewTask(env, id, url, needsSession, digest, dir, name, workers, now).value);
      && Inv(env, l)
      && (ValidRun(env, l, evs) ==>
            var end := Run(env, l, evs);
            && Inv(env, end) && ValidateTask(env, end.durable).None? && end.durable.revision >= 1
            && (end.durable.state == Completed ==>
                  && end.durable.finalPath.Some? && ExpectedSize(end.durable).Some?
                  && HasExactCoverage(end.durable.ranges, ExpectedSize(end.durable).value)))
  {
    var t := NewTask(env, id, url, needsSession, digest, dir, name, workers, now).value;
    NewTaskIsSound(env, id, url, needsSession, digest, dir, name, workers, now);
    NewTaskKeepsInv(env, t);
    if ValidRun(env, Loaded(t), evs) { RunKeepsLife(env, Loaded(t), evs); }
  }

  /** The run of generation `g` has lost the race to publish. */
  predicate Stopped(l: Life, g: nat) {
    g <= l.generation && (l.generation == g ==> Lost(l) && l.durable.state !in {Promoting, Completed})
  }

  /** Once a pause, cancel or shutdown is accepted before promotion, that run
      reaches neither Promoting nor Completed, in memory or on disk. */
  lemma {:induction false} StoppedRunNeverPublishes(env: Env, l: Life, evs: seq<Event>)
    requires Inv(env, l) && ValidRun(env, l, evs)
    requires l.stop.Some? && l.task.state != Completed
    ensures Stopped(Run(env, l, evs), l.generation)
  {
    StaysStopped(env, l, evs, l.generation);
  }

  lemma {:induction false} StaysStopped(env: Env, l: Life, evs: seq<Event>, g: nat)
    requires Inv(env, l) && ValidRun(env, l, evs) && Stopped(l, g)
    ensures Stopped(Run(env, l, evs), g)
    decreases |evs|
  {
    if evs != [] {
      StepKeepsInv(env, l, evs[0]);
      StaysStopped(env, Advance(env, l, evs[0]), evs[1..], g);
    }
  }

  /** While a run is promoting no control is accepted and none is pending. After
      it completed only a shutdown can still be recorded, and nothing reads it. */
  lemma PublicationIsUndisturbed(env: Env, l: Life, c: Control)
    requires Inv(env, l) && Running(l)
    ensures l.task.state == Promoting ==> !Askable(l, c) && l.stop.None? && !l.cancelled
    ensures l.task.state == Completed ==> (Askable(l, c) <==> c == RequestShutdown && l.stop.None?)
    ensures l.task.state == Completed ==>
      l.pc == Closing && Published(env, l, Close) == l.(pc := Inactive, stop := None, cancelled := false)
  { }

  /** Where a recorded request leads from `state`, given whether it persists. */
  function StopResult(stop: Stop, state: TaskState, persisted: bool): TaskState {
    if stop == Shutdown && state == Paused then Paused
    else if !persisted then Failed
    else match stop
      case Pause => Paused
      case Cancel(_) => Cancelled
      case Shutdown => if state == Downloading then Paused else Failed
  }

  /** Applying a stop always finds a recorded request. In memory its outcome is the
      one requested exactly when its checkpoint is written, and failure otherwise.
      On disk it is the same unless the fallback checkpoint fails as well, and then
      the old record remains. */
  lemma StopOutcome(env: Env, l: Life, now: nat, written: bool, fallback: bool, removed: bool, forgotten: bool)
    requires Inv(env, l) && l.pc == ApplyStop && l.task.revision + 1 < U64_LIMIT
    ensures l.stop.Some?
    ensures var after := ApplyStopTo(env, l, now, written, fallback, removed, forgotten);
      && !Running(after) && after.task.state == StopResult(l.stop.value, l.task.state, written)
      && (if l.stop.value == Shutdown && l.task.state == Paused then after == Finish(l)
          else after.durable == if written || fallback then after.task else l.durable)
  {
    var target := StopTarget(l.stop.value, l.task.state);
    if target.Some? {
      StopTransition(env, l.task, target.value, Latest(now, l.task));
      TryMoveKeeps(env, l, target.value, now, written);
      if written {
        StopWritten(env, l, target.value, now, removed, forgotten);
      } else {
        StopFallsBack(env, l, target.value, now, fallback);
      }
    }
  }

  lemma StopWritten(env: Env, l: Life, next: TaskState, now: nat, removed: bool, forgotten: bool)
    requires InStep(env, l) && Transition(env, l.task, next, Latest(now, l.task)).Ok?
    ensures TryMove(env, l, next, now, true).Some?
    ensures var saved := TryMove(env, l, next, now, true).value;
      && saved.task.state == next && saved.durable == saved.task
      && Discard(env, saved, now, removed, forgotten).task.state == next
      && Discard(env, saved, now, removed, forgotten).durable == Discard(env, saved, now, removed, forgotten).task
  {
    TryMoveKeeps(env, l, next, now, true);
    MoveKeeps(env, l, next, Latest(now, l.task), true);
    DiscardKeeps(env, TryMove(env, l, next, now, true).value, now, removed, forgotten);
  }

  lemma StopFallsBack(env: Env, l: Life, next: TaskState, now: nat, fallback: bool)
    requires InStep(env, l) && Allows(l.task.state, Failed) && l.task.state !in {Promoting, Failed}
    requires l.task.revision + 1 < U64_LIMIT
    ensures TryMove(env, l, next, now, false).None?
    ensures var after := MarkStopFailed(env, l, now, fallback);
      after.task.state == Failed && after.durable == if fallback then after.task else l.durable
  {
    StopTransition(env, l.task, Failed, Latest(now, l.task));
    MoveKeeps(env, l, Failed, Latest(now, l.task), fallback);
    TryMoveKeeps(env, l, next, now, false);
    NotWritten(env, l, next, now);
  }

  lemma NotWritten(env: Env, l: Life, next: TaskState, now: nat)
    requires InStep(env, l)
    ensures TryMove(env, l, next, now, false).None?
  { }

  /** The only obstacle to a stop transition is an exhausted revision. */
  lemma StopTransition(env: Env, t: Task, next: TaskState, now: nat)
    requires Sound(env, t) && Allows(t.state, next) && next in {Paused, Failed, Cancelled} && t.state != Promoting
    requires t.updatedAt <= now
    ensures Transition(env, t, next, now).Ok? <==> t.revision + 1 < U64_LIMIT
  {
    if t.revision + 1 < U64_LIMIT {
      var moved := Bump(t, now).value.(state := next);
      assert Consistent(moved);
      assert t.resource.Some? ==> NewResource(env, t.resource.value).Ok?;
      assert ValidateTask(env, moved).None?;
    }
  }

  /** An accepted pause leads to Paused exactly when its checkpoint is written. */
  lemma AcceptedPauseIsApplied(env: Env, l: Life, now: nat, written: bool, fallback: bool)
    requires Inv(env, l) && l.stop == Some(Pause) && l.pc == ApplyStop && l.task.revision + 1 < U64_LIMIT
    ensures l.task.state == Downloading
    ensures var after := ApplyStopTo(env, l, now, written, fallback, false, false);
      && (after.task.state == Paused <==> written)
      && (after.durable.state == Paused <==> written || (!fallback && l.durable.state == Paused))
  {
    StopOutcome(env, l, now, written, fallback, false, false);
  }
}
