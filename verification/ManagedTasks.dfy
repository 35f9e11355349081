/** The locked task object whose sections change in place; each method is one
    section and is tied to its effect on the abstract life of the task. */
module ManagedTasks {
  import opened Ranges
  import opened TaskRecord
  import opened Lifecycle

  class ManagedTask {
    var metadata: Task
    var durable: Task
    var generation: nat
    var cancelled: bool
    var stopRequest: Option<Stop>
    var pc: Pc
    var budget: Budget

    function View(): Life reads this { Life(metadata, durable, generation, cancelled, stopRequest, pc, budget) }

    constructor (record: Task)
      ensures View() == Loaded(record)
    {
      metadata, durable, generation, cancelled, stopRequest, pc := record, record, 0, false, None, Inactive;
      budget := Budget(0, false);
    }

    method BeginRun(position: Pc)
      modifies this
      ensures View() == Lifecycle.BeginRun(old(View()), position)
    {
      generation := generation + 1;
      pc, cancelled, stopRequest, budget := position, false, None, Budget(0, false);
    }

    method ScheduleRetry(env: Env) returns (scheduled: bool)
      modifies this
      ensures View() == Scheduled(env, old(View())) && (scheduled <==> old(budget).used < env.maximumRetries)
      ensures scheduled ==> pc == RetryWait && budget == Budget(old(budget).used + 1, old(budget).revalidated)
      ensures !scheduled ==> pc == Failing && budget == old(budget)
    {
      scheduled := budget.used < env.maximumRetries;
      if scheduled { pc, budget := RetryWait, budget.(used := budget.used + 1); }
      else { pc := Failing; }
    }

    method FinishRunning()
      modifies this
      ensures View() == Finish(old(View()))
    {
      pc, stopRequest, cancelled := Inactive, None, false;
    }

    /** A critical checkpoint of the record held here. */
    method Checkpoint(env: Env, written: bool) returns (ok: bool)
      modifies this
      ensures (View(), ok) == Persist(env, old(View()), old(metadata), written)
    {
      if ValidateTask(env, metadata).Some? { return false; }
      if durable.revision >= metadata.revision { return durable.revision == metadata.revision; }
      if written { durable := metadata; }
      return written;
    }

    method Pause() returns (accepted: bool)
      modifies this
      ensures accepted <==> Askable(old(View()), RequestPause)
      ensures accepted <==> old(pc) != Inactive && old(metadata).state == Downloading && old(stopRequest).None?
      ensures View() == if accepted then old(View()).(stop := Some(Stop.Pause), cancelled := true) else old(View())
    {
      if pc == Inactive || metadata.state != Downloading || stopRequest.Some? { return false; }
      stopRequest, cancelled := Some(Stop.Pause), true;
      return true;
    }

    method Cancel(env: Env, deletePartial: bool, now: nat, written: bool, removed: bool, forgotten: bool)
      returns (accepted: bool)
      modifies this
      ensures old(pc) != Inactive ==>
        && (accepted <==> Askable(old(View()), RequestCancel(deletePartial)))
        && View() == if accepted then Asked(env, old(View()), RequestCancel(deletePartial)) else old(View())
      ensures old(pc) == Inactive && old(stopRequest).None? ==>
        (Askable(old(View()), CancelInactive(deletePartial, now, written, removed, forgotten)) ==>
           View() == Asked(env, old(View()), CancelInactive(deletePartial, now, written, removed, forgotten)))
        && (!Askable(old(View()), CancelInactive(deletePartial, now, written, removed, forgotten)) ==>
            !accepted && View() == old(View()))
    {
      if !Allows(metadata.state, Cancelled) || stopRequest.Some? { return false; }
      if pc != Inactive {
        stopRequest, cancelled := Some(Stop.Cancel(deletePartial)), true;
        return true;
      }
      accepted := TryMove(env, Cancelled, now, written);
      if accepted && deletePartial { DiscardPartial(env, now, removed, forgotten); }
    }

    method DiscardPartial(env: Env, now: nat, removed: bool, forgotten: bool)
      modifies this
      ensures View() == Discard(env, old(View()), now, removed, forgotten)
    {
      var t := RecordPartialDeletion(metadata, Latest(now, metadata));
      if !removed || t.Err? { return; }
      var retained := metadata;
      metadata := t.value;
      var ok := Checkpoint(env, forgotten);
      if !ok { metadata := retained; }
    }

    method Shutdown() returns (signalled: bool)
      modifies this
      ensures signalled <==> Askable(old(View()), RequestShutdown)
      ensures signalled <==> old(pc) != Inactive && old(metadata).state != Promoting && old(stopRequest).None?
      ensures View() == if signalled then old(View()).(stop := Some(Stop.Shutdown), cancelled := true) else old(View())
    {
      if pc == Inactive || stopRequest.Some? || metadata.state == Promoting { return false; }
      stopRequest, cancelled := Some(Stop.Shutdown), true;
      return true;
    }

    /** `transition_for_run`. */
    method EnterRunState(env: Env, next: TaskState, now: nat, written: bool) returns (moved: bool)
      modifies this
      ensures (match if old(cancelled) then None else Lifecycle.TryMove(env, old(View()), next, now, written)
        case Some(life) => moved && View() == life
        case None => !moved && View() == old(View()))
    {
      if cancelled { return false; }
      moved := TryMove(env, next, now, written);
    }

    method MarkStopFailed(env: Env, now: nat, written: bool)
      modifies this
      ensures View() == Lifecycle.MarkStopFailed(env, old(View()), now, written)
    {
      var failed := Transition(env, metadata, Failed, Latest(now, metadata));
      if failed.Ok? {
        metadata := failed.value;
        var ignored := Checkpoint(env, written);
      }
      FinishRunning();
    }

    /** A transition with its critical checkpoint; on refusal or failure the
        previous record is restored. */
    method TryMove(env: Env, next: TaskState, now: nat, written: bool) returns (moved: bool)
      modifies this
      ensures (match Lifecycle.TryMove(env, old(View()), next, now, written)
        case Some(life) => moved && View() == life
        case None => !moved && View() == old(View()))
    {
      var before := metadata;
      ghost var life := View();
      var t := Transition(env, metadata, next, Latest(now, metadata));
      if t.Err? { return false; }
      metadata := t.value;
      PersistReplaces(env, life, t.value, written);
      moved := Checkpoint(env, written);
      if !moved { metadata := before; }
    }

    method MoveToStop(env: Env, request: Stop, next: TaskState, now: nat, written: bool, fallback: bool,
                      removed: bool, forgotten: bool)
      modifies this
      ensures View() == Lifecycle.MoveToStop(env, old(View()), request, next, now, written, fallback, removed,
        forgotten)
    {
      var moved := TryMove(env, next, now, written);
      if !moved {
        MarkStopFailed(env, now, fallback);
        return;
      }
      if request == Stop.Cancel(true) { DiscardPartial(env, now, removed, forgotten); }
      FinishRunning();
    }

    method ApplyStop(env: Env, now: nat, written: bool, fallback: bool, removed: bool, forgotten: bool)
      modifies this
      ensures View() == ApplyStopTo(env, old(View()), now, written, fallback, removed, forgotten)
    {
      var request := if stopRequest.Some? then stopRequest.value
        else if metadata.state == Downloading then Stop.Pause else Stop.Cancel(false);
      var target := StopTarget(request, metadata.state);
      if target.Some? { MoveToStop(env, request, target.value, now, written, fallback, removed, forgotten); }
      else { FinishRunning(); }
    }

    method Fail(env: Env, now: nat, written: bool, discard: bool, removed: bool, forgotten: bool)
      modifies this
      ensures View() == FailRun(env, old(View()), now, written, discard, removed, forgotten)
    {
      var failed := Transition(env, metadata, Failed, Latest(now, metadata));
      if failed.Ok? {
        metadata := failed.value;
        var ignored := Checkpoint(env, written);
      }
      if discard && metadata.state == Failed { DiscardPartial(env, now, removed, forgotten); }
      FinishRunning();
    }
  }
}
