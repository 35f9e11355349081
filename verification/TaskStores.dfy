/** The record object that mutators change in place, and the store that keeps
    one durable file per task. */
module TaskStores {
  import opened Ranges
  import opened TaskRecord
  import Storage
  import Network

  class TaskMetadata {
    const origin: Task
    var revision: nat
    var state: TaskState
    var resource: Option<Resource>
    var displayName: string
    var partialPath: Option<Path>
    var finalPath: Option<Path>
    var ranges: seq<FileRange>
    var updatedAt: nat

    /** `origin` supplies the fields no mutator touches. */
    function View(): Task reads this {
      origin.(revision := revision, state := state, resource := resource, displayName := displayName,
        partialPath := partialPath, finalPath := finalPath, ranges := ranges, updatedAt := updatedAt)
    }

    constructor (record: Task)
      ensures View() == record
    {
      origin := record;
      revision, state, resource, displayName := record.revision, record.state, record.resource, record.displayName;
      partialPath, finalPath, ranges := record.partialPath, record.finalPath, record.ranges;
      updatedAt := record.updatedAt;
    }

    method BumpRevision(now: nat) returns (error: Option<StateError>)
      modifies this
      ensures (match Bump(old(View()), now)
        case Ok(after) => View() == after && error.None?
        case Err(e) => View() == old(View()) && error == Some(e))
    {
      if now < updatedAt { return Some(InvalidTimestamp); }
      if revision + 1 >= Network.U64_LIMIT { return Some(InvalidRevision); }
      revision, updatedAt := revision + 1, now;
      return None;
    }

    method TransitionTo(env: Env, next: TaskState, now: nat) returns (error: Option<StateError>)
      modifies this
      ensures (match Transition(env, old(View()), next, now)
        case Ok(after) => View() == after && error.None?
        case Err(e) => View() == old(View()) && error == Some(e))
    {
      if !Allows(state, next) { return Some(InvalidTransition); }
      var previousState, previousRevision, previousUpdatedAt := state, revision, updatedAt;
      error := BumpRevision(now);
      if error.Some? { return; }
      state := next;
      error := ValidateTask(env, View());
      if error.Some? {
        state, revision, updatedAt := previousState, previousRevision, previousUpdatedAt;
      }
    }

    method StoreResource(accepted: Resource, now: nat) returns (error: Option<StateError>)
      modifies this
      ensures (match ApplyResource(old(View()), accepted, now)
        case Ok(after) => View() == after && error.None?
        case Err(e) => View() == old(View()) && error == Some(e))
    {
      if state != Probing { return Some(InconsistentState); }
      if partialPath.Some? && resource.Some? && resource.value != accepted { return Some(InvalidResource); }
      error := BumpRevision(now);
      if error.None? { resource := Some(accepted); }
    }

    method Associate(env: Env, partial: PartialInfo, now: nat) returns (error: Option<StateError>)
      modifies this
      ensures (match AttachPartial(env, old(View()), partial, now)
        case Ok(after) => View() == after && error.None?
        case Err(e) => View() == old(View()) && error == Some(e))
    {
      if resource.None? { return Some(InconsistentState); }
      if state != Probing || partialPath.Some? || resource.value.expectedSize != partial.len
        || partial.parent != origin.destination || !env.confinedPartial(partial.path, origin.destination)
      {
        return Some(InvalidPartialPath);
      }
      error := BumpRevision(now);
      if error.None? { displayName, partialPath := partial.finalName, Some(partial.path); }
    }

    method RefreshCoverage(partial: PartialInfo, durable: Result<seq<FileRange>, Storage.StorageError>, now: nat)
      returns (error: Option<StateError>)
      modifies this
      ensures (match RefreshCompleted(old(View()), partial, durable, now)
        case Ok(after) => View() == after && error.None?
        case Err(e) => View() == old(View()) && error == Some(e))
    {
      if state !in {Downloading, Paused, Validating} || partialPath != Some(partial.path) {
        return Some(InconsistentState);
      }
      if resource.None? { return Some(InvalidResource); }
      var known := resource.value;
      if !(known.expectedSize == partial.len || (known.expectedSize.None? && known.mode == Single)) {
        return Some(InvalidResource);
      }
      if known.expectedSize.None? && partial.len.None? && known.mode != Single { return Some(InvalidResource); }
      if durable.Err? { return Some(StorageFailed); }
      if !ValidRanges(durable.value, partial.len) { return Some(InvalidCompletedRanges); }
      if durable.value == ranges && known.expectedSize == partial.len { return None; }
      error := BumpRevision(now);
      if error.None? { resource, ranges := Some(known.(expectedSize := partial.len)), durable.value; }
    }

    method ForgetDeletedPartial(now: nat) returns (error: Option<StateError>)
      modifies this
      ensures (match RecordPartialDeletion(old(View()), now)
        case Ok(after) => View() == after && error.None?
        case Err(e) => View() == old(View()) && error == Some(e))
    {
      if state !in {Cancelled, Failed} || finalPath.Some? || partialPath.None? { return Some(InconsistentState); }
      error := BumpRevision(now);
      if error.None? { partialPath, ranges := None, []; }
    }

    method NotePromotion(env: Env, published: Path, retained: Option<Path>, now: nat)
      returns (error: Option<StateError>)
      modifies this
      ensures (match RecordPromotion(env, old(View()), published, retained, now)
        case Ok(after) => View() == after && error.None?
        case Err(e) => View() == old(View()) && error == Some(e))
    {
      if state != Promoting { return Some(InconsistentState); }
      if !env.confinedFinal(published, origin.destination) { return Some(InvalidFinalPath); }
      if finalPath.Some? && finalPath.value != published { return Some(InconsistentState); }
      if retained.Some? && partialPath != retained { return Some(InvalidPartialPath); }
      error := BumpRevision(now);
      if error.Some? { return; }
      finalPath := Some(published);
      if retained.None? { partialPath := None; }
    }
  }

  // ---------- Checkpoints ----------

  datatype Urgency = Routine | Critical

  datatype Outcome = Written | Unchanged | Deferred

  datatype StoreError = InvalidTask(error: StateError) | StaleRevision | ExistingStateInvalid | WriteFailed

  datatype FileEntry = Readable(task: Task) | Unreadable

  datatype Saved = Saved(revision: nat, writtenAt: nat)

  /** `files` is durable; `saved` is the process's memory of what it wrote. */
  datatype StoreState = StoreState(files: map<TaskId, FileEntry>, saved: map<TaskId, Saved>)

  /** `written` is the outcome of serialization and of the atomic replacement. */
  function CheckpointTask(s: StoreState, env: Env, task: Task, urgency: Urgency, now: nat, interval: nat, written: bool)
    : (StoreState, Result<Outcome, StoreError>)
  {
    if ValidateTask(env, task).Some? then (s, Err(InvalidTask(ValidateTask(env, task).value)))
    else if task.id in s.saved && s.saved[task.id].revision > task.revision then (s, Err(StaleRevision))
    else if task.id in s.saved && s.saved[task.id].revision == task.revision then (s, Ok(Unchanged))
    else if task.id in s.saved && urgency == Routine && now < s.saved[task.id].writtenAt + interval then
      (s, Ok(Deferred))
    else if task.id !in s.saved && task.id in s.files && s.files[task.id].Unreadable? then
      (s, Err(ExistingStateInvalid))
    else if task.id !in s.saved && task.id in s.files && s.files[task.id].task.revision > task.revision then
      (s, Err(StaleRevision))
    else if task.id !in s.saved && task.id in s.files && s.files[task.id].task.revision == task.revision then
      (s.(saved := s.saved[task.id := Saved(task.revision, now)]), Ok(Unchanged))
    else if !written then (s, Err(WriteFailed))
    else
      (StoreState(s.files[task.id := Readable(task)], s.saved[task.id := Saved(task.revision, now)]), Ok(Written))
  }

  class TaskStore {
    var files: map<TaskId, FileEntry>
    var saved: map<TaskId, Saved>
    const interval: nat

    function View(): StoreState reads this { StoreState(files, saved) }

    method Checkpoint(env: Env, task: Task, urgency: Urgency, now: nat, written: bool)
      returns (outcome: Result<Outcome, StoreError>)
      modifies this
      ensures (View(), outcome) == CheckpointTask(old(View()), env, task, urgency, now, interval, written)
    {
      var invalid := ValidateTask(env, task);
      if invalid.Some? { return Err(InvalidTask(invalid.value)); }
      if task.id in saved {
        if saved[task.id].revision > task.revision { return Err(StaleRevision); }
        if saved[task.id].revision == task.revision { return Ok(Unchanged); }
        if urgency == Routine && now < saved[task.id].writtenAt + interval { return Ok(Deferred); }
      } else if task.id in files {
        if files[task.id].Unreadable? { return Err(ExistingStateInvalid); }
        if files[task.id].task.revision > task.revision { return Err(StaleRevision); }
        if files[task.id].task.revision == task.revision {
          saved := saved[task.id := Saved(task.revision, now)];
          return Ok(Unchanged);
        }
      }
      if !written { return Err(WriteFailed); }
      files := files[task.id := Readable(task)];
      saved := saved[task.id := Saved(task.revision, now)];
      return Ok(Written);
    }
  }

  /** The process never believes more than the disk holds. */
  predicate InStep(s: StoreState) {
    forall id :: id in s.saved ==>
      id in s.files && s.files[id].Readable? && s.files[id].task.revision == s.saved[id].revision
  }

  datatype StoreEvent =
    | Save(task: Task, urgency: Urgency, now: nat, written: bool)
    | Reopen(at: nat, readable: set<TaskId>)

  function ApplyStore(s: StoreState, env: Env, interval: nat, ev: StoreEvent): StoreState {
    match ev
    case Save(task, urgency, now, written) => CheckpointTask(s, env, task, urgency, now, interval, written).0
    case Reopen(at, readable) =>
      s.(saved := map id | id in s.files && id in readable
        && s.files[id].Readable? :: Saved(s.files[id].task.revision, at))
  }

  function RunStore(s: StoreState, env: Env, interval: nat, evs: seq<StoreEvent>): StoreState
    decreases |evs|
  {
    if evs == [] then s else RunStore(ApplyStore(s, env, interval, evs[0]), env, interval, evs[1..])
  }

  /** Revision of the durable record; an unreadable file has none. */
  function DurableRevision(s: StoreState, id: TaskId): int {
    if id in s.files && s.files[id].Readable? then s.files[id].task.revision else -1
  }

  /** Every readable record is valid. */
  predicate AllValid(s: StoreState, env: Env) {
    forall k :: k in s.files && s.files[k].Readable? ==> ValidateTask(env, s.files[k].task).None?
  }

  /** The durable record of `id` is kept or replaced by a newer one. */
  predicate Grows(s: StoreState, after: StoreState, id: TaskId) {
    && DurableRevision(s, id) <= DurableRevision(after, id)
    && (id in s.files && s.files[id].Unreadable? ==> id in after.files && after.files[id].Unreadable?)
    && (DurableRevision(s, id) == DurableRevision(after, id) && DurableRevision(s, id) != -1 ==>
        after.files[id] == s.files[id])
  }

  lemma SaveGrows(s: StoreState, env: Env, interval: nat, ev: StoreEvent, id: TaskId)
    requires InStep(s) && AllValid(s, env) && ev.Save?
    ensures var after := ApplyStore(s, env, interval, ev); InStep(after) && AllValid(after, env) && Grows(s, after, id)
  { }

  lemma ReopenGrows(s: StoreState, env: Env, interval: nat, ev: StoreEvent, id: TaskId)
    requires InStep(s) && AllValid(s, env) && ev.Reopen?
    ensures var after := ApplyStore(s, env, interval, ev); InStep(after) && AllValid(after, env) && Grows(s, after, id)
  { }

  /** Across saves, refused saves, failed writes and restarts, no durable revision
      ever goes down, an unreadable record is never replaced, and every readable
      record is the valid one that was written. */
  lemma {:induction false} DurableRevisionsOnlyGrow(s: StoreState, env: Env, interval: nat, evs: seq<StoreEvent>,
                                                    id: TaskId)
    requires InStep(s) && AllValid(s, env)
    ensures var after := RunStore(s, env, interval, evs);
      && InStep(after) && AllValid(after, env)
      && DurableRevision(s, id) <= DurableRevision(after, id)
      && (id in s.files && s.files[id].Unreadable? ==> id in after.files && after.files[id].Unreadable?)
      && (DurableRevision(s, id) == DurableRevision(after, id) && DurableRevision(s, id) != -1 ==>
          after.files[id] == s.files[id])
    decreases |evs|
  {
    if evs != [] {
      if evs[0].Save? { SaveGrows(s, env, interval, evs[0], id); } else { ReopenGrows(s, env, interval, evs[0], id); }
      DurableRevisionsOnlyGrow(ApplyStore(s, env, interval, evs[0]), env, interval, evs[1..], id);
    }
  }

  /** A checkpoint compares the record with the durable revision and nothing else:
      an unreadable file is never touched, an older record is refused, the same one
      is left, and a newer one is written unless it may wait. Only a successful
      write changes a file, and then only this task's. */
  lemma CheckpointExactly(s: StoreState, env: Env, task: Task, urgency: Urgency, now: nat, interval: nat,
                          written: bool)
    requires InStep(s)
    ensures var (after, outcome) := CheckpointTask(s, env, task, urgency, now, interval, written);
      var id, invalid := task.id, ValidateTask(env, task);
      var waits := urgency == Routine && id in s.saved && now < s.saved[id].writtenAt + interval;
      && outcome == (
           if invalid.Some? then Err(InvalidTask(invalid.value))
           else if id in s.files && s.files[id].Unreadable? then Err(ExistingStateInvalid)
           else if task.revision < DurableRevision(s, id) then Err(StaleRevision)
           else if task.revision == DurableRevision(s, id) then Ok(Unchanged)
           else if waits then Ok(Deferred)
           else if written then Ok(Written) else Err(WriteFailed))
      && after.files == (if outcome == Ok(Written) then s.files[id := Readable(task)] else s.files)
      && after.saved == (
           if outcome == Ok(Written) || (outcome == Ok(Unchanged) && id !in s.saved)
           then s.saved[id := Saved(task.revision, now)] else s.saved)
  { }

  /** A critical checkpoint that reports success leaves exactly this revision
      durable, and one that fails leaves the previous record authoritative. */
  lemma CriticalCheckpointOutcome(s: StoreState, env: Env, task: Task, now: nat, interval: nat, written: bool)
    requires InStep(s)
    ensures var (after, outcome) := CheckpointTask(s, env, task, Critical, now, interval, written);
      && (outcome.Ok? ==> DurableRevision(after, task.id) == task.revision)
      && (outcome == Ok(Written) ==> after.files[task.id] == Readable(task))
      && (outcome.Err? || outcome == Ok(Unchanged) ==> after.files == s.files)
      && (outcome == Ok(Written) <==>
            (written && ValidateTask(env, task).None? && DurableRevision(s, task.id) < task.revision
             && (task.id in s.files ==> s.files[task.id].Readable?)))
  { }
}
