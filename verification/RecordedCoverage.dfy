/** A task record together with the storage object behind its partial. Captures
    take their coverage from the object itself, so that a validating record keeps
    its exact coverage is proved here, where `refresh_completed` only trusts it. */
module RecordedCoverage {
  import opened Ranges
  import opened TaskRecord
  import opened Records
  import Network
  import RecordOutcomes
  import Storage
  import Timestamps

  datatype Held = Held(record: Task, store: Storage.Store)

  datatype Event =
    | Operate(op: Storage.StoreOp)
    | Change(mutation: Mutation, at: nat)
    | Adopt(created: PartialInfo, adoptedAt: nat)
    | Capture(path: Path, flushed: bool, capturedAt: nat)
    | Reopen(onDisk: seq<Storage.Byte>)

  /** The partial as `refresh_completed` sees it. */
  function Seen(h: Held, path: Path): PartialInfo {
    PartialInfo(path, h.record.destination, h.record.displayName, h.store.expectedLen)
  }

  /** The checks before the flush pass. */
  predicate Refreshable(h: Held, path: Path, now: nat) {
    RefreshCompleted(h.record, Seen(h, path), Err(Storage.Io), now) == Err(StorageFailed)
  }

  predicate Enabled(env: Env, h: Held, ev: Event) {
    match ev
    case Operate(op) => op.OpStreamWrite? ==> op.limit <= MAX_SAFE_INTEGER
    case Change(m, at) =>
      !m.Refresh? && !m.Attach? && (m.SetResource? ==> NewResource(env, m.resource) == Ok(m.resource))
    case Adopt(p, _) => env.sanitize(p.finalName) == p.finalName
    case Reopen(onDisk) =>
      h.record.partialPath.Some? && (ExpectedSize(h.record).Some? ==> ExpectedSize(h.record).value == |onDisk|)
    case Capture(_, _, _) => true
  }

  ghost function Apply(env: Env, h: Held, ev: Event, hash: Storage.Hash): Held
    requires Storage.Inv(h.store)
  {
    match ev
    case Operate(op) => h.(store := Storage.Apply(h.store, op, h.record.expectedSha256, hash))
    case Change(m, at) => (match Mutate(env, h.record, m, at) case Ok(t) => h.(record := t) case Err(_) => h)
    case Adopt(p, at) =>
      (match AttachPartial(env, h.record, p, at) case Ok(t) => Held(t, Storage.Created(p.len)) case Err(_) => h)
    case Capture(path, flushed, at) =>
      if !Refreshable(h, path, at) then h else
      var (store, ranges) := Storage.DurableCompletedRanges(h.store, flushed);
      (match RefreshCompleted(h.record, Seen(h, path), ranges, at)
       case Ok(t) => Held(t, store)
       case Err(_) => h.(store := store))
    case Reopen(onDisk) =>
      h.(store := Storage.Created(ExpectedSize(h.record)).(completed := h.record.ranges, data := onDisk))
  }

  // ---------- The invariant ----------

  /** The object covers at least what the record claims, over the length it knows. */
  ghost predicate Vouched(t: Task, s: Storage.Store) {
    t.partialPath.Some? ==>
      && Grown(t.ranges, s.completed)
      && (ExpectedSize(t) == s.expectedLen
          || (ExpectedSize(t).None? && t.resource.Some? && t.resource.value.mode == Single))
  }

  predicate Bounded(s: Storage.Store) {
    && (s.expectedLen.Some? ==> s.expectedLen.value <= MAX_SAFE_INTEGER)
    && (s.streamActive ==> |s.data| <= MAX_SAFE_INTEGER)
  }

  ghost predicate Inv(env: Env, h: Held) {
    Sound(env, h.record) && Storage.Inv(h.store) && Bounded(h.store) && Vouched(h.record, h.store)
  }

  lemma OperateKeeps(env: Env, h: Held, op: Storage.StoreOp, hash: Storage.Hash)
    requires Inv(env, h) && Enabled(env, h, Operate(op))
    ensures Inv(env, Apply(env, h, Operate(op), hash))
  {
    Storage.ApplyKeepsInv(h.store, op, h.record.expectedSha256, hash);
    Storage.CoverageOnlyGrows(h.store, op, h.record.expectedSha256, hash);
    OperateBounded(h.store, op, h.record.expectedSha256, hash);
  }

  lemma OperateBounded(s: Storage.Store, op: Storage.StoreOp, digest: Option<Storage.Digest>, hash: Storage.Hash)
    requires Storage.Inv(s) && Bounded(s) && (op.OpStreamWrite? ==> op.limit <= MAX_SAFE_INTEGER)
    ensures Bounded(Storage.Apply(s, op, digest, hash))
  { }

  lemma ChangeKeeps(env: Env, h: Held, m: Mutation, now: nat, hash: Storage.Hash)
    requires Inv(env, h) && Enabled(env, h, Change(m, now))
    ensures Inv(env, Apply(env, h, Change(m, now), hash))
  {
    if Mutate(env, h.record, m, now).Ok? { MutateKeepsSound(env, h.record, m, now); }
  }

  lemma AdoptKeeps(env: Env, h: Held, p: PartialInfo, now: nat, hash: Storage.Hash)
    requires Inv(env, h) && Enabled(env, h, Adopt(p, now))
    ensures Inv(env, Apply(env, h, Adopt(p, now), hash))
  {
    if AttachPartial(env, h.record, p, now).Ok? { AttachKeepsSound(env, h.record, p, now); }
  }

  /** A capture of the object behind the record is never short. */
  lemma CaptureIsExact(env: Env, h: Held, path: Path, now: nat)
    requires Inv(env, h) && Refreshable(h, path, now) && h.record.state == Validating
    ensures h.store.expectedLen == ExpectedSize(h.record) && h.store.completed == h.record.ranges
    ensures CapturesWhole(Seen(h, path), Ok(h.store.completed))
  {
    GrownStaysExact(h.record.ranges, h.store.completed, ExpectedSize(h.record).value);
  }

  lemma CaptureKeeps(env: Env, h: Held, path: Path, flushed: bool, now: nat, hash: Storage.Hash)
    requires Inv(env, h)
    ensures Inv(env, Apply(env, h, Capture(path, flushed, now), hash))
  {
    if Refreshable(h, path, now) {
      var (store, ranges) := Storage.DurableCompletedRanges(h.store, flushed);
      if RefreshCompleted(h.record, Seen(h, path), ranges, now).Ok? {
        if h.record.state == Validating { CaptureIsExact(env, h, path, now); }
        RefreshOutcome(env, h.record, Seen(h, path), ranges, now);
      }
    }
  }

  lemma EventKeepsInv(env: Env, h: Held, ev: Event, hash: Storage.Hash)
    requires Inv(env, h) && Enabled(env, h, ev)
    ensures Inv(env, Apply(env, h, ev, hash))
  {
    match ev
    case Operate(op) => OperateKeeps(env, h, op, hash);
    case Change(m, at) => ChangeKeeps(env, h, m, at, hash);
    case Adopt(p, at) => AdoptKeeps(env, h, p, at, hash);
    case Capture(path, flushed, at) => CaptureKeeps(env, h, path, flushed, at, hash);
    case Reopen(onDisk) =>
  }

  // ---------- Every run ----------

  ghost predicate ValidRun(env: Env, h: Held, evs: seq<Event>, hash: Storage.Hash)
    requires Inv(env, h)
    decreases |evs|
  {
    evs == [] ||
    (Enabled(env, h, evs[0]) &&
     (EventKeepsInv(env, h, evs[0], hash); ValidRun(env, Apply(env, h, evs[0], hash), evs[1..], hash)))
  }

  ghost function Run(env: Env, h: Held, evs: seq<Event>, hash: Storage.Hash): Held
    requires Inv(env, h) && ValidRun(env, h, evs, hash)
    decreases |evs|
  {
    if evs == [] then h else EventKeepsInv(env, h, evs[0], hash); Run(env, Apply(env, h, evs[0], hash), evs[1..], hash)
  }

  predicate TypedTime(ev: Event) {
    match ev
    case Change(_, at) => at <= Timestamps.MAX_TIMESTAMP_MILLIS
    case Adopt(_, at) => at <= Timestamps.MAX_TIMESTAMP_MILLIS
    case Capture(_, _, at) => at <= Timestamps.MAX_TIMESTAMP_MILLIS
    case _ => true
  }

  lemma EventKeepsTyped(env: Env, isId: string -> bool, h: Held, ev: Event, hash: Storage.Hash)
    requires Inv(env, h) && Enabled(env, h, ev) && Typed(isId, h.record) && TypedTime(ev)
    ensures Typed(isId, Apply(env, h, ev, hash).record)
  {
    match ev
    case Change(m, at) => if Mutate(env, h.record, m, at).Ok? { MutateKeepsTyped(env, isId, h.record, Step(m, at)); }
    case Adopt(p, at) =>
      if AttachPartial(env, h.record, p, at).Ok? { MutateKeepsTyped(env, isId, h.record, Step(Attach(p), at)); }
    case Capture(path, flushed, at) => CaptureKeepsTyped(env, isId, h, path, flushed, at, hash);
    case Operate(_) =>
    case Reopen(_) =>
  }

  lemma CaptureKeepsTyped(env: Env, isId: string -> bool, h: Held, path: Path, flushed: bool, now: nat,
                          hash: Storage.Hash)
    requires Inv(env, h) && Typed(isId, h.record) && now <= Timestamps.MAX_TIMESTAMP_MILLIS
    ensures Typed(isId, Apply(env, h, Capture(path, flushed, now), hash).record)
  {
    var ranges := Storage.DurableCompletedRanges(h.store, flushed).1;
    assert TypedRanges(h.store.completed);
    if RefreshCompleted(h.record, Seen(h, path), ranges, now).Ok? {
      MutateKeepsTyped(env, isId, h.record, Step(Refresh(Seen(h, path), ranges), now));
    }
  }

  /** However storage operations, captures and mutators interleave, the record
      stays sound, its partial covers what it claims, and it reads back as itself. */
  lemma {:induction false} RecordStaysSound(env: Env, isId: string -> bool, h: Held, evs: seq<Event>,
                                            hash: Storage.Hash)
    requires Inv(env, h) && ValidRun(env, h, evs, hash) && Typed(isId, h.record)
    requires forall i :: 0 <= i < |evs| ==> TypedTime(evs[i])
    ensures var end := Run(env, h, evs, hash);
      Inv(env, end) && Read(env, isId, Printed(end.record)) == Ok(end.record)
    decreases |evs|
  {
    if evs == [] {
      RecordRoundTrip(env, isId, h.record);
    } else {
      EventKeepsInv(env, h, evs[0], hash);
      EventKeepsTyped(env, isId, h, evs[0], hash);
      RecordStaysSound(env, isId, Apply(env, h, evs[0], hash), evs[1..], hash);
    }
  }

  /** From the creation of a task on. */
  lemma NewRecordsStaySound(env: Env, isId: string -> bool, id: TaskId, url: string, needsSession: bool,
                            digest: Option<seq<Storage.Byte>>, dir: Path, name: string, workers: nat, now: nat,
                            evs: seq<Event>, hash: Storage.Hash)
    requires Idempotent(env) && Sanitizes(env)
    requires NewTask(env, id, url, needsSession, digest, dir, name, workers, now).Ok?
    requires isId(id) && now <= Timestamps.MAX_TIMESTAMP_MILLIS && (digest.Some? ==> |digest.value| == DIGEST_BYTES)
    requires forall i :: 0 <= i < |evs| ==> TypedTime(evs[i])
    ensures var h := Held(NewTask(env, id, url, needsSession, digest, dir, name, workers, now).value,
      Storage.Created(None));
      && Inv(env, h)
      && (ValidRun(env, h, evs, hash) ==>
            var end := Run(env, h, evs, hash).record;
            ValidateTask(env, end).None? && Read(env, isId, Printed(end)) == Ok(end))
  {
    var t := NewTask(env, id, url, needsSession, digest, dir, name, workers, now).value;
    NewTaskIsSound(env, id, url, needsSession, digest, dir, name, workers, now);
    if ValidRun(env, Held(t, Storage.Created(None)), evs, hash) {
      RecordStaysSound(env, isId, Held(t, Storage.Created(None)), evs, hash);
    }
  }

  /** A flushed capture during a transfer takes over exactly the object's coverage and
      length, with nothing left that a crash could lose; one that is not flushed
      changes nothing. The only limits are the number of pieces, a spent revision and
      a clock that went back. */
  lemma CapturesAreTaken(env: Env, h: Held, flushed: bool, now: nat, hash: Storage.Hash)
    requires Inv(env, h) && h.record.state in {Downloading, Paused} && h.store.lifecycle == Storage.Active
    requires |h.store.completed| <= 8192 && h.record.updatedAt <= now && h.record.revision + 1 < Network.U64_LIMIT
    ensures var after := Apply(env, h, Capture(h.record.partialPath.value, flushed, now), hash);
      if flushed then
        && after.record.ranges == h.store.completed && ExpectedSize(after.record) == h.store.expectedLen
        && after.store == h.store.(unsynced := []) && after.record.state == h.record.state
      else after == h
  {
    var path := h.record.partialPath.value;
    RecordOutcomes.RefreshExactly(env, h.record, Seen(h, path), Ok(h.store.completed), now);
    if h.store.expectedLen.Some? { RecordOutcomes.WithinExactly(h.store.completed, h.store.expectedLen.value); }
    assert Refreshable(h, path, now);
  }
}
