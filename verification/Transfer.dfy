/** One segmented transfer as an interleaving of worker steps. Every step is one
    mutex-guarded section of the coordinator or of the partial file; the events
    carry everything the network, the disk, the clock and the scheduler decide. */
module Transfer {
  import opened Ranges
  import opened Storage
  import opened Coordinator
  import opened Network

  /** What the accepted probe fixed before the workers started. */
  datatype Accepts = Accepts(total: nat, validators: Validators, isDate: string -> bool, server: Server)

  datatype Worker =
    | Idle
    | Fetching(work: Work)
    | Claimed(work: Work, body: seq<Byte>)
    | Reserved(work: Work, body: seq<Byte>, writer: nat)
    | Filled(work: Work, writer: nat)
    | Abandoning(work: Work, writer: nat)
    | Stored(work: Work)
    | StoreFailed(work: Work)
    | Done
    | Failed

  /** `lost` and `hedges` only record history: the chunks given up by failing
      workers and the number of duplicate requests started. */
  datatype State = State(
    coord: CoordState,
    cancelled: bool,
    workers: seq<Worker>,
    store: Store,
    lost: seq<FileRange>,
    hedges: nat)

  datatype Event =
    | NextStep(i: nat, now: nat)
    | SupersededStep(i: nat)
    | BodyStep(i: nat, response: Response)
    | FetchErrorStep(i: nat)
    | ReserveStep(i: nat)
    | WriteStep(i: nat, io: WriteIo)
    | FinishStep(i: nat)
    | DropStep(i: nat)
    | CommitStep(i: nat)
    | CancelStep
    | AbortStep

  predicate HasWork(w: Worker) { !w.Idle? && !w.Done? && !w.Failed? }

  predicate Fetches(w: Worker, id: nat) { w.Fetching? && w.work.id == id }

  predicate CommitStage(w: Worker) { HasWork(w) && !w.Fetching? }

  predicate Commits(w: Worker, id: nat) { CommitStage(w) && w.work.id == id }

  predicate Writing(w: Worker) { w.Reserved? || w.Filled? || w.Abandoning? }

  predicate WritesAs(w: Worker, writer: nat) { Writing(w) && w.writer == writer }

  predicate StoredAs(w: Worker, id: nat) { w.Stored? && w.work.id == id }

  ghost predicate Enabled(t: State, ev: Event, plan: Plan, acc: Accepts) {
    match ev
    case CancelStep => true
    case AbortStep => exists i :: 0 <= i < |t.workers| && t.workers[i].Failed?
    case _ =>
      && ev.i < |t.workers|
      && var w := t.workers[ev.i];
      match ev
      case NextStep(_, _) => w.Idle?
      case SupersededStep(_) => w.Fetching? && ShouldCancel(t.coord, t.cancelled, w.work.id)
      case BodyStep(_, response) =>
        && w.Fetching? && Honest(acc.server, response)
        && Accepted(response, w.work.range, acc.total, acc.validators, acc.isDate)
      case FetchErrorStep(_) => w.Fetching?
      case ReserveStep(_) => w.Claimed?
      case WriteStep(_, _) => w.Reserved?
      case FinishStep(_) => w.Filled?
      case DropStep(_) => w.Abandoning?
      case CommitStep(_) => w.Stored? || w.StoreFailed?
      case _ => false
  }

  function SetWorker(t: State, i: nat, w: Worker): State
    requires i < |t.workers|
  {
    t.(workers := t.workers[i := w])
  }

  ghost function Apply(t: State, ev: Event, plan: Plan, acc: Accepts): State
    requires plan.chunkSize > 0 && Storage.Inv(t.store) && Enabled(t, ev, plan, acc)
  {
    match ev
    case NextStep(i, now) => ApplyNext(t, i, now, plan)
    case SupersededStep(i) =>
      SetWorker(t, i, Idle).(coord := FinishSuperseded(t.coord, t.workers[i].work.id))
    case BodyStep(i, response) =>
      var (coord, won) := ClaimCommit(t.coord, t.cancelled, t.workers[i].work.id);
      SetWorker(t, i, if won then Claimed(t.workers[i].work, response.body) else Idle).(coord := coord)
    case FetchErrorStep(i) =>
      var (coord, fatal) := FinishFailedAttempt(t.coord, t.workers[i].work.id);
      SetWorker(t, i, if fatal then Failed else Idle)
        .(coord := coord, lost := if fatal then t.lost + [t.workers[i].work.range] else t.lost)
    case ReserveStep(i) =>
      (match Assign(t.store, t.workers[i].work.range)
       case Ok(r) => SetWorker(t, i, Reserved(t.workers[i].work, t.workers[i].body, r.1)).(store := r.0)
       case Err(_) => SetWorker(t, i, StoreFailed(t.workers[i].work)))
    case WriteStep(i, io) =>
      var w := t.workers[i];
      var (store, result) := SegmentWrite(t.store, w.writer, w.body, io);
      SetWorker(t, i, if result.Ok? then Filled(w.work, w.writer) else Abandoning(w.work, w.writer)).(store := store)
    case FinishStep(i) =>
      var w := t.workers[i];
      (match SegmentFinish(t.store, w.writer)
       case Ok(store) => SetWorker(t, i, Stored(w.work)).(store := store)
       case Err(_) => SetWorker(t, i, Abandoning(w.work, w.writer)))
    case DropStep(i) =>
      SetWorker(t, i, StoreFailed(t.workers[i].work)).(store := SegmentDrop(t.store, t.workers[i].writer))
    case CommitStep(i) =>
      var w := t.workers[i];
      SetWorker(t, i, if w.Stored? then Idle else Failed)
        .(coord := FinishCommit(t.coord, w.work.id, w.Stored?),
          lost := if w.Stored? then t.lost else t.lost + [w.work.range])
    case CancelStep => t.(cancelled := true)
    case AbortStep => t.(coord := Abort(t.coord))
  }

  function ApplyNext(t: State, i: nat, now: nat, plan: Plan): State
    requires plan.chunkSize > 0 && i < |t.workers|
  {
    var (coord, outcome) := NextWork(t.coord, plan, t.cancelled, now);
    match outcome
    case Stop => SetWorker(t, i, Done).(coord := coord)
    case Wait(_) => t
    case Take(work) =>
      SetWorker(t, i, Fetching(work)).(coord := coord, hedges := t.hedges + if work.hedged then 1 else 0)
  }

  // ---------- The invariant ----------

  predicate Stopping(t: State) { t.coord.aborted || t.cancelled }

  ghost predicate Ids(t: State) {
    var m := t.coord.inFlight;
    && (forall id :: id in m ==> id < t.coord.nextId)
    && (forall i :: 0 <= i < |t.workers| && HasWork(t.workers[i]) ==>
         t.workers[i].work.id < t.coord.nextId
         && (t.workers[i].work.id in m ==> m[t.workers[i].work.id].range == t.workers[i].work.range))
    && (forall i :: 0 <= i < |t.workers| && CommitStage(t.workers[i]) ==>
         t.workers[i].work.id in m && m[t.workers[i].work.id].phase == Committing)
    && (forall i, j :: 0 <= i < j < |t.workers| && CommitStage(t.workers[i]) && CommitStage(t.workers[j]) ==>
         t.workers[i].work.id != t.workers[j].work.id)
    && (forall id :: id in m && m[id].phase == Committing ==>
        exists i :: 0 <= i < |t.workers| && Commits(t.workers[i], id))
  }

  ghost function Fetchers(ws: seq<Worker>, id: nat): set<nat> {
    set i | 0 <= i < |ws| && Fetches(ws[i], id)
  }

  /** `active_attempts` counts the workers fetching a chunk: exactly while the
      transfer runs, and never too few once it is stopping. */
  ghost predicate Attempts(t: State) {
    forall id :: id in t.coord.inFlight ==>
      var chunk := t.coord.inFlight[id];
      && |Fetchers(t.workers, id)| <= chunk.activeAttempts
      && (!Stopping(t) ==> |Fetchers(t.workers, id)| == chunk.activeAttempts)
      && (!Stopping(t) && chunk.phase == InFlight ==> chunk.activeAttempts >= 1)
  }

  ghost predicate Chunked(c: CoordState, x: nat, id: nat) {
    id in c.inFlight && In(x, c.inFlight[id].range)
  }

  ghost predicate StoredChunk(ws: seq<Worker>, id: nat) {
    exists i :: 0 <= i < |ws| && StoredAs(ws[i], id)
  }

  /** Every byte belongs to completed coverage, a pending gap, one chunk in
      flight, or a chunk a failed worker gave up; only a chunk between its
      storage commit and its release is both in flight and completed. */
  ghost predicate Regions(t: State, total: nat) {
    var c := t.coord;
    && Ordered(c.pending)
    && (forall x: nat :: Covers(c.pending, x) ==> x < total && !Covers(t.store.completed, x) && !Covers(t.lost, x))
    && (forall x: nat :: Covers(t.store.completed, x) ==> x < total && !Covers(t.lost, x))
    && (forall x: nat, id :: Chunked(c, x, id) ==> x < total && !Covers(c.pending, x) && !Covers(t.lost, x))
    && (forall x: nat, a, b :: Chunked(c, x, a) && Chunked(c, x, b) ==> a == b)
    && (forall x: nat, id :: Chunked(c, x, id) ==> (Covers(t.store.completed, x) <==> StoredChunk(t.workers, id)))
    && (forall x: nat :: x < total ==> Located(t, x))
  }

  ghost predicate Located(t: State, x: nat) {
    Covers(t.store.completed, x) || Covers(t.coord.pending, x) || Covers(t.lost, x)
    || exists id :: Chunked(t.coord, x, id)
  }

  predicate WriterOpen(w: Worker, active: map<nat, Assignment>) {
    Writing(w) ==>
      && w.writer in active && active[w.writer].range == w.work.range
      && (w.Reserved? ==> active[w.writer].nextOffset == w.work.range.start)
      && (w.Filled? ==> active[w.writer].nextOffset == w.work.range.end)
  }

  ghost predicate Ownership(t: State, total: nat) {
    && Storage.Inv(t.store) && t.store.lifecycle == Active && t.store.expectedLen == Some(total)
    && (forall i :: 0 <= i < |t.workers| ==> WriterOpen(t.workers[i], t.store.active))
    && (forall a :: a in t.store.active ==> exists i :: 0 <= i < |t.workers| && WritesAs(t.workers[i], a))
  }

  ghost predicate Correct(t: State, content: seq<Byte>) {
    && |t.store.data| == |content|
    && (forall x: nat :: x < |content| && Covers(t.store.completed, x) ==> t.store.data[x] == content[x])
    && (forall i :: 0 <= i < |t.workers| && (t.workers[i].Claimed? || t.workers[i].Reserved?) ==>
         t.workers[i].work.range.end <= |content|
         && t.workers[i].body == content[t.workers[i].work.range.start..t.workers[i].work.range.end])
    && (forall i :: 0 <= i < |t.workers| && t.workers[i].Filled? ==>
         t.workers[i].work.range.end <= |content|
         && forall x: nat :: In(x, t.workers[i].work.range) ==> t.store.data[x] == content[x])
  }

  ghost function Content(acc: Accepts): seq<Byte>
    requires HasStrongIdentity(acc.validators)
  {
    acc.server(acc.validators.etag.value)
  }

  ghost predicate Inv(t: State, acc: Accepts) {
    && HasStrongIdentity(acc.validators) && |Content(acc)| == acc.total
    && Ids(t) && Attempts(t) && Regions(t, acc.total) && Ownership(t, acc.total) && Correct(t, Content(acc))
  }
}
