/** The authoritative task record: lifecycle graph, validation, mutators, and
    the revisioned checkpoint store. Library checks (URL and path syntax,
    filename sanitizing, HTTP dates) and the configured number of retries are
    parameters gathered in `Env`. */
module TaskRecord {
  import opened Ranges
  import Storage
  import opened Network

  const MAX_SAFE_INTEGER: nat := 9_007_199_254_740_991
  const MAX_ETAG_BYTES: nat := 8 * 1024
  const MAX_DATE_BYTES: nat := 128

  type Path = string
  type TaskId = string

  datatype Env = Env(
    normalizeUrl: string -> Option<string>,
    validPath: Path -> bool,
    sanitize: string -> string,
    confinedPartial: (Path, Path) -> bool,
    confinedFinal: (Path, Path) -> bool,
    isDate: string -> bool,
    maximumRetries: nat)

  datatype TaskState = Queued | Probing | Downloading | Paused | Validating | Promoting | Completed | Failed | Cancelled

  datatype Mode = Pending | Single | Segmented

  datatype Resource = Resource(finalUrl: string, expectedSize: Option<nat>, validators: Validators, mode: Mode)

  datatype Task = Task(
    id: TaskId,
    revision: nat,
    state: TaskState,
    originalUrl: string,
    needsSession: bool,
    expectedSha256: Option<seq<Storage.Byte>>,
    resource: Option<Resource>,
    destination: Path,
    displayName: string,
    workers: nat,
    partialPath: Option<Path>,
    finalPath: Option<Path>,
    ranges: seq<FileRange>,
    createdAt: nat,
    updatedAt: nat)

  datatype StateError =
    | InvalidRevision | InvalidTimestamp | InvalidWorkerCount | InvalidUrl | InvalidDestination
    | InvalidFilename | InvalidResource | InvalidValidator | InvalidPartialPath | InvalidFinalPath
    | InvalidCompletedRanges | InconsistentState | InvalidTransition | InvalidChecksum | InvalidTaskId
    | StorageFailed

  predicate Allows(s: TaskState, next: TaskState) {
    || (s == Queued && next == Probing)
    || (s in {Probing, Paused} && next == Downloading)
    || (s == Downloading && next in {Paused, Validating})
    || (s == Validating && next == Promoting)
    || (s == Promoting && next in {Completed, Failed})
    || (s == Failed && next == Queued)
    || (s in {Queued, Probing, Downloading, Paused, Validating} && next in {Failed, Cancelled})
  }

  // ---------- Validation ----------

  predicate ValidValidators(env: Env, v: Validators) {
    && (v.etag.Some? ==>
         |FormatEtag(v.etag.value)| <= MAX_ETAG_BYTES && ParseEtag(FormatEtag(v.etag.value)).Some?)
    && (v.lastModified.Some? ==>
         && |v.lastModified.value| <= MAX_DATE_BYTES && env.isDate(v.lastModified.value)
         && !(exists i :: 0 <= i < |v.lastModified.value| && IsControl(v.lastModified.value[i])))
  }

  function NewResource(env: Env, r: Resource): Result<Resource, StateError> {
    var url := env.normalizeUrl(r.finalUrl);
    if url.None? then Err(InvalidUrl)
    else if !ValidValidators(env, r.validators) then Err(InvalidValidator)
    else if r.mode == Pending || (r.expectedSize.Some? && r.expectedSize.value > MAX_SAFE_INTEGER)
      || (r.mode == Segmented && (r.expectedSize.None? || r.expectedSize.value == 0))
    then Err(InvalidResource)
    else Ok(r.(finalUrl := url.value))
  }

  predicate CanonicalUrl(env: Env, url: string) { env.normalizeUrl(url) == Some(url) }

  /** Normalizing a normalized URL changes nothing, as the URL standard has it. */
  ghost predicate Idempotent(env: Env) {
    forall url :: env.normalizeUrl(url).Some? ==> CanonicalUrl(env, env.normalizeUrl(url).value)
  }

  /** Exactly the resources the constructor returns pass through it unchanged. */
  lemma BuiltIsCanonical(env: Env, raw: Resource, r: Resource)
    requires Idempotent(env)
    ensures NewResource(env, raw) == Ok(r) ==> NewResource(env, r) == Ok(r)
    ensures NewResource(env, r) == Ok(r) <==> NewResource(env, r).Ok? && CanonicalUrl(env, r.finalUrl)
  { }

  function ExpectedSize(t: Task): Option<nat> { if t.resource.Some? then t.resource.value.expectedSize else None }

  predicate ValidRanges(ranges: seq<FileRange>, size: Option<nat>) {
    |ranges| <= MAX_COMPLETED_RANGES && Canonical(ranges) && (size.Some? ==> Within(ranges, size.value))
  }

  function ValidateTask(env: Env, t: Task): Option<StateError> {
    if t.revision == 0 || t.updatedAt < t.createdAt then Some(InvalidRevision)
    else if t.workers !in {1, 2, 4, 8} then Some(InvalidWorkerCount)
    else if !CanonicalUrl(env, t.originalUrl) then Some(InvalidUrl)
    else if !env.validPath(t.destination) then Some(InvalidDestination)
    else if env.sanitize(t.displayName) != t.displayName then Some(InvalidFilename)
    else if t.resource.Some? && NewResource(env, t.resource.value).Err? then
      Some(NewResource(env, t.resource.value).error)
    else if t.partialPath.Some? && !env.confinedPartial(t.partialPath.value, t.destination) then
      Some(InvalidPartialPath)
    else if t.finalPath.Some? && !env.confinedFinal(t.finalPath.value, t.destination) then Some(InvalidFinalPath)
    else if !ValidRanges(t.ranges, ExpectedSize(t)) then Some(InvalidCompletedRanges)
    else if !Consistent(t) then Some(InconsistentState)
    else None
  }

  /** State and stored resource, paths and coverage agree. */
  predicate Consistent(t: Task) {
    && (t.resource.None? ==> t.partialPath.None? && t.finalPath.None? && t.ranges == [])
    && (t.resource.Some? && t.resource.value.expectedSize.None? ==>
         t.resource.value.mode == Single && t.finalPath.None? && t.ranges == [])
    && (t.state in {Downloading, Paused} ==> t.resource.Some? && t.partialPath.Some?)
    && (t.state in {Validating, Promoting, Completed} ==>
         && ExpectedSize(t).Some? && HasExactCoverage(t.ranges, ExpectedSize(t).value)
         && (t.state == Validating ==> t.partialPath.Some?)
         && (t.state == Promoting ==> t.partialPath.Some? || t.finalPath.Some?)
         && (t.state == Completed ==> t.finalPath.Some?))
    && (t.finalPath.Some? ==> t.state in {Promoting, Completed})
  }

  /** What validation leaves out: a record forgets its partial only together with
      its coverage, unless it already has a published file, and its resource came
      from the constructor. */
  predicate Sound(env: Env, t: Task) {
    && ValidateTask(env, t).None?
    && (t.state !in {Promoting, Completed} && t.partialPath.None? ==> t.ranges == [])
    && (t.resource.Some? ==> CanonicalUrl(env, t.resource.value.finalUrl))
  }

  /** `TaskMetadata::new`, with the optional checksum and session requirement. */
  function NewTask(env: Env, id: TaskId, url: string, needsSession: bool, digest: Option<seq<Storage.Byte>>,
                   dir: Path, name: string, workers: nat, now: nat): Result<Task, StateError>
  {
    if workers !in {1, 2, 4, 8} then Err(InvalidWorkerCount)
    else if env.normalizeUrl(url).None? then Err(InvalidUrl)
    else if !env.validPath(dir) then Err(InvalidDestination)
    else
      Ok(Task(id, 1, Queued, env.normalizeUrl(url).value, needsSession, digest, None, dir, env.sanitize(name), workers,
        None, None, [], now, now))
  }

  /** Sanitizing a sanitized name changes nothing. */
  ghost predicate Sanitizes(env: Env) { forall name :: env.sanitize(env.sanitize(name)) == env.sanitize(name) }

  lemma NewTaskIsSound(env: Env, id: TaskId, url: string, needsSession: bool, digest: Option<seq<Storage.Byte>>,
                       dir: Path, name: string, workers: nat, now: nat)
    requires Idempotent(env) && Sanitizes(env)
    ensures var t := NewTask(env, id, url, needsSession, digest, dir, name, workers, now);
      t.Ok? ==> Sound(env, t.value) && t.value.state == Queued && t.value.partialPath.None? && t.value.finalPath.None?
  { }

  // ---------- Mutators ----------

  function Bump(t: Task, now: nat): Result<Task, StateError> {
    if now < t.updatedAt then Err(InvalidTimestamp)
    else if t.revision + 1 >= U64_LIMIT then Err(InvalidRevision)
    else Ok(t.(revision := t.revision + 1, updatedAt := now))
  }

  function Transition(env: Env, t: Task, next: TaskState, now: nat): Result<Task, StateError> {
    if !Allows(t.state, next) then Err(InvalidTransition) else
    var bumped := Bump(t, now);
    if bumped.Err? then bumped else
    var moved := bumped.value.(state := next);
    if ValidateTask(env, moved).Some? then Err(ValidateTask(env, moved).value) else Ok(moved)
  }

  function ApplyResource(t: Task, resource: Resource, now: nat): Result<Task, StateError> {
    if t.state != Probing then Err(InconsistentState)
    else if t.partialPath.Some? && t.resource.Some? && t.resource.value != resource then Err(InvalidResource) else
    var bumped := Bump(t, now);
    if bumped.Err? then bumped else Ok(bumped.value.(resource := Some(resource)))
  }

  /** The storage side of an association: where the partial lives and its length. */
  datatype PartialInfo = PartialInfo(path: Path, parent: Path, finalName: string, len: Option<nat>)

  function AttachPartial(env: Env, t: Task, partial: PartialInfo, now: nat): Result<Task, StateError> {
    if t.resource.None? then Err(InconsistentState)
    else if t.state != Probing || t.partialPath.Some? || t.resource.value.expectedSize != partial.len
      || partial.parent != t.destination || !env.confinedPartial(partial.path, t.destination)
    then Err(InvalidPartialPath) else
    var bumped := Bump(t, now);
    if bumped.Err? then bumped
    else Ok(bumped.value.(displayName := partial.finalName, partialPath := Some(partial.path)))
  }

  function RefreshCompleted(t: Task, partial: PartialInfo, durable: Result<seq<FileRange>, Storage.StorageError>,
                            now: nat)
    : Result<Task, StateError>
  {
    if t.state !in {Downloading, Paused, Validating} || t.partialPath != Some(partial.path) then Err(InconsistentState)
    else if t.resource.None? then Err(InvalidResource) else
    var known := t.resource.value;
    if !(known.expectedSize == partial.len || (known.expectedSize.None? && known.mode == Single)) then
      Err(InvalidResource)
    else if known.expectedSize.None? && partial.len.None? && known.mode != Single then Err(InvalidResource)
    else if durable.Err? then Err(StorageFailed)
    else if !ValidRanges(durable.value, partial.len) then Err(InvalidCompletedRanges)
    else if durable.value == t.ranges && known.expectedSize == partial.len then Ok(t) else
    var bumped := Bump(t, now);
    if bumped.Err? then bumped
    else Ok(bumped.value.(ranges := durable.value, resource := Some(known.(expectedSize := partial.len))))
  }

  function RecordPartialDeletion(t: Task, now: nat): Result<Task, StateError> {
    if t.state !in {Cancelled, Failed} || t.finalPath.Some? || t.partialPath.None? then Err(InconsistentState) else
    var bumped := Bump(t, now);
    if bumped.Err? then bumped else Ok(bumped.value.(partialPath := None, ranges := []))
  }

  function RecordPromotion(env: Env, t: Task, finalPath: Path, retained: Option<Path>, now: nat)
    : Result<Task, StateError>
  {
    if t.state != Promoting then Err(InconsistentState)
    else if !env.confinedFinal(finalPath, t.destination) then Err(InvalidFinalPath)
    else if t.finalPath.Some? && t.finalPath.value != finalPath then Err(InconsistentState)
    else if retained.Some? && t.partialPath != retained then Err(InvalidPartialPath) else
    var bumped := Bump(t, now);
    if bumped.Err? then bumped
    else Ok(bumped.value.(finalPath := Some(finalPath), partialPath := if retained.None? then None else t.partialPath))
  }

  /** Every move a record can make, pair by pair, with what it needs besides. */
  ghost predicate MayMove(t: Task, next: TaskState) {
    match next
    case Queued => t.state == Failed
    case Probing => t.state == Queued
    case Downloading => t.state == Paused || (t.state == Probing && t.resource.Some? && t.partialPath.Some?)
    case Paused => t.state == Downloading
    case Validating => t.state == Downloading && ExpectedSize(t).Some? && HoldsExactly(t.ranges, ExpectedSize(t).value)
    case Promoting => t.state == Validating
    case Completed => t.state == Promoting && t.finalPath.Some?
    case Failed =>
      t.state in {Queued, Probing, Downloading, Paused, Validating} || (t.state == Promoting && t.finalPath.None?)
    case Cancelled => t.state in {Queued, Probing, Downloading, Paused, Validating}
  }

  ghost predicate HoldsExactly(ranges: seq<FileRange>, size: nat) {
    forall x: nat :: Covers(ranges, x) <==> x < size
  }

  function Moved(t: Task, next: TaskState, now: nat): Task {
    t.(state := next, revision := t.revision + 1, updatedAt := now)
  }

  lemma TransitionChecks(env: Env, t: Task, next: TaskState, now: nat)
    ensures Transition(env, t, next, now).Ok? <==>
      && Allows(t.state, next) && t.updatedAt <= now && t.revision + 1 < U64_LIMIT
      && ValidateTask(env, Moved(t, next, now)).None?
    ensures Transition(env, t, next, now).Ok? ==> Transition(env, t, next, now).value == Moved(t, next, now)
  {
    var moved := Moved(t, next, now);
    assert Bump(t, now).Ok? ==> Bump(t, now).value.(state := next) == moved;
  }

  lemma MovedIsValid(env: Env, t: Task, next: TaskState, now: nat)
    requires ValidateTask(env, t).None? && t.updatedAt <= now
    ensures ValidateTask(env, Moved(t, next, now)).None? <==> Consistent(Moved(t, next, now))
  { }

  lemma MovedIsConsistent(t: Task, next: TaskState, now: nat)
    requires Consistent(t) && Canonical(t.ranges)
    requires t.state !in {Promoting, Completed} && t.partialPath.None? ==> t.ranges == []
    ensures Allows(t.state, next) && Consistent(Moved(t, next, now)) <==> MayMove(t, next)
  {
    if ExpectedSize(t).Some? { FullCoverageIsExact(t.ranges, ExpectedSize(t).value); }
  }

  lemma SoundIsConsistent(env: Env, t: Task)
    requires Sound(env, t)
    ensures ValidateTask(env, t).None? && Consistent(t) && Canonical(t.ranges)
  { }

  /** A sound record makes exactly these moves, given a revision to spare and a
      clock that did not go back, and a move changes nothing else. */
  lemma TransitionExactly(env: Env, t: Task, next: TaskState, now: nat)
    requires Sound(env, t)
    ensures Transition(env, t, next, now).Ok? <==>
      MayMove(t, next) && t.updatedAt <= now && t.revision + 1 < U64_LIMIT
    ensures Transition(env, t, next, now).Ok? ==>
      Transition(env, t, next, now).value == t.(state := next, revision := t.revision + 1, updatedAt := now)
  {
    TransitionChecks(env, t, next, now);
    if t.updatedAt <= now { MovedIsValid(env, t, next, now); }
    SoundIsConsistent(env, t);
    MovedIsConsistent(t, next, now);
  }

  // ---------- Every mutator, over every run ----------

  datatype Mutation =
    | ToState(next: TaskState) | SetResource(resource: Resource) | Attach(attached: PartialInfo)
    | Refresh(partial: PartialInfo, durable: Result<seq<FileRange>, Storage.StorageError>)
    | ForgetPartial | Promoted(finalPath: Path, retained: Option<Path>)

  /** What callers can pass: identities built by the constructor, sanitized names,
      and the length and coverage types of storage. */
  ghost predicate Admissible(env: Env, m: Mutation) {
    match m
    case SetResource(r) => NewResource(env, r) == Ok(r)
    case Attach(p) => env.sanitize(p.finalName) == p.finalName
    case Refresh(p, durable) =>
      && (p.len.Some? ==> p.len.value <= MAX_SAFE_INTEGER)
      && (durable.Ok? && p.len.None? ==> durable.value == [])
    case _ => true
  }

  function Mutate(env: Env, t: Task, m: Mutation, now: nat): Result<Task, StateError> {
    match m
    case ToState(next) => Transition(env, t, next, now)
    case SetResource(r) => ApplyResource(t, r, now)
    case Attach(p) => AttachPartial(env, t, p, now)
    case Refresh(p, durable) => RefreshCompleted(t, p, durable, now)
    case ForgetPartial => RecordPartialDeletion(t, now)
    case Promoted(path, retained) => RecordPromotion(env, t, path, retained, now)
  }

  /** The captured coverage is the whole file. */
  predicate CapturesWhole(partial: PartialInfo, durable: Result<seq<FileRange>, Storage.StorageError>) {
    durable.Ok? && partial.len.Some? && HasExactCoverage(durable.value, partial.len.value)
  }

  /** Every successful mutator advances the revision by one exactly when it changed
      something, and keeps the record sound with one exception: `refresh_completed`
      does not check that a validating record keeps its exact coverage. */
  lemma MutateKeepsSound(env: Env, t: Task, m: Mutation, now: nat)
    requires Sound(env, t) && Admissible(env, m) && Mutate(env, t, m, now).Ok?
    ensures var after := Mutate(env, t, m, now).value;
      && (Sound(env, after) <==> !(m.Refresh? && t.state == Validating && !CapturesWhole(m.partial, m.durable)))
      && (after == t || after.revision == t.revision + 1)
      && t.updatedAt <= after.updatedAt
      && after.id == t.id && after.expectedSha256 == t.expectedSha256 && after.originalUrl == t.originalUrl
  {
    match m
    case ToState(next) => TransitionKeepsSound(env, t, next, now);
    case SetResource(r) => ResourceKeepsSound(env, t, r, now);
    case Attach(p) => AttachKeepsSound(env, t, p, now);
    case Refresh(p, durable) => RefreshOutcome(env, t, p, durable, now);
    case ForgetPartial => ForgetKeepsSound(env, t, now);
    case Promoted(path, retained) => PromotionKeepsSound(env, t, path, retained, now);
  }

  lemma ResourceKeepsSound(env: Env, t: Task, r: Resource, now: nat)
    requires Sound(env, t) && NewResource(env, r) == Ok(r) && ApplyResource(t, r, now).Ok?
    ensures Sound(env, ApplyResource(t, r, now).value)
  { }

  lemma AttachKeepsSound(env: Env, t: Task, p: PartialInfo, now: nat)
    requires Sound(env, t) && env.sanitize(p.finalName) == p.finalName && AttachPartial(env, t, p, now).Ok?
    ensures Sound(env, AttachPartial(env, t, p, now).value)
  { }

  /** A refresh of a validating record is sound exactly when it captures the whole
      file; in the other states it always is. */
  lemma RefreshOutcome(env: Env, t: Task, p: PartialInfo, durable: Result<seq<FileRange>, Storage.StorageError>,
                       now: nat)
    requires Sound(env, t) && Admissible(env, Refresh(p, durable)) && RefreshCompleted(t, p, durable, now).Ok?
    ensures var after := RefreshCompleted(t, p, durable, now).value;
      && (Sound(env, after) <==> (t.state == Validating ==> CapturesWhole(p, durable)))
      && OnlyCoverageLost(env, after)
  { }

  lemma ForgetKeepsSound(env: Env, t: Task, now: nat)
    requires Sound(env, t) && RecordPartialDeletion(t, now).Ok?
    ensures Sound(env, RecordPartialDeletion(t, now).value)
  { }

  lemma PromotionKeepsSound(env: Env, t: Task, path: Path, retained: Option<Path>, now: nat)
    requires Sound(env, t) && RecordPromotion(env, t, path, retained, now).Ok?
    ensures Sound(env, RecordPromotion(env, t, path, retained, now).value)
  { }

  lemma TransitionKeepsSound(env: Env, t: Task, next: TaskState, now: nat)
    requires OnlyCoverageLost(env, t) && Transition(env, t, next, now).Ok?
    ensures Sound(env, Transition(env, t, next, now).value)
  {
    var after := Transition(env, t, next, now).value;
    if next !in {Promoting, Completed} && after.partialPath.None? {
      assert t.state != Completed;
      assert t.state == Promoting ==> after.finalPath.None?;
    }
  }

  /** A sound validating record that an admissible refresh makes invalid. */
  lemma RefreshMayUnsettleValidation(env: Env, id: TaskId, url: string, dir: Path, name: string, partial: Path)
    requires CanonicalUrl(env, url) && env.validPath(dir) && env.sanitize(name) == name
    requires env.confinedPartial(partial, dir)
    ensures
      var resource := Resource(url, Some(1), Validators(None, None), Segmented);
      var t := Task(id, 1, Validating, url, false, None, Some(resource), dir, name, 1, Some(partial), None,
        [Span(0, 1)], 0, 0);
      var m := Refresh(PartialInfo(partial, dir, name, Some(1)), Ok([]));
      && Sound(env, t) && Admissible(env, m) && Mutate(env, t, m, 0).Ok?
      && ValidateTask(env, Mutate(env, t, m, 0).value) == Some(InconsistentState)
  {
    var whole: seq<FileRange> := [Span(0, 1)];
    assert Within(whole, 1) && Canonical(whole) && HasExactCoverage(whole, 1);
  }

  /** Completed records never change at all; cancelled ones never leave. */
  lemma TerminalStatesAbsorb(env: Env, t: Task, m: Mutation, now: nat)
    requires Sound(env, t)
    ensures t.state == Completed ==> Mutate(env, t, m, now).Err?
    ensures t.state == Cancelled && Mutate(env, t, m, now).Ok? ==> Mutate(env, t, m, now).value.state == Cancelled
  { }

  datatype Step = Step(mutation: Mutation, now: nat)

  /** A run of attempted mutations; a refused one leaves the record as it was. */
  ghost function RunMutations(env: Env, t: Task, steps: seq<Step>): Task
    decreases |steps|
  {
    if steps == [] then t else
    var m := Mutate(env, t, steps[0].mutation, steps[0].now);
    RunMutations(env, if m.Ok? then m.value else t, steps[1..])
  }

  ghost predicate AdmissibleRun(env: Env, steps: seq<Step>) {
    forall i :: 0 <= i < |steps| ==> Admissible(env, steps[i].mutation)
  }

  /** A mutation that succeeds and shrinks the coverage under validation. */
  predicate Unsettles(env: Env, t: Task, s: Step) {
    s.mutation.Refresh? && t.state == Validating && Mutate(env, t, s.mutation, s.now).Ok?
    && !CapturesWhole(s.mutation.partial, s.mutation.durable)
  }

  ghost predicate Settled(env: Env, t: Task, steps: seq<Step>)
    decreases |steps|
  {
    steps == [] ||
    (var m := Mutate(env, t, steps[0].mutation, steps[0].now);
     !Unsettles(env, t, steps[0]) && Settled(env, if m.Ok? then m.value else t, steps[1..]))
  }

  ghost predicate AlwaysSound(env: Env, t: Task, steps: seq<Step>)
    decreases |steps|
  {
    Sound(env, t) &&
    (steps == [] ||
      (var m := Mutate(env, t, steps[0].mutation, steps[0].now);
       AlwaysSound(env, if m.Ok? then m.value else t, steps[1..])))
  }

  /** Every record of a run is sound exactly when no refresh shrinks the coverage
      of a validating record. */
  lemma {:induction false} RunStaysSoundExactly(env: Env, t: Task, steps: seq<Step>)
    requires Sound(env, t) && AdmissibleRun(env, steps)
    ensures AlwaysSound(env, t, steps) <==> Settled(env, t, steps)
    ensures Settled(env, t, steps) ==> Sound(env, RunMutations(env, t, steps))
    decreases |steps|
  {
    if steps != [] {
      var m := Mutate(env, t, steps[0].mutation, steps[0].now);
      var next := if m.Ok? then m.value else t;
      if m.Ok? { MutateKeepsSound(env, t, steps[0].mutation, steps[0].now); }
      if Sound(env, next) { RunStaysSoundExactly(env, next, steps[1..]); }
    }
  }

  /** Sound except that a validating record may have lost coverage. */
  predicate OnlyCoverageLost(env: Env, t: Task) {
    Sound(env, t) || (t.state == Validating && Sound(env, t.(state := Downloading)))
  }

  lemma MutateLosesOnlyCoverage(env: Env, t: Task, m: Mutation, now: nat)
    requires OnlyCoverageLost(env, t) && Admissible(env, m) && Mutate(env, t, m, now).Ok?
    ensures OnlyCoverageLost(env, Mutate(env, t, m, now).value)
  {
    match m
    case ToState(next) => TransitionKeepsSound(env, t, next, now);
    case Refresh(p, durable) =>
      var base := if Sound(env, t) then t else t.(state := Downloading);
      RefreshOutcome(env, base, p, durable, now);
    case _ => if Sound(env, t) { MutateKeepsSound(env, t, m, now); }
  }

  /** Over every run of attempted mutations revisions never go down, a finished
      record stays finished, nothing but the coverage of a validating record can
      go wrong, and a completed record has exact coverage and a name. */
  lemma {:induction false} RunKeepsSound(env: Env, t: Task, steps: seq<Step>)
    requires OnlyCoverageLost(env, t) && AdmissibleRun(env, steps)
    ensures var after := RunMutations(env, t, steps);
      && OnlyCoverageLost(env, after)
      && t.revision <= after.revision
      && (t.state in {Completed, Cancelled} ==> after.state == t.state)
      && (t.state == Completed ==> after == t)
      && (after.state == Completed ==>
            after.finalPath.Some? && ExpectedSize(after).Some?
              && HasExactCoverage(after.ranges, ExpectedSize(after).value))
    decreases |steps|
  {
    if steps == [] {
      if t.state == Completed { CompletedIsWhole(env, t); }
    } else {
      var s := steps[0];
      var m := Mutate(env, t, s.mutation, s.now);
      AttemptedMutation(env, t, s.mutation, s.now);
      RunKeepsSound(env, if m.Ok? then m.value else t, steps[1..]);
    }
  }

  lemma CompletedIsWhole(env: Env, t: Task)
    requires OnlyCoverageLost(env, t) && t.state == Completed
    ensures t.finalPath.Some? && ExpectedSize(t).Some? && HasExactCoverage(t.ranges, ExpectedSize(t).value)
  { }

  lemma AttemptedMutation(env: Env, t: Task, m: Mutation, now: nat)
    requires OnlyCoverageLost(env, t) && Admissible(env, m)
    ensures var after := if Mutate(env, t, m, now).Ok? then Mutate(env, t, m, now).value else t;
      && OnlyCoverageLost(env, after) && t.revision <= after.revision
      && (t.state in {Completed, Cancelled} ==> after.state == t.state)
      && (t.state == Completed ==> after == t)
  {
    if t.state != Validating { TerminalStatesAbsorb(env, t, m, now); }
    if Mutate(env, t, m, now).Ok? { MutateLosesOnlyCoverage(env, t, m, now); }
  }

  /** Without the strengthening a valid record can become invalid: forgetting the
      partial of a failed record that still claims coverage, then probing a
      smaller resource, leaves ranges beyond the new size. */
  lemma ValidationAloneIsNotInductive(env: Env, id: TaskId, url: string, dir: Path, name: string)
    requires CanonicalUrl(env, url) && env.validPath(dir) && env.sanitize(name) == name
    ensures
      var none := Validators(None, None);
      var big, small := Resource(url, Some(10), none, Single), Resource(url, Some(1), none, Single);
      var t := Task(id, 1, Probing, url, false, None, Some(big), dir, name, 1, None, None, [Span(0, 10)], 0, 0);
      && ValidateTask(env, t).None? && !Sound(env, t) && NewResource(env, small).Ok?
      && ApplyResource(t, small, 0).Ok? && ValidateTask(env, ApplyResource(t, small, 0).value).Some?
  {
    var wide: seq<FileRange> := [Span(0, 10)];
    assert !Within(wide, 1) by { assert wide[0].end == 10; }
  }
}
