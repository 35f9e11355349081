/** That transfers can succeed: from every start some run with genuine responses
    and without failures downloads the whole accepted version. */
module TransferSuccess {
  import opened Ranges
  import opened Storage
  import opened Coordinator
  import opened Network
  import opened Transfer
  import opened TransferSafety
  import opened TransferTheorems

  /** Nothing has gone wrong so far. */
  predicate Healthy(t: State) {
    && !t.coord.aborted && !t.cancelled
    && (forall i :: 0 <= i < |t.workers| ==>
         !t.workers[i].Failed? && !t.workers[i].StoreFailed? && !t.workers[i].Abandoning?)
  }

  /** The accepted version exists and its validators can be sent in headers. */
  ghost predicate Answerable(acc: Accepts) {
    && HasStrongIdentity(acc.validators) && |Content(acc)| == acc.total < U64_LIMIT
    && Labels(acc.validators, acc.isDate)
  }

  /** Events of a run in which every request is answered and every write done. */
  ghost predicate Calm(ev: Event, acc: Accepts)
    requires HasStrongIdentity(acc.validators)
  {
    match ev
    case BodyStep(_, response) =>
      exists range: FileRange :: range.end <= |Content(acc)| && response == Genuine(Content(acc), acc.validators, range)
    case WriteStep(_, io) => io.Wrote?
    case FetchErrorStep(_) => false
    case DropStep(_) => false
    case CancelStep => false
    case AbortStep => false
    case _ => true
  }

  lemma FetchedWell(t: State, i: nat, plan: Plan, acc: Accepts) returns (ev: Event)
    requires plan.chunkSize > 0 && Transfer.Inv(t, acc) && Healthy(t) && Answerable(acc)
    requires i < |t.workers| && t.workers[i].Fetching?
    ensures Enabled(t, ev, plan, acc) && Works(t, ev, plan) && Calm(ev, acc)
    ensures Healthy(Transfer.Apply(t, ev, plan, acc))
  {
    var work := t.workers[i].work;
    if ShouldCancel(t.coord, t.cancelled, work.id) { return SupersededStep(i); }
    var last := work.range.end - 1;
    assert Chunked(t.coord, last, work.id);
    GenuineResponseIsAccepted(acc.server, acc.validators, work.range, acc.isDate);
    ev := BodyStep(i, Genuine(Content(acc), acc.validators, work.range));
  }

  lemma ReservedWell(t: State, i: nat, plan: Plan, acc: Accepts)
    requires plan.chunkSize > 0 && Transfer.Inv(t, acc) && Healthy(t) && i < |t.workers| && t.workers[i].Claimed?
    ensures Enabled(t, ReserveStep(i), plan, acc) && Healthy(Transfer.Apply(t, ReserveStep(i), plan, acc))
  {
    AssignAlwaysSucceeds(t, i, acc);
  }

  lemma WrittenWell(t: State, i: nat, plan: Plan, acc: Accepts)
    requires plan.chunkSize > 0 && Transfer.Inv(t, acc) && Healthy(t) && i < |t.workers| && t.workers[i].Reserved?
    ensures Enabled(t, WriteStep(i, Wrote), plan, acc) && Healthy(Transfer.Apply(t, WriteStep(i, Wrote), plan, acc))
  {
    assert WriterOpen(t.workers[i], t.store.active);
    assert |t.workers[i].body| == Len(t.workers[i].work.range);
  }

  lemma FinishedWell(t: State, i: nat, plan: Plan, acc: Accepts)
    requires plan.chunkSize > 0 && Transfer.Inv(t, acc) && Healthy(t) && i < |t.workers| && t.workers[i].Filled?
    ensures Enabled(t, FinishStep(i), plan, acc) && Healthy(Transfer.Apply(t, FinishStep(i), plan, acc))
  {
    FinishAlwaysSucceeds(t, i, acc);
  }

  lemma AskedWell(t: State, i: nat, plan: Plan, acc: Accepts)
    requires plan.chunkSize > 0 && Storage.Inv(t.store) && Healthy(t) && i < |t.workers| && t.workers[i].Idle?
    ensures Enabled(t, NextStep(i, 0), plan, acc) && Healthy(Transfer.Apply(t, NextStep(i, 0), plan, acc))
  { }

  lemma CommittedWell(t: State, i: nat, plan: Plan, acc: Accepts)
    requires plan.chunkSize > 0 && Storage.Inv(t.store) && Healthy(t) && i < |t.workers| && t.workers[i].Stored?
    ensures Enabled(t, CommitStep(i), plan, acc) && Healthy(Transfer.Apply(t, CommitStep(i), plan, acc))
  { }

  /** While a worker of a healthy transfer runs, some calm step keeps it healthy. */
  lemma StaysHealthy(t: State, plan: Plan, acc: Accepts) returns (ev: Event)
    requires plan.chunkSize > 0 && Transfer.Inv(t, acc) && Healthy(t) && Answerable(acc) && !AllStopped(t)
    ensures Enabled(t, ev, plan, acc) && Works(t, ev, plan) && Calm(ev, acc)
    ensures Healthy(Transfer.Apply(t, ev, plan, acc))
  {
    var at := Unblocked(t, plan, acc);
    var w := t.workers[at];
    if w.Idle? { ev := NextStep(at, 0); AskedWell(t, at, plan, acc); }
    else if w.Fetching? { ev := FetchedWell(t, at, plan, acc); }
    else if w.Claimed? { ev := ReserveStep(at); ReservedWell(t, at, plan, acc); }
    else if w.Reserved? { ev := WriteStep(at, Wrote); WrittenWell(t, at, plan, acc); }
    else if w.Filled? { ev := FinishStep(at); FinishedWell(t, at, plan, acc); }
    else { ev := CommitStep(at); CommittedWell(t, at, plan, acc); }
  }

  /** A running worker that does not have to wait for another one. */
  lemma Unblocked(t: State, plan: Plan, acc: Accepts) returns (at: nat)
    requires plan.chunkSize > 0 && Transfer.Inv(t, acc) && !AllStopped(t)
    ensures at < |t.workers| && !Stopped(t.workers[at])
    ensures t.workers[at].Idle? ==> !NextWork(t.coord, plan, t.cancelled, 0).1.Wait?
  {
    at :| 0 <= at < |t.workers| && !Stopped(t.workers[at]);
    if t.workers[at].Idle? && NextWork(t.coord, plan, t.cancelled, 0).1.Wait? {
      EveryChunkIsHeld(t, acc);
      assert t.coord.inFlight.Keys != {};
      var id :| id in t.coord.inFlight;
      at :| 0 <= at < |t.workers| && Holds(t.workers[at], id);
    }
  }

  ghost predicate CalmRun(evs: seq<Event>, acc: Accepts)
    requires HasStrongIdentity(acc.validators)
  {
    forall i :: 0 <= i < |evs| ==> Calm(evs[i], acc)
  }

  /** What a calm step leaves for the next one. */
  lemma CalmStep(t: State, plan: Plan, acc: Accepts, gaps: nat, requests: nat) returns (ev: Event)
    requires plan.chunkSize > 0 && Transfer.Inv(t, acc) && Progress(t, plan, gaps, requests) && Healthy(t)
    requires Answerable(acc)
    requires !AllStopped(t)
    ensures Enabled(t, ev, plan, acc) && Calm(ev, acc)
    ensures var next := Transfer.Apply(t, ev, plan, acc);
      && Transfer.Inv(next, acc) && Progress(next, plan, gaps, requests) && Healthy(next)
      && Measure(next, plan) < Measure(t, plan)
  {
    ev := StaysHealthy(t, plan, acc);
    StepKeepsInv(t, ev, plan, acc);
    StepMeasure(t, ev, plan, acc);
    StepMakesProgress(t, ev, plan, acc, gaps, requests);
  }

  lemma MeasureIsBounded(t: State, plan: Plan, gaps: nat, requests: nat)
    requires plan.chunkSize > 0 && Progress(t, plan, gaps, requests)
    ensures Measure(t, plan) >= 0
  { }

  lemma {:induction false} HealthyRunSucceeds(t: State, plan: Plan, acc: Accepts, gaps: nat, requests: nat)
    returns (evs: seq<Event>)
    requires plan.chunkSize > 0 && Transfer.Inv(t, acc) && Progress(t, plan, gaps, requests) && Healthy(t)
    requires Answerable(acc)
    ensures ValidRun(t, evs, plan, acc) && CalmRun(evs, acc) && Succeeds(RunFrom(t, evs, plan, acc))
    decreases Measure(t, plan)
  {
    if AllStopped(t) { HasSucceeded(t, plan, acc); return []; }
    var ev := CalmStep(t, plan, acc, gaps, requests);
    MeasureIsBounded(t, plan, gaps, requests);
    var rest := HealthyRunSucceeds(Transfer.Apply(t, ev, plan, acc), plan, acc, gaps, requests);
    StepFirst(t, ev, rest, plan, acc);
    CalmFirst(ev, rest, acc);
    evs := [ev] + rest;
  }

  lemma HasSucceeded(t: State, plan: Plan, acc: Accepts)
    requires plan.chunkSize > 0 && Transfer.Inv(t, acc) && Healthy(t) && AllStopped(t)
    ensures ValidRun(t, [], plan, acc) && RunFrom(t, [], plan, acc) == t && Succeeds(t)
  { }

  lemma CalmFirst(ev: Event, rest: seq<Event>, acc: Accepts)
    requires HasStrongIdentity(acc.validators) && Calm(ev, acc) && CalmRun(rest, acc)
    ensures CalmRun([ev] + rest, acc)
  { }

  lemma StepFirst(t: State, ev: Event, rest: seq<Event>, plan: Plan, acc: Accepts)
    requires plan.chunkSize > 0 && Transfer.Inv(t, acc) && Enabled(t, ev, plan, acc)
    requires Transfer.Inv(Transfer.Apply(t, ev, plan, acc), acc)
    requires ValidRun(Transfer.Apply(t, ev, plan, acc), rest, plan, acc)
    ensures ValidRun(t, [ev] + rest, plan, acc)
    ensures RunFrom(t, [ev] + rest, plan, acc) == RunFrom(Transfer.Apply(t, ev, plan, acc), rest, plan, acc)
  {
    assert ([ev] + rest)[1..] == rest;
  }

  /** From every start, and for every number of workers, some run in which every
      request gets a genuine response and every write succeeds ends with the whole
      accepted version in the file. */
  lemma TransfersCanSucceed(store: Store, missing: seq<FileRange>, workers: nat, plan: Plan, acc: Accepts)
    returns (evs: seq<Event>)
    requires plan.chunkSize > 0 && Startable(store, missing, acc) && workers > 0 && Answerable(acc)
    ensures Transfer.Inv(Begin(store, missing, workers), acc)
    ensures var t := Begin(store, missing, workers);
      && ValidRun(t, evs, plan, acc) && CalmRun(evs, acc)
      && (var end := RunFrom(t, evs, plan, acc);
          && Succeeds(end) && HasExactCoverage(end.store.completed, acc.total) && end.store.data == Content(acc))
  {
    BeginKeepsInv(store, missing, workers, acc);
    BeginMakesProgress(store, missing, workers, plan);
    evs := HealthyRunSucceeds(Begin(store, missing, workers), plan, acc, |missing|,
      ChunkCount(missing, plan.chunkSize));
    SuccessMeansWholeFile(store, missing, workers, evs, plan, acc);
  }
}
