/** When a transfer duplicates its last request, over whole runs: the hedge
    starts exactly when an idle worker asks, at least the hedge delay after the
    step that first took the chunk. */
module Hedging {
  import opened Ranges
  import opened Storage
  import opened Coordinator
  import opened Network
  import opened Transfer
  import opened TransferSafety
  import opened TransferTheorems

  /** The time of the step that handed out each chunk, by its identifier. */
  type Log = map<nat, nat>

  function Logged(log: Log, t: State, ev: Event, next: State): Log {
    if ev.NextStep? && next.coord.nextId > t.coord.nextId then log[t.coord.nextId := ev.now] else log
  }

  /** `id` is all that is left, it is still being fetched, nothing was
      duplicated so far, and its delay is over. */
  predicate HedgeDue(t: State, plan: Plan, log: Log, id: nat, now: nat) {
    && plan.hedging && !Stopping(t) && t.hedges == 0
    && t.coord.pending == [] && t.coord.inFlight.Keys == {id} && t.coord.inFlight[id].phase == InFlight
    && id in log && (now >= log[id] + plan.hedgeDelay || plan.hedgeDelay == 0)
  }

  ghost predicate Hedges(t: State, ev: Event, plan: Plan, log: Log) {
    ev.NextStep? && exists id :: id in t.coord.inFlight && HedgeDue(t, plan, log, id, ev.now)
  }

  /** At every step: a request is duplicated exactly when it is due, and then
      the asking worker fetches the same range again. */
  ghost predicate HedgesOnTime(t: State, evs: seq<Event>, plan: Plan, acc: Accepts, log: Log)
    requires plan.chunkSize > 0 && Transfer.Inv(t, acc) && ValidRun(t, evs, plan, acc)
    decreases |evs|
  {
    evs == [] ||
    (StepKeepsInv(t, evs[0], plan, acc);
     var next := Transfer.Apply(t, evs[0], plan, acc);
     && (next.hedges > t.hedges <==> Hedges(t, evs[0], plan, log))
     && (next.hedges > t.hedges ==> Duplicates(t, evs[0], next))
     && HedgesOnTime(next, evs[1..], plan, acc, Logged(log, t, evs[0], next)))
  }

  predicate Duplicates(t: State, ev: Event, next: State) {
    && ev.NextStep? && ev.i < |next.workers| && next.workers[ev.i].Fetching?
    && var work := next.workers[ev.i].work;
    && work.hedged && work.id in t.coord.inFlight && work.range == t.coord.inFlight[work.id].range
  }

  /** The log agrees with the chunks, and a chunk was duplicated iff a hedge started. */
  ghost predicate Timed(t: State, log: Log) {
    && (forall id :: id in t.coord.inFlight ==>
         && id in log && t.coord.inFlight[id].firstStarted == log[id]
         && t.coord.inFlight[id].attemptsStarted == (if t.hedges == 0 then 1 else 2))
    && t.hedges <= 1 && (t.hedges == 1 ==> t.coord.pending == [])
    && (forall id :: id in t.coord.inFlight ==> id < t.coord.nextId)
  }

  lemma NextIsTimed(t: State, i: nat, now: nat, plan: Plan, acc: Accepts, log: Log)
    requires plan.chunkSize > 0 && Timed(t, log) && Storage.Inv(t.store) && Enabled(t, NextStep(i, now), plan, acc)
    ensures var ev := NextStep(i, now);
      var next := Transfer.Apply(t, ev, plan, acc);
      && Timed(next, Logged(log, t, ev, next))
      && (next.hedges > t.hedges <==> Hedges(t, ev, plan, log))
      && (next.hedges > t.hedges ==> Duplicates(t, ev, next))
  {
    var ev := NextStep(i, now);
    if !Stopping(t) && t.coord.pending == [] && t.coord.inFlight != map[] {
      if plan.hedging && exists id :: id in t.coord.inFlight && UnhedgedTail(t.coord, id) {
        var id :| id in t.coord.inFlight && UnhedgedTail(t.coord, id);
        TailIsHedgedOnTime(t.coord, plan, id, now);
        assert HedgeDue(t, plan, log, id, now) <==> NextWork(t.coord, plan, false, now).1.Take?;
      } else {
        OtherwiseWaitsUntimed(t.coord, plan, now);
      }
    }
  }

  /** No chunk is new or restarted. */
  predicate SameStarts(c: CoordState, d: CoordState) {
    && d.pending == c.pending && d.nextId == c.nextId
    && (forall id :: id in d.inFlight ==>
         && id in c.inFlight && d.inFlight[id].firstStarted == c.inFlight[id].firstStarted
         && d.inFlight[id].attemptsStarted == c.inFlight[id].attemptsStarted)
  }

  lemma SectionsKeepStarts(c: CoordState, cancelled: bool, id: nat, succeeded: bool)
    ensures SameStarts(c, ClaimCommit(c, cancelled, id).0) && SameStarts(c, FinishSuperseded(c, id))
    ensures SameStarts(c, FinishFailedAttempt(c, id).0) && SameStarts(c, FinishCommit(c, id, succeeded))
    ensures SameStarts(c, Abort(c))
  { }

  lemma OthersKeepStarts(t: State, ev: Event, plan: Plan, acc: Accepts)
    requires plan.chunkSize > 0 && Storage.Inv(t.store) && Enabled(t, ev, plan, acc) && !ev.NextStep?
    ensures var next := Transfer.Apply(t, ev, plan, acc); SameStarts(t.coord, next.coord) && next.hedges == t.hedges
  {
    if ev.SupersededStep? || ev.BodyStep? || ev.FetchErrorStep? || ev.CommitStep? {
      var w := t.workers[ev.i];
      SectionsKeepStarts(t.coord, t.cancelled, w.work.id, w.Stored?);
    }
  }

  lemma StepIsTimed(t: State, ev: Event, plan: Plan, acc: Accepts, log: Log)
    requires plan.chunkSize > 0 && Timed(t, log) && Storage.Inv(t.store) && Enabled(t, ev, plan, acc)
    ensures var next := Transfer.Apply(t, ev, plan, acc);
      && Timed(next, Logged(log, t, ev, next))
      && (next.hedges > t.hedges <==> Hedges(t, ev, plan, log))
      && (next.hedges > t.hedges ==> Duplicates(t, ev, next))
  {
    if ev.NextStep? { NextIsTimed(t, ev.i, ev.now, plan, acc, log); } else { OthersKeepStarts(t, ev, plan, acc); }
  }

  lemma {:induction false} RunHedgesOnTime(t: State, evs: seq<Event>, plan: Plan, acc: Accepts, log: Log)
    requires plan.chunkSize > 0 && Transfer.Inv(t, acc) && ValidRun(t, evs, plan, acc) && Timed(t, log)
    ensures HedgesOnTime(t, evs, plan, acc, log)
    decreases |evs|
  {
    if evs != [] {
      StepKeepsInv(t, evs[0], plan, acc);
      StepIsTimed(t, evs[0], plan, acc, log);
      var next := Transfer.Apply(t, evs[0], plan, acc);
      RunHedgesOnTime(next, evs[1..], plan, acc, Logged(log, t, evs[0], next));
    }
  }

  /** Over every transfer, whatever the interleaving and the clock: the one
      duplicate starts neither before nor after its time. */
  lemma HedgesStartOnTime(store: Store, missing: seq<FileRange>, workers: nat, evs: seq<Event>, plan: Plan,
                          acc: Accepts)
    requires plan.chunkSize > 0 && Startable(store, missing, acc)
    requires Transfer.Inv(Begin(store, missing, workers), acc)
    requires ValidRun(Begin(store, missing, workers), evs, plan, acc)
    ensures HedgesOnTime(Begin(store, missing, workers), evs, plan, acc, map[])
  {
    RunHedgesOnTime(Begin(store, missing, workers), evs, plan, acc, map[]);
  }
}
