/** What holds of whole transfers: bytes, exact coverage, fragments, hedges,
    request counts, absence of deadlock, and a bound on the number of steps. */
module TransferTheorems {
  import opened Ranges
  import opened Storage
  import opened Coordinator
  import opened Network
  import opened Transfer
  import opened TransferSafety

  // ---------- Runs ----------

  function Begin(store: Store, missing: seq<FileRange>, workers: nat): State {
    State(CoordState(missing, map[], 1, false, 0), false, seq(workers, i => Idle), store, [], 0)
  }

  /** The partial file a transfer may start from: no writer is open and every
      completed byte already belongs to the accepted version. */
  ghost predicate Startable(store: Store, missing: seq<FileRange>, acc: Accepts) {
    && HasStrongIdentity(acc.validators) && |Content(acc)| == acc.total
    && Storage.Inv(store) && store.lifecycle == Active && store.expectedLen == Some(acc.total) && store.active == map[]
    && Ordered(missing)
    && (forall x: nat :: Covers(missing, x) <==> x < acc.total && !Covers(store.completed, x))
    && (forall x: nat :: x < acc.total && Covers(store.completed, x) ==> store.data[x] == Content(acc)[x])
  }

  ghost predicate ValidRun(t: State, evs: seq<Event>, plan: Plan, acc: Accepts)
    requires plan.chunkSize > 0 && Transfer.Inv(t, acc)
    decreases |evs|
  {
    evs == [] ||
    (Enabled(t, evs[0], plan, acc)
     && (StepKeepsInv(t, evs[0], plan, acc); ValidRun(Transfer.Apply(t, evs[0], plan, acc), evs[1..], plan, acc)))
  }

  ghost function RunFrom(t: State, evs: seq<Event>, plan: Plan, acc: Accepts): State
    requires plan.chunkSize > 0 && Transfer.Inv(t, acc) && ValidRun(t, evs, plan, acc)
    decreases |evs|
  {
    if evs == [] then t
    else
      StepKeepsInv(t, evs[0], plan, acc);
      RunFrom(Transfer.Apply(t, evs[0], plan, acc), evs[1..], plan, acc)
  }

  lemma BeginKeepsInv(store: Store, missing: seq<FileRange>, workers: nat, acc: Accepts)
    requires Startable(store, missing, acc)
    ensures Transfer.Inv(Begin(store, missing, workers), acc)
  {
    var t := Begin(store, missing, workers);
    assert Storage.Inv(t.store);
    forall x: nat | Covers(store.completed, x) ensures x < acc.total {
      var i :| 0 <= i < |store.completed| && In(x, store.completed[i]);
    }
    assert Regions(t, acc.total);
  }

  // ---------- Bookkeeping that only ever moves one way ----------

  predicate SomeFailed(ws: seq<Worker>) { exists i :: 0 <= i < |ws| && ws[i].Failed? }

  predicate SomeDone(ws: seq<Worker>) { exists i :: 0 <= i < |ws| && ws[i].Done? }

  ghost predicate Progress(t: State, plan: Plan, gaps: nat, requests: nat)
    requires plan.chunkSize > 0
  {
    var c := t.coord;
    && (c.aborted ==> SomeFailed(t.workers))
    && (t.lost != [] ==> c.aborted)
    && (SomeDone(t.workers) && !Stopping(t) ==> c.pending == [] && c.inFlight == map[])
    && |c.inFlight| + |t.lost| <= |t.workers|
    && |c.pending| <= gaps
    && c.nextId >= 1 && c.nextId - 1 + ChunkCount(c.pending, plan.chunkSize) == requests
    && t.hedges <= 1
    && (t.hedges == 1 ==> c.pending == [] && forall id :: id in c.inFlight ==> c.inFlight[id].attemptsStarted == 2)
  }

  lemma BeginMakesProgress(store: Store, missing: seq<FileRange>, workers: nat, plan: Plan)
    requires plan.chunkSize > 0
    ensures Progress(Begin(store, missing, workers), plan, |missing|, ChunkCount(missing, plan.chunkSize))
  { }

  predicate Holds(w: Worker, id: nat) { HasWork(w) && w.work.id == id }

  lemma {:induction false} HeldBound(m: set<nat>, ws: seq<Worker>, free: nat)
    requires free < |ws| && !HasWork(ws[free])
    requires forall id :: id in m ==> exists j :: 0 <= j < |ws| && Holds(ws[j], id)
    ensures |m| + 1 <= |ws|
    decreases |ws|
  {
    if |ws| == 1 {
      assert forall j :: 0 <= j < |ws| ==> !HasWork(ws[j]);
      assert m == {};
    } else {
      var last := |ws| - 1;
      var gone := if free == last then 0 else last;
      var rest := ws[..gone] + ws[gone + 1..];
      var m' := if HasWork(ws[gone]) then m - {ws[gone].work.id} else m;
      forall id | id in m' ensures exists j :: 0 <= j < |rest| && Holds(rest[j], id) {
        var j :| 0 <= j < |ws| && Holds(ws[j], id);
        assert j != gone;
        assert Holds(rest[if j < gone then j else j - 1], id);
      }
      var free' := if free < gone then free else free - 1;
      assert rest[free'] == ws[free];
      HeldBound(m', rest, free');
    }
  }

  /** While the transfer runs, every chunk in flight is in some worker's hands. */
  lemma EveryChunkIsHeld(t: State, acc: Accepts)
    requires Transfer.Inv(t, acc) && !Stopping(t)
    ensures forall id :: id in t.coord.inFlight ==> exists j :: 0 <= j < |t.workers| && Holds(t.workers[j], id)
  {
    forall id | id in t.coord.inFlight ensures exists j :: 0 <= j < |t.workers| && Holds(t.workers[j], id) {
      if t.coord.inFlight[id].phase == Committing {
        var j :| 0 <= j < |t.workers| && Commits(t.workers[j], id);
        assert Holds(t.workers[j], id);
      } else {
        assert Fetchers(t.workers, id) != {};
        var j :| j in Fetchers(t.workers, id);
        assert Holds(t.workers[j], id);
      }
    }
  }

  lemma FailedStays(ws: seq<Worker>, i: nat, w: Worker)
    requires i < |ws|
    ensures SomeFailed(ws) && !ws[i].Failed? ==> SomeFailed(ws[i := w])
    ensures w.Failed? ==> SomeFailed(ws[i := w])
    ensures SomeDone(ws[i := w]) ==> SomeDone(ws) || w.Done?
  {
    var ws' := ws[i := w];
    if SomeFailed(ws) && !ws[i].Failed? { var j :| 0 <= j < |ws| && ws[j].Failed?; assert ws'[j].Failed?; }
    if w.Failed? { assert ws'[i].Failed?; }
    if SomeDone(ws') { var j :| 0 <= j < |ws'| && ws'[j].Done?; if j != i { assert ws[j].Done?; } }
  }

  lemma NextMakesProgress(t: State, i: nat, now: nat, plan: Plan, acc: Accepts, gaps: nat, requests: nat)
    requires plan.chunkSize > 0 && Transfer.Inv(t, acc) && Progress(t, plan, gaps, requests)
    requires i < |t.workers| && t.workers[i].Idle?
    ensures Progress(ApplyNext(t, i, now, plan), plan, gaps, requests)
  {
    var (coord, outcome) := NextWork(t.coord, plan, t.cancelled, now);
    match outcome
    case Wait(_) =>
    case Stop => FailedStays(t.workers, i, Done);
    case Take(work) =>
      FailedStays(t.workers, i, Fetching(work));
      if t.coord.pending != [] {
        PopChunkSplits(t.coord.pending, plan.chunkSize);
        EveryChunkIsHeld(t, acc);
        HeldBound(t.coord.inFlight.Keys, t.workers, i);
        assert coord.inFlight.Keys == t.coord.inFlight.Keys + {t.coord.nextId};
      } else {
        var id := SoleKey(t.coord.inFlight);
        assert coord.inFlight.Keys == t.coord.inFlight.Keys;
        assert |coord.inFlight| == |coord.inFlight.Keys|;
      }
  }

  /** Steps that return one chunk to the coordinator or only count attempts. */
  lemma ReleaseMakesProgress(t: State, t': State, i: nat, id: nat, plan: Plan, gaps: nat, requests: nat)
    requires plan.chunkSize > 0 && Progress(t, plan, gaps, requests) && i < |t.workers|
    requires |t'.workers| == |t.workers| && t'.workers == t.workers[i := t'.workers[i]]
    requires HasWork(t.workers[i]) && !t'.workers[i].Done?
    requires t'.coord.pending == t.coord.pending && t'.coord.nextId == t.coord.nextId && t'.hedges == t.hedges
    requires t'.cancelled == t.cancelled && (t.coord.aborted ==> t'.coord.aborted)
    requires t'.coord.aborted ==> t.coord.aborted || t'.workers[i].Failed?
    requires (t'.lost == t.lost && t'.coord.inFlight.Keys <= t.coord.inFlight.Keys)
      || (t'.coord.aborted && id in t.coord.inFlight && t'.coord.inFlight.Keys == t.coord.inFlight.Keys - {id}
        && |t'.lost| == |t.lost| + 1)
    requires forall k :: k in t'.coord.inFlight ==>
      t'.coord.inFlight[k].attemptsStarted == t.coord.inFlight[k].attemptsStarted
    ensures Progress(t', plan, gaps, requests)
  {
    FailedStays(t.workers, i, t'.workers[i]);
    if t'.lost == t.lost { SubsetSize(t'.coord.inFlight.Keys, t.coord.inFlight.Keys); }
    assert |t'.coord.inFlight| == |t'.coord.inFlight.Keys|;
    assert |t.coord.inFlight| == |t.coord.inFlight.Keys|;
    if t.coord.inFlight == map[] { assert t'.coord.inFlight.Keys == {}; }
  }

  lemma SubsetSize<T>(a: set<T>, b: set<T>)
    requires a <= b
    ensures |a| <= |b|
  {
    assert b == a + (b - a);
  }

  lemma RequestMakesProgress(t: State, ev: Event, plan: Plan, acc: Accepts, gaps: nat, requests: nat)
    requires plan.chunkSize > 0 && Storage.Inv(t.store) && Enabled(t, ev, plan, acc)
    requires Progress(t, plan, gaps, requests)
    requires ev.SupersededStep? || ev.BodyStep? || ev.FetchErrorStep?
    ensures Progress(Transfer.Apply(t, ev, plan, acc), plan, gaps, requests)
  {
    ReleaseMakesProgress(t, Transfer.Apply(t, ev, plan, acc), ev.i, t.workers[ev.i].work.id, plan, gaps, requests);
  }

  lemma WritingMakesProgress(t: State, ev: Event, plan: Plan, acc: Accepts, gaps: nat, requests: nat)
    requires plan.chunkSize > 0 && Storage.Inv(t.store) && Enabled(t, ev, plan, acc)
    requires Progress(t, plan, gaps, requests)
    requires ev.ReserveStep? || ev.WriteStep? || ev.FinishStep? || ev.DropStep?
    ensures Progress(Transfer.Apply(t, ev, plan, acc), plan, gaps, requests)
  {
    var t' := Transfer.Apply(t, ev, plan, acc);
    assert t'.coord == t.coord && t'.lost == t.lost;
    ReleaseMakesProgress(t, t', ev.i, t.workers[ev.i].work.id, plan, gaps, requests);
  }

  lemma CommitMakesProgress(t: State, i: nat, plan: Plan, acc: Accepts, gaps: nat, requests: nat)
    requires plan.chunkSize > 0 && Transfer.Inv(t, acc) && Progress(t, plan, gaps, requests)
    requires i < |t.workers| && (t.workers[i].Stored? || t.workers[i].StoreFailed?)
    ensures Progress(Transfer.Apply(t, CommitStep(i), plan, acc), plan, gaps, requests)
  {
    var w := t.workers[i];
    assert w.work.id in t.coord.inFlight;
    ReleaseMakesProgress(t, Transfer.Apply(t, CommitStep(i), plan, acc), i, w.work.id, plan, gaps, requests);
  }

  lemma StepMakesProgress(t: State, ev: Event, plan: Plan, acc: Accepts, gaps: nat, requests: nat)
    requires plan.chunkSize > 0 && Transfer.Inv(t, acc) && Enabled(t, ev, plan, acc)
    requires Progress(t, plan, gaps, requests)
    ensures Progress(Transfer.Apply(t, ev, plan, acc), plan, gaps, requests)
  {
    match ev
    case NextStep(i, now) => NextMakesProgress(t, i, now, plan, acc, gaps, requests);
    case CancelStep =>
    case AbortStep => assert SomeFailed(t.workers);
    case CommitStep(i) => CommitMakesProgress(t, i, plan, acc, gaps, requests);
    case _ =>
      if ev.SupersededStep? || ev.BodyStep? || ev.FetchErrorStep? {
        RequestMakesProgress(t, ev, plan, acc, gaps, requests);
      }
      else { WritingMakesProgress(t, ev, plan, acc, gaps, requests); }
  }

  // ---------- The step bound ----------

  function Weight(w: Worker): nat {
    match w
    case Fetching(_) => 8
    case Claimed(_, _) => 7
    case Reserved(_, _, _) => 6
    case Filled(_, _) => 5
    case Abandoning(_, _) => 4
    case Stored(_) => 3
    case StoreFailed(_) => 3
    case Idle => 1
    case _ => 0
  }

  function Weights(ws: seq<Worker>): nat {
    if ws == [] then 0 else Weight(ws[0]) + Weights(ws[1..])
  }

  lemma {:induction false} WeightsUpdate(ws: seq<Worker>, i: nat, w: Worker)
    requires i < |ws|
    ensures Weights(ws[i := w]) == Weights(ws) - Weight(ws[i]) + Weight(w)
  {
    if i == 0 {
      assert ws[0 := w][1..] == ws[1..];
    } else {
      assert ws[i := w][1..] == ws[1..][i - 1 := w];
      WeightsUpdate(ws[1..], i - 1, w);
    }
  }

  function Measure(t: State, plan: Plan): int
    requires plan.chunkSize > 0
  {
    10 * ChunkCount(t.coord.pending, plan.chunkSize) + 10 * (1 - t.hedges) + Weights(t.workers)
  }

  /** Worker steps other than parking on the change channel. */
  ghost predicate Works(t: State, ev: Event, plan: Plan)
    requires plan.chunkSize > 0
  {
    match ev
    case NextStep(_, now) => !NextWork(t.coord, plan, t.cancelled, now).1.Wait?
    case CancelStep => false
    case AbortStep => false
    case _ => true
  }

  lemma NextMeasure(t: State, i: nat, now: nat, plan: Plan)
    requires plan.chunkSize > 0 && i < |t.workers| && t.workers[i].Idle? && Ordered(t.coord.pending)
    ensures var t' := ApplyNext(t, i, now, plan);
      Measure(t', plan) + (if NextWork(t.coord, plan, t.cancelled, now).1.Wait? then 0 else 1) <= Measure(t, plan)
  {
    var t' := ApplyNext(t, i, now, plan);
    if t.coord.pending != [] && !Stopping(t) { PopChunkSplits(t.coord.pending, plan.chunkSize); }
    WeightsUpdate(t.workers, i, t'.workers[i]);
  }

  lemma WorkerMeasure(t: State, t': State, i: nat, plan: Plan)
    requires plan.chunkSize > 0 && i < |t.workers| == |t'.workers|
    requires t'.workers == t.workers[i := t'.workers[i]] && t'.hedges == t.hedges && t'.coord.pending == t.coord.pending
    requires Weight(t'.workers[i]) < Weight(t.workers[i])
    ensures Measure(t', plan) + 1 <= Measure(t, plan)
  {
    WeightsUpdate(t.workers, i, t'.workers[i]);
  }

  lemma StepMeasure(t: State, ev: Event, plan: Plan, acc: Accepts)
    requires plan.chunkSize > 0 && Transfer.Inv(t, acc) && Enabled(t, ev, plan, acc)
    ensures var t' := Transfer.Apply(t, ev, plan, acc);
      Measure(t', plan) + (if Works(t, ev, plan) then 1 else 0) <= Measure(t, plan)
  {
    var store := t.store;
    assert Storage.Inv(store) && Ordered(t.coord.pending);
    match ev
    case NextStep(i, now) => NextMeasure(t, i, now, plan);
    case CancelStep =>
    case AbortStep =>
    case _ => OtherMeasure(t, ev, plan, acc);
  }

  lemma OtherMeasure(t: State, ev: Event, plan: Plan, acc: Accepts)
    requires plan.chunkSize > 0 && Storage.Inv(t.store) && Enabled(t, ev, plan, acc)
    requires !ev.NextStep? && !ev.CancelStep? && !ev.AbortStep?
    ensures Measure(Transfer.Apply(t, ev, plan, acc), plan) + 1 <= Measure(t, plan)
  {
    WorkerMeasure(t, Transfer.Apply(t, ev, plan, acc), ev.i, plan);
  }

  ghost function WorkSteps(t: State, evs: seq<Event>, plan: Plan, acc: Accepts): nat
    requires plan.chunkSize > 0 && Transfer.Inv(t, acc) && ValidRun(t, evs, plan, acc)
    decreases |evs|
  {
    if evs == [] then 0
    else
      StepKeepsInv(t, evs[0], plan, acc);
      (if Works(t, evs[0], plan) then 1 else 0) + WorkSteps(Transfer.Apply(t, evs[0], plan, acc), evs[1..], plan, acc)
  }

  lemma {:induction false} RunKeepsInv(t: State, evs: seq<Event>, plan: Plan, acc: Accepts)
    requires plan.chunkSize > 0 && Transfer.Inv(t, acc) && ValidRun(t, evs, plan, acc)
    ensures Transfer.Inv(RunFrom(t, evs, plan, acc), acc) && |RunFrom(t, evs, plan, acc).workers| == |t.workers|
    decreases |evs|
  {
    if evs != [] {
      StepKeepsInv(t, evs[0], plan, acc);
      RunKeepsInv(Transfer.Apply(t, evs[0], plan, acc), evs[1..], plan, acc);
    }
  }

  lemma {:induction false} RunKeepsProgress(t: State, evs: seq<Event>, plan: Plan, acc: Accepts, gaps: nat,
                                            requests: nat)
    requires plan.chunkSize > 0 && Transfer.Inv(t, acc) && ValidRun(t, evs, plan, acc)
    requires Progress(t, plan, gaps, requests)
    ensures Progress(RunFrom(t, evs, plan, acc), plan, gaps, requests)
    decreases |evs|
  {
    if evs != [] {
      StepKeepsInv(t, evs[0], plan, acc);
      StepMakesProgress(t, evs[0], plan, acc, gaps, requests);
      RunKeepsProgress(Transfer.Apply(t, evs[0], plan, acc), evs[1..], plan, acc, gaps, requests);
    }
  }

  lemma {:induction false} RunSpendsMeasure(t: State, evs: seq<Event>, plan: Plan, acc: Accepts)
    requires plan.chunkSize > 0 && Transfer.Inv(t, acc) && ValidRun(t, evs, plan, acc)
    ensures WorkSteps(t, evs, plan, acc) + Measure(RunFrom(t, evs, plan, acc), plan) <= Measure(t, plan)
    decreases |evs|
  {
    if evs != [] {
      StepKeepsInv(t, evs[0], plan, acc);
      StepMeasure(t, evs[0], plan, acc);
      RunSpendsMeasure(Transfer.Apply(t, evs[0], plan, acc), evs[1..], plan, acc);
    }
  }

  lemma RunKeepsAll(t: State, evs: seq<Event>, plan: Plan, acc: Accepts, gaps: nat, requests: nat)
    requires plan.chunkSize > 0 && Transfer.Inv(t, acc) && ValidRun(t, evs, plan, acc)
    requires Progress(t, plan, gaps, requests)
    ensures var end := RunFrom(t, evs, plan, acc);
      && Transfer.Inv(end, acc) && Progress(end, plan, gaps, requests) && |end.workers| == |t.workers|
      && WorkSteps(t, evs, plan, acc) + Measure(end, plan) <= Measure(t, plan)
  {
    RunKeepsInv(t, evs, plan, acc);
    RunKeepsProgress(t, evs, plan, acc, gaps, requests);
    RunSpendsMeasure(t, evs, plan, acc);
  }

  lemma {:induction false} IdleWeights(n: nat)
    ensures Weights(seq(n, i => Idle)) == n
  {
    if n > 0 {
      assert seq(n, i => Idle)[1..] == seq(n - 1, i => Idle);
      IdleWeights(n - 1);
    }
  }

  // ---------- Fragments ----------

  /** Each gap between completed ranges is owned by a different outstanding range. */
  lemma FragmentBound(completed: seq<FileRange>, owners: set<FileRange>, total: nat)
    requires Canonical(completed) && Within(completed, total)
    requires forall x: nat :: x < total ==> Covers(completed, x) || exists r :: r in owners && In(x, r)
    requires forall r: FileRange :: r in owners ==>
      DisjointFrom(completed, r) || (forall x: nat :: In(x, r) ==> Covers(completed, x))
    ensures |completed| <= |owners| + 1
  {
    if completed != [] { var found := GapOwners(completed, owners, total, |completed| - 1); SubsetSize(found, owners); }
  }

  lemma {:induction false} GapOwners(completed: seq<FileRange>, owners: set<FileRange>, total: nat, k: nat)
    returns (found: set<FileRange>)
    requires Canonical(completed) && Within(completed, total) && k < |completed|
    requires forall x: nat :: x < total ==> Covers(completed, x) || exists r :: r in owners && In(x, r)
    requires forall r: FileRange :: r in owners ==>
      DisjointFrom(completed, r) || (forall x: nat :: In(x, r) ==> Covers(completed, x))
    ensures found <= owners && |found| == k
    ensures forall r :: r in found ==> r.end <= completed[k].start
  {
    if k == 0 { return {}; }
    var before := GapOwners(completed, owners, total, k - 1);
    var x: nat := completed[k - 1].end;
    assert x < completed[k].start < total;
    assert !Covers(completed, x);
    assert exists r :: r in owners && In(x, r);
    var r: FileRange :| r in owners && In(x, r);
    assert DisjointFrom(completed, r);
    assert !Overlaps(r, completed[k]) && !Overlaps(r, completed[k - 1]);
    found := before + {r};
  }

  function ChunkRanges(m: map<nat, Chunk>): set<FileRange> { set id | id in m :: m[id].range }

  lemma {:induction false} ChunkRangesBound(m: map<nat, Chunk>)
    ensures |ChunkRanges(m)| <= |m|
    decreases |m|
  {
    if m != map[] {
      var id :| id in m;
      var rest := m - {id};
      assert rest.Keys == m.Keys - {id};
      assert |rest| == |m| - 1;
      ChunkRangesBound(rest);
      forall r | r in ChunkRanges(m) ensures r in ChunkRanges(rest) + {m[id].range} {
        var k :| k in m && m[k].range == r;
        if k != id { assert k in rest && rest[k].range == r; }
      }
      SubsetSize(ChunkRanges(m), ChunkRanges(rest) + {m[id].range});
    }
  }

  lemma {:induction false} ElementsBound(rs: seq<FileRange>)
    ensures |set r | r in rs| <= |rs|
  {
    if rs != [] {
      ElementsBound(rs[1..]);
      assert (set r | r in rs) == {rs[0]} + (set r | r in rs[1..]);
    }
  }

  /** In every reachable state, even while stopping, completed coverage has at
      most one fragment per outstanding range plus one. */
  lemma FewFragments(t: State, plan: Plan, acc: Accepts, gaps: nat, requests: nat)
    requires plan.chunkSize > 0 && Transfer.Inv(t, acc) && Progress(t, plan, gaps, requests)
    ensures |t.store.completed| <= |t.coord.inFlight| + |t.coord.pending| + |t.lost| + 1
    ensures |t.store.completed| <= |t.workers| + gaps + 1
  {
    var chunks, gapsLeft, lost := ChunkRanges(t.coord.inFlight), (set r | r in t.coord.pending), (set r | r in t.lost);
    var owners: set<FileRange> := chunks + gapsLeft + lost;
    forall x: nat | x < acc.total ensures Covers(t.store.completed, x) || exists r :: r in owners && In(x, r) {
      OwnerExists(t, x, owners, acc.total);
    }
    forall r: FileRange | r in owners
      ensures DisjointFrom(t.store.completed, r) || (forall x: nat :: In(x, r) ==> Covers(t.store.completed, x))
    {
      OwnerIsWhole(t, r, acc.total);
    }
    FragmentBound(t.store.completed, owners, acc.total);
    ChunkRangesBound(t.coord.inFlight);
    ElementsBound(t.coord.pending);
    ElementsBound(t.lost);
    assert |owners| <= |chunks| + |gapsLeft| + |lost|;
  }

  lemma OwnerExists(t: State, x: nat, owners: set<FileRange>, total: nat)
    requires Regions(t, total) && x < total
    requires owners == ChunkRanges(t.coord.inFlight) + (set r | r in t.coord.pending) + (set r | r in t.lost)
    ensures Covers(t.store.completed, x) || exists r :: r in owners && In(x, r)
  {
    assert Located(t, x);
    if Covers(t.coord.pending, x) {
      var i :| 0 <= i < |t.coord.pending| && In(x, t.coord.pending[i]);
      assert t.coord.pending[i] in owners;
    } else if Covers(t.lost, x) {
      var i :| 0 <= i < |t.lost| && In(x, t.lost[i]);
      assert t.lost[i] in owners;
    } else if !Covers(t.store.completed, x) {
      var id :| Chunked(t.coord, x, id);
      assert t.coord.inFlight[id].range in owners;
    }
  }

  lemma OwnerIsWhole(t: State, r: FileRange, total: nat)
    requires Regions(t, total)
    requires r in ChunkRanges(t.coord.inFlight) || r in t.coord.pending || r in t.lost
    ensures DisjointFrom(t.store.completed, r) || (forall x: nat :: In(x, r) ==> Covers(t.store.completed, x))
  {
    DisjointMeansUncovered(t.store.completed, r);
    if r in t.coord.pending {
      var i :| 0 <= i < |t.coord.pending| && t.coord.pending[i] == r;
      forall x: nat | In(x, r)
        ensures !Covers(t.store.completed, x)
      {
        assert In(x, t.coord.pending[i]);
        assert Covers(t.coord.pending, x);
      }
    } else if r in t.lost {
      var i :| 0 <= i < |t.lost| && t.lost[i] == r;
      forall x: nat | In(x, r)
        ensures !Covers(t.store.completed, x)
      {
        assert In(x, t.lost[i]);
        assert Covers(t.lost, x);
      }
    } else {
      var id :| id in t.coord.inFlight && t.coord.inFlight[id].range == r;
      forall x: nat ensures In(x, r) <==> Chunked(t.coord, x, id) { }
    }
  }

  // ---------- Main results ----------

  predicate Stopped(w: Worker) { w.Done? || w.Failed? }

  predicate AllStopped(t: State) { forall i :: 0 <= i < |t.workers| ==> Stopped(t.workers[i]) }

  /** The transfer's own verdict once every worker joined. */
  predicate Succeeds(t: State) { AllStopped(t) && !t.cancelled && !SomeFailed(t.workers) }

  /** No version mixing: whatever the interleaving, every completed byte is the
      byte of the accepted version at that offset. */
  lemma CompletedBytesAreAccepted(store: Store, missing: seq<FileRange>, workers: nat, evs: seq<Event>, plan: Plan,
                                  acc: Accepts)
    requires plan.chunkSize > 0 && Startable(store, missing, acc)
    ensures Transfer.Inv(Begin(store, missing, workers), acc)
    ensures ValidRun(Begin(store, missing, workers), evs, plan, acc) ==>
      var end := RunFrom(Begin(store, missing, workers), evs, plan, acc);
      && |end.store.data| == acc.total && Canonical(end.store.completed)
      && (forall x: nat :: Covers(end.store.completed, x) ==> x < acc.total && end.store.data[x] == Content(acc)[x])
  {
    var t := Begin(store, missing, workers);
    BeginKeepsInv(store, missing, workers, acc);
    BeginMakesProgress(store, missing, workers, plan);
    if ValidRun(t, evs, plan, acc) {
      RunKeepsAll(t, evs, plan, acc, |missing|, ChunkCount(missing, plan.chunkSize));
    }
  }

  /** Success in any state the machine can be in: the whole accepted version,
      exact coverage, no writer left, and exactly the planned requests issued. */
  lemma SuccessAt(t: State, plan: Plan, acc: Accepts, gaps: nat, requests: nat)
    requires plan.chunkSize > 0 && Transfer.Inv(t, acc) && Progress(t, plan, gaps, requests)
    requires Succeeds(t) && t.workers != []
    ensures HasExactCoverage(t.store.completed, acc.total)
    ensures t.store.data == Content(acc)
    ensures t.store.active == map[]
    ensures t.coord.nextId - 1 == requests
  {
    assert Stopped(t.workers[0]) && t.workers[0].Done?;
    assert SomeDone(t.workers);
    NoWritersLeft(t, acc.total);
    forall x: nat ensures Covers(t.store.completed, x) <==> x < acc.total {
      if x < acc.total { assert Located(t, x); }
    }
    FullCoverageIsExact(t.store.completed, acc.total);
  }

  /** A transfer that ends well holds the whole accepted version, passes the
      final coverage check, and issued exactly the planned number of requests. */
  lemma SuccessMeansWholeFile(store: Store, missing: seq<FileRange>, workers: nat, evs: seq<Event>, plan: Plan,
                              acc: Accepts)
    requires plan.chunkSize > 0 && Startable(store, missing, acc) && workers > 0
    requires Transfer.Inv(Begin(store, missing, workers), acc)
    requires ValidRun(Begin(store, missing, workers), evs, plan, acc)
    requires Succeeds(RunFrom(Begin(store, missing, workers), evs, plan, acc))
    ensures var end := RunFrom(Begin(store, missing, workers), evs, plan, acc);
      && HasExactCoverage(end.store.completed, acc.total)
      && end.store.data == Content(acc)
      && end.store.active == map[]
      && end.coord.nextId - 1 == ChunkCount(missing, plan.chunkSize)
      && end.hedges <= 1
  {
    var t := Begin(store, missing, workers);
    BeginMakesProgress(store, missing, workers, plan);
    RunKeepsAll(t, evs, plan, acc, |missing|, ChunkCount(missing, plan.chunkSize));
    SuccessAt(RunFrom(t, evs, plan, acc), plan, acc, |missing|, ChunkCount(missing, plan.chunkSize));
  }

  lemma NoWritersLeft(t: State, total: nat)
    requires Ownership(t, total) && AllStopped(t)
    ensures t.store.active == map[]
  {
    assert forall i :: 0 <= i < |t.workers| ==> Stopped(t.workers[i]) && !Writing(t.workers[i]);
    assert forall a :: a !in t.store.active;
  }

  /** No deadlock: while some worker has not stopped, some step other than
      waiting is enabled, and it makes the measure smaller. */
  lemma NeverDeadlocks(t: State, plan: Plan, acc: Accepts, now: nat) returns (ev: Event)
    requires plan.chunkSize > 0 && Transfer.Inv(t, acc) && !AllStopped(t)
    ensures Enabled(t, ev, plan, acc) && Works(t, ev, plan)
    ensures Measure(Transfer.Apply(t, ev, plan, acc), plan) < Measure(t, plan)
  {
    var i :| 0 <= i < |t.workers| && !Stopped(t.workers[i]);
    var at: nat := i;
    if t.workers[i].Idle? && NextWork(t.coord, plan, t.cancelled, now).1.Wait? {
      EveryChunkIsHeld(t, acc);
      assert t.coord.inFlight.Keys != {};
      var id :| id in t.coord.inFlight;
      at :| 0 <= at < |t.workers| && Holds(t.workers[at], id);
    }
    ev := match t.workers[at]
      case Idle => NextStep(at, now)
      case Fetching(_) => FetchErrorStep(at)
      case Claimed(_, _) => ReserveStep(at)
      case Reserved(_, _, _) => WriteStep(at, Wrote)
      case Filled(_, _) => FinishStep(at)
      case Abandoning(_, _) => DropStep(at)
      case _ => CommitStep(at);
    StepMeasure(t, ev, plan, acc);
  }

  /** Every run of `workers` workers takes a bounded number of steps, starts at
      most one hedge, and keeps few fragments. */
  lemma RunsAreBounded(store: Store, missing: seq<FileRange>, workers: nat, evs: seq<Event>, plan: Plan, acc: Accepts)
    requires plan.chunkSize > 0 && Startable(store, missing, acc)
    requires Transfer.Inv(Begin(store, missing, workers), acc)
    requires ValidRun(Begin(store, missing, workers), evs, plan, acc)
    ensures var t := Begin(store, missing, workers);
      var end := RunFrom(t, evs, plan, acc);
      && WorkSteps(t, evs, plan, acc) <= 10 * ChunkCount(missing, plan.chunkSize) + 10 + workers
      && end.hedges <= 1
      && |end.store.completed| <= workers + |missing| + 1
  {
    var t := Begin(store, missing, workers);
    BeginMakesProgress(store, missing, workers, plan);
    RunKeepsAll(t, evs, plan, acc, |missing|, ChunkCount(missing, plan.chunkSize));
    IdleWeights(workers);
    var end := RunFrom(t, evs, plan, acc);
    FewFragments(end, plan, acc, |missing|, ChunkCount(missing, plan.chunkSize));
  }

  /** A download that starts from an empty file stays far below the limit on
      completed ranges at every checkpoint of that transfer. */
  lemma FreshDownloadStaysCheckpointable(evs: seq<Event>, workers: nat, plan: Plan, acc: Accepts)
    requires plan.chunkSize > 0 && workers <= 8 && acc.total > 0
    requires HasStrongIdentity(acc.validators) && |Content(acc)| == acc.total
    ensures Startable(Created(Some(acc.total)), [Span(0, acc.total)], acc)
    ensures Transfer.Inv(Begin(Created(Some(acc.total)), [Span(0, acc.total)], workers), acc)
    ensures ValidRun(Begin(Created(Some(acc.total)), [Span(0, acc.total)], workers), evs, plan, acc) ==>
      |RunFrom(Begin(Created(Some(acc.total)), [Span(0, acc.total)], workers), evs, plan, acc).store.completed| <= 10
      && 10 <= MAX_COMPLETED_RANGES
  {
    var missing: seq<FileRange> := [Span(0, acc.total)];
    forall x: nat ensures Covers(missing, x) <==> x < acc.total {
      if x < acc.total { assert In(x, missing[0]); }
    }
    BeginKeepsInv(Created(Some(acc.total)), missing, workers, acc);
    if ValidRun(Begin(Created(Some(acc.total)), missing, workers), evs, plan, acc) {
      RunsAreBounded(Created(Some(acc.total)), missing, workers, evs, plan, acc);
    }
  }

  // ---------- Failing and stopping ----------

  /** A failed request ends its worker, and with it the transfer, exactly if nobody
      else fetches or commits its chunk; otherwise the worker looks for other work. */
  lemma FailuresAreFatalExactly(t: State, i: nat, plan: Plan, acc: Accepts)
    requires plan.chunkSize > 0 && Transfer.Inv(t, acc) && Enabled(t, FetchErrorStep(i), plan, acc) && !Stopping(t)
    ensures var next := Transfer.Apply(t, FetchErrorStep(i), plan, acc);
      var id := t.workers[i].work.id;
      var alone := id in t.coord.inFlight && forall j :: 0 <= j < |t.workers| && j != i ==> !Holds(t.workers[j], id);
      && next.workers[i] == (if alone then Failed else Idle)
      && (next.coord.aborted <==> alone)
  {
    var id := t.workers[i].work.id;
    if id in t.coord.inFlight {
      var fetchers := Fetchers(t.workers, id);
      assert i in fetchers && |fetchers| == t.coord.inFlight[id].activeAttempts;
      if t.coord.inFlight[id].phase == Committing {
        var j :| 0 <= j < |t.workers| && Commits(t.workers[j], id);
        assert Holds(t.workers[j], id) && j != i;
      } else {
        AloneExactly(t, i, id);
      }
    }
  }

  lemma AloneExactly(t: State, i: nat, id: nat)
    requires Ids(t) && i < |t.workers| && Fetches(t.workers[i], id)
    requires id in t.coord.inFlight && t.coord.inFlight[id].phase == InFlight
    ensures |Fetchers(t.workers, id)| == 1 <==>
      forall j :: 0 <= j < |t.workers| && j != i ==> !Holds(t.workers[j], id)
  {
    var fetchers := Fetchers(t.workers, id);
    if forall j :: 0 <= j < |t.workers| && j != i ==> !Holds(t.workers[j], id) {
      assert fetchers == {i};
    }
    if |fetchers| == 1 {
      forall j | 0 <= j < |t.workers| && j != i ensures !Holds(t.workers[j], id) {
        if Holds(t.workers[j], id) {
          assert !CommitStage(t.workers[j]);
          assert {i, j} <= fetchers;
          SubsetSize({i, j}, fetchers);
        }
      }
    }
  }

  /** A transfer can be cancelled at any time, and is aborted only after a worker failed. */
  lemma StopsExactly(t: State, plan: Plan, acc: Accepts)
    ensures Enabled(t, CancelStep, plan, acc) && (Enabled(t, AbortStep, plan, acc) <==> SomeFailed(t.workers))
  { }

  predicate Quiet(t: State, next: State, j: nat) {
    && Stopping(next) && |next.workers| == |t.workers| && j < |t.workers|
    && (next.workers[j].Fetching? ==> next.workers[j] == t.workers[j])
    && (CommitStage(next.workers[j]) ==> CommitStage(t.workers[j]) && next.workers[j].work == t.workers[j].work)
    && next.coord.inFlight.Keys <= t.coord.inFlight.Keys && next.coord.pending == t.coord.pending
  }

  lemma RequestsStayQuiet(t: State, ev: Event, plan: Plan, acc: Accepts, j: nat)
    requires plan.chunkSize > 0 && Storage.Inv(t.store) && Enabled(t, ev, plan, acc) && Stopping(t)
    requires j < |t.workers|
    requires ev.NextStep? || ev.SupersededStep? || ev.BodyStep? || ev.FetchErrorStep?
    ensures Quiet(t, Transfer.Apply(t, ev, plan, acc), j)
  { }

  lemma WritersStayQuiet(t: State, ev: Event, plan: Plan, acc: Accepts, j: nat)
    requires plan.chunkSize > 0 && Storage.Inv(t.store) && Enabled(t, ev, plan, acc) && Stopping(t)
    requires j < |t.workers| && (ev.ReserveStep? || ev.WriteStep? || ev.FinishStep? || ev.DropStep?)
    ensures Quiet(t, Transfer.Apply(t, ev, plan, acc), j)
  {
    assert Transfer.Apply(t, ev, plan, acc).coord == t.coord;
  }

  lemma CommitsStayQuiet(t: State, ev: Event, plan: Plan, acc: Accepts, j: nat)
    requires plan.chunkSize > 0 && Storage.Inv(t.store) && Enabled(t, ev, plan, acc) && Stopping(t)
    requires j < |t.workers| && (ev.CommitStep? || ev.CancelStep? || ev.AbortStep?)
    ensures Quiet(t, Transfer.Apply(t, ev, plan, acc), j)
  { }

  /** Once a transfer stops, no worker starts a request or claims a chunk; those that
      hold a claim finish it. */
  lemma StoppingStartsNothing(t: State, ev: Event, plan: Plan, acc: Accepts, j: nat)
    requires plan.chunkSize > 0 && Transfer.Inv(t, acc) && Enabled(t, ev, plan, acc) && Stopping(t)
    requires j < |t.workers|
    ensures Quiet(t, Transfer.Apply(t, ev, plan, acc), j)
  {
    if ev.NextStep? || ev.SupersededStep? || ev.BodyStep? || ev.FetchErrorStep? {
      RequestsStayQuiet(t, ev, plan, acc, j);
    } else if ev.CommitStep? || ev.CancelStep? || ev.AbortStep? {
      CommitsStayQuiet(t, ev, plan, acc, j);
    } else {
      WritersStayQuiet(t, ev, plan, acc, j);
    }
  }
}
