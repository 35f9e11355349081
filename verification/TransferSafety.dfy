/** Every step of every interleaving keeps the transfer invariant. */
module TransferSafety {
  import opened Ranges
  import opened Storage
  import opened Coordinator
  import opened Network
  import opened Transfer

  // ---------- Counting fetchers ----------

  lemma FetchersUpdate(ws: seq<Worker>, i: nat, w: Worker, id: nat)
    requires i < |ws|
    ensures |Fetchers(ws[i := w], id)|
      == |Fetchers(ws, id)| + (if Fetches(w, id) then 1 else 0) - (if Fetches(ws[i], id) then 1 else 0)
  {
    var before, after := Fetchers(ws, id), Fetchers(ws[i := w], id);
    assert after - {i} == before - {i};
    assert |after| == |after - {i}| + if i in after then 1 else 0;
    assert |before| == |before - {i}| + if i in before then 1 else 0;
  }

  /** Attempt accounting after one worker and one chunk counter move together. */
  lemma AttemptsStep(t: State, t': State, i: nat, w: Worker)
    requires Attempts(t) && i < |t.workers| && t'.workers == t.workers[i := w]
    requires Stopping(t) ==> Stopping(t')
    requires forall id :: id in t'.coord.inFlight ==>
      var moved := (if Fetches(w, id) then 1 else 0) - (if Fetches(t.workers[i], id) then 1 else 0);
      var chunk := t'.coord.inFlight[id];
      if id in t.coord.inFlight then
        && (chunk.activeAttempts == t.coord.inFlight[id].activeAttempts + moved
            || (Stopping(t') && chunk.activeAttempts >= t.coord.inFlight[id].activeAttempts + moved)
            || (moved == -1 && t.coord.inFlight[id].activeAttempts == 0))
        && (!Stopping(t') && chunk.phase == InFlight ==> chunk.activeAttempts >= 1)
      else
        chunk.activeAttempts == 1 && |Fetchers(t.workers, id)| == 0 && moved == 1
    ensures Attempts(t')
  {
    forall id | id in t'.coord.inFlight
      ensures |Fetchers(t'.workers, id)| <= t'.coord.inFlight[id].activeAttempts
      ensures !Stopping(t') ==> |Fetchers(t'.workers, id)| == t'.coord.inFlight[id].activeAttempts
    {
      FetchersUpdate(t.workers, i, w, id);
    }
  }

  // ---------- next_work ----------

  lemma QuietStepKeeps(t: State, i: nat, w: Worker, acc: Accepts)
    requires Transfer.Inv(t, acc) && i < |t.workers| && !HasWork(t.workers[i]) && !HasWork(w)
    ensures Transfer.Inv(SetWorker(t, i, w), acc)
  {
    var t' := SetWorker(t, i, w);
    AttemptsStep(t, t', i, w);
    SameStored(t, t', i);
    RegionsKept(t, t', acc.total);
    StoreSideKept(t, t', i, acc);
    CommittersKept(t, t', i);
  }

  /** The storage side sees only workers in the commit stage. */
  lemma StoreSideKept(t: State, t': State, i: nat, acc: Accepts)
    requires HasStrongIdentity(acc.validators)
    requires Ownership(t, acc.total) && Correct(t, Content(acc)) && i < |t.workers|
    requires t'.store == t.store && |t'.workers| == |t.workers|
    requires forall j :: 0 <= j < |t.workers| && j != i ==> t'.workers[j] == t.workers[j]
    requires !CommitStage(t.workers[i]) && !CommitStage(t'.workers[i])
    ensures Ownership(t', acc.total) && Correct(t', Content(acc))
  {
    var store := t.store;
    assert Storage.Inv(store);
    WritersKept(t, t', i);
    CorrectKept(t, t', i, Content(acc));
  }

  lemma CorrectKept(t: State, t': State, i: nat, content: seq<Byte>)
    requires Correct(t, content) && i < |t.workers|
    requires t'.store == t.store && |t'.workers| == |t.workers|
    requires forall j :: 0 <= j < |t.workers| && j != i ==> t'.workers[j] == t.workers[j]
    requires !CommitStage(t'.workers[i])
    ensures Correct(t', content)
  { }

  /** Replacing a worker outside Stored by one outside Stored moves no chunk. */
  lemma SameStored(t: State, t': State, i: nat)
    requires i < |t.workers| && |t'.workers| == |t.workers|
    requires forall j :: 0 <= j < |t.workers| && j != i ==> t'.workers[j] == t.workers[j]
    requires !t.workers[i].Stored? && !t'.workers[i].Stored?
    ensures forall id :: StoredChunk(t'.workers, id) <==> StoredChunk(t.workers, id)
  {
    forall id ensures StoredChunk(t'.workers, id) <==> StoredChunk(t.workers, id) {
      if StoredChunk(t.workers, id) {
        var j :| 0 <= j < |t.workers| && StoredAs(t.workers[j], id);
        assert StoredAs(t'.workers[j], id);
      }
      if StoredChunk(t'.workers, id) {
        var j :| 0 <= j < |t'.workers| && StoredAs(t'.workers[j], id);
        assert StoredAs(t.workers[j], id);
      }
    }
  }

  lemma WritersKept(t: State, t': State, i: nat)
    requires i < |t.workers| && |t'.workers| == |t.workers|
    requires forall j :: 0 <= j < |t.workers| && j != i ==> t'.workers[j] == t.workers[j]
    requires Writing(t.workers[i]) ==> Writing(t'.workers[i]) && t'.workers[i].writer == t.workers[i].writer
    requires forall a :: a in t.store.active ==> exists j :: 0 <= j < |t.workers| && WritesAs(t.workers[j], a)
    ensures forall a :: a in t.store.active ==> exists j :: 0 <= j < |t'.workers| && WritesAs(t'.workers[j], a)
  {
    forall a | a in t.store.active ensures exists j :: 0 <= j < |t'.workers| && WritesAs(t'.workers[j], a) {
      var j :| 0 <= j < |t.workers| && WritesAs(t.workers[j], a);
      assert WritesAs(t'.workers[j], a);
    }
  }

  lemma NoFetchersOfNewId(t: State)
    requires Ids(t)
    ensures Fetchers(t.workers, t.coord.nextId) == {}
  { }

  lemma FreshWorkKeeps(t: State, i: nat, now: nat, plan: Plan, acc: Accepts)
    requires plan.chunkSize > 0 && Transfer.Inv(t, acc) && i < |t.workers| && t.workers[i].Idle?
    requires !Stopping(t) && t.coord.pending != []
    ensures Transfer.Inv(ApplyNext(t, i, now, plan), acc)
  {
    var t' := ApplyNext(t, i, now, plan);
    NoFetchersOfNewId(t);
    AttemptsStep(t, t', i, t'.workers[i]);
    StoreSideKept(t, t', i, acc);
    FreshWorkRegions(t, i, now, plan, acc.total);
    FreshWorkIds(t, i, now, plan);
  }

  lemma FreshWorkIds(t: State, i: nat, now: nat, plan: Plan)
    requires plan.chunkSize > 0 && Ids(t) && i < |t.workers| && t.workers[i].Idle?
    requires !Stopping(t) && t.coord.pending != []
    ensures Ids(ApplyNext(t, i, now, plan))
  {
    CommittersKept(t, ApplyNext(t, i, now, plan), i);
  }

  lemma FreshWorkRegions(t: State, i: nat, now: nat, plan: Plan, total: nat)
    requires plan.chunkSize > 0 && Ids(t) && Regions(t, total) && i < |t.workers| && t.workers[i].Idle?
    requires !Stopping(t) && t.coord.pending != []
    ensures Regions(ApplyNext(t, i, now, plan), total)
  {
    var t' := ApplyNext(t, i, now, plan);
    var id := t.coord.nextId;
    var (range, rest) := PopChunk(t.coord.pending, plan.chunkSize);
    PopChunkSplits(t.coord.pending, plan.chunkSize);
    SameStored(t, t', i);
    DisjointByBytes(rest, range);
    forall x: nat, a ensures Chunked(t'.coord, x, a) <==> Chunked(t.coord, x, a) || (a == id && In(x, range)) { }
    assert !StoredChunk(t'.workers, id);
    forall x: nat | x < total ensures Located(t', x) {
      assert Located(t, x);
      if In(x, range) { assert Chunked(t'.coord, x, id); }
      if a :| Chunked(t.coord, x, a) { assert Chunked(t'.coord, x, a); }
    }
  }

  lemma DisjointByBytes(rs: seq<FileRange>, r: FileRange)
    requires DisjointFrom(rs, r)
    ensures forall x: nat :: In(x, r) ==> !Covers(rs, x)
  { DisjointMeansUncovered(rs, r); }

  lemma CommittersKept(t: State, t': State, i: nat)
    requires Ids(t) && i < |t.workers| && |t'.workers| == |t.workers|
    requires forall j :: 0 <= j < |t.workers| && j != i ==> t'.workers[j] == t.workers[j]
    requires CommitStage(t.workers[i]) ==> CommitStage(t'.workers[i]) && t'.workers[i].work == t.workers[i].work
    ensures forall id :: id in t.coord.inFlight && t.coord.inFlight[id].phase == Committing ==>
      exists j :: 0 <= j < |t'.workers| && Commits(t'.workers[j], id)
  {
    forall id | id in t.coord.inFlight && t.coord.inFlight[id].phase == Committing
      ensures exists j :: 0 <= j < |t'.workers| && Commits(t'.workers[j], id)
    {
      var j :| 0 <= j < |t.workers| && Commits(t.workers[j], id);
      assert Commits(t'.workers[j], id);
    }
  }

  /** A counter or phase change of one chunk leaves the byte map alone. */
  lemma RegionsKept(t: State, t': State, total: nat)
    requires Regions(t, total)
    requires t'.coord.pending == t.coord.pending && t'.lost == t.lost && t'.store.completed == t.store.completed
    requires t'.coord.inFlight.Keys == t.coord.inFlight.Keys
    requires forall id :: id in t.coord.inFlight ==> t'.coord.inFlight[id].range == t.coord.inFlight[id].range
    requires forall id :: id in t.coord.inFlight ==> (StoredChunk(t'.workers, id) <==> StoredChunk(t.workers, id))
    ensures Regions(t', total)
  {
    forall x: nat, id ensures Chunked(t'.coord, x, id) <==> Chunked(t.coord, x, id) { }
    forall x: nat | x < total ensures Located(t', x) {
      assert Located(t, x);
      if id :| Chunked(t.coord, x, id) { assert Chunked(t'.coord, x, id); }
    }
  }

  lemma HedgeKeeps(t: State, i: nat, now: nat, plan: Plan, acc: Accepts)
    requires plan.chunkSize > 0 && Transfer.Inv(t, acc) && i < |t.workers| && t.workers[i].Idle?
    requires t.coord.pending == [] && NextWork(t.coord, plan, t.cancelled, now).1.Take?
    ensures Transfer.Inv(ApplyNext(t, i, now, plan), acc)
  {
    var t' := ApplyNext(t, i, now, plan);
    AttemptsStep(t, t', i, t'.workers[i]);
    SameStored(t, t', i);
    StoreSideKept(t, t', i, acc);
    RegionsKept(t, t', acc.total);
    SameChunksIds(t, t', i);
  }

  /** Ids survive a step that moves one worker outside the commit stage and only
      counts attempts. */
  lemma SameChunksIds(t: State, t': State, i: nat)
    requires Ids(t) && i < |t.workers| && |t'.workers| == |t.workers| && t'.coord.nextId == t.coord.nextId
    requires forall j :: 0 <= j < |t.workers| && j != i ==> t'.workers[j] == t.workers[j]
    requires !CommitStage(t.workers[i]) && !CommitStage(t'.workers[i])
    requires t'.coord.inFlight.Keys == t.coord.inFlight.Keys
    requires forall id :: id in t.coord.inFlight ==>
      t'.coord.inFlight[id].range == t.coord.inFlight[id].range
        && t'.coord.inFlight[id].phase == t.coord.inFlight[id].phase
    requires HasWork(t'.workers[i]) ==>
      (t'.workers[i].work.id in t.coord.inFlight
       && t.coord.inFlight[t'.workers[i].work.id].range == t'.workers[i].work.range)
    ensures Ids(t')
  {
    CommittersKept(t, t', i);
  }

  lemma NextKeeps(t: State, i: nat, now: nat, plan: Plan, acc: Accepts)
    requires plan.chunkSize > 0 && Transfer.Inv(t, acc) && i < |t.workers| && t.workers[i].Idle?
    ensures Transfer.Inv(ApplyNext(t, i, now, plan), acc)
  {
    var (coord, outcome) := NextWork(t.coord, plan, t.cancelled, now);
    match outcome
    case Stop => QuietStepKeeps(t, i, Done, acc);
    case Wait(_) =>
    case Take(work) =>
      if t.coord.pending != [] { FreshWorkKeeps(t, i, now, plan, acc); } else { HedgeKeeps(t, i, now, plan, acc); }
  }

  // ---------- Outcomes of a request ----------

  lemma SupersededKeeps(t: State, i: nat, acc: Accepts)
    requires Transfer.Inv(t, acc) && i < |t.workers| && t.workers[i].Fetching?
    requires ShouldCancel(t.coord, t.cancelled, t.workers[i].work.id)
    ensures Transfer.Inv(SetWorker(t, i, Idle).(coord := FinishSuperseded(t.coord, t.workers[i].work.id)), acc)
  {
    var t' := SetWorker(t, i, Idle).(coord := FinishSuperseded(t.coord, t.workers[i].work.id));
    assert t'.coord.inFlight.Keys == t.coord.inFlight.Keys;
    AttemptsStep(t, t', i, Idle);
    SameStored(t, t', i);
    StoreSideKept(t, t', i, acc);
    RegionsKept(t, t', acc.total);
    SameChunksIds(t, t', i);
  }

  lemma FetchErrorKeeps(t: State, i: nat, acc: Accepts)
    requires Transfer.Inv(t, acc) && i < |t.workers| && t.workers[i].Fetching?
    requires !FinishFailedAttempt(t.coord, t.workers[i].work.id).1
    ensures Transfer.Inv(SetWorker(t, i, Idle).(coord := FinishFailedAttempt(t.coord, t.workers[i].work.id).0), acc)
  {
    var t' := SetWorker(t, i, Idle).(coord := FinishFailedAttempt(t.coord, t.workers[i].work.id).0);
    assert t'.coord.inFlight.Keys == t.coord.inFlight.Keys;
    AttemptsStep(t, t', i, Idle);
    SameStored(t, t', i);
    StoreSideKept(t, t', i, acc);
    RegionsKept(t, t', acc.total);
    SameChunksIds(t, t', i);
  }

  lemma NotStoredWhileInFlight(t: State, id: nat)
    requires Ids(t) && id in t.coord.inFlight && t.coord.inFlight[id].phase == InFlight
    ensures !StoredChunk(t.workers, id)
  { }

  /** Removing a chunk that no worker stored gives its bytes up. */
  lemma GiveUpRegions(t: State, t': State, id: nat, total: nat)
    requires Regions(t, total) && id in t.coord.inFlight && !StoredChunk(t.workers, id)
    requires t'.coord.inFlight == t.coord.inFlight - {id} && t'.coord.pending == t.coord.pending
    requires t'.lost == t.lost + [t.coord.inFlight[id].range] && t'.store.completed == t.store.completed
    requires forall a :: a != id ==> (StoredChunk(t'.workers, a) <==> StoredChunk(t.workers, a))
    ensures Regions(t', total)
  {
    var range := t.coord.inFlight[id].range;
    forall x: nat ensures Covers(t'.lost, x) <==> Covers(t.lost, x) || In(x, range) { CoversAppend(t.lost, range, x); }
    forall x: nat ensures In(x, range) <==> Chunked(t.coord, x, id) { }
    forall x: nat, a ensures Chunked(t'.coord, x, a) <==> Chunked(t.coord, x, a) && a != id { }
    forall x: nat | x < total ensures Located(t', x) {
      assert Located(t, x);
      if a :| Chunked(t.coord, x, a) { if a != id { assert Chunked(t'.coord, x, a); } }
    }
  }

  lemma FatalErrorKeeps(t: State, i: nat, acc: Accepts)
    requires Transfer.Inv(t, acc) && i < |t.workers| && t.workers[i].Fetching?
    requires FinishFailedAttempt(t.coord, t.workers[i].work.id).1
    ensures Transfer.Inv(SetWorker(t, i, Failed).(coord := FinishFailedAttempt(t.coord, t.workers[i].work.id).0,
      lost := t.lost + [t.workers[i].work.range]), acc)
  {
    var id := t.workers[i].work.id;
    var t' := SetWorker(t, i, Failed).(coord := FinishFailedAttempt(t.coord, id).0,
      lost := t.lost + [t.workers[i].work.range]);
    AttemptsStep(t, t', i, Failed);
    SameStored(t, t', i);
    StoreSideKept(t, t', i, acc);
    NotStoredWhileInFlight(t, id);
    GiveUpRegions(t, t', id, acc.total);
    CommittersKept(t, t', i);
  }

  lemma LostClaimKeeps(t: State, i: nat, acc: Accepts)
    requires Transfer.Inv(t, acc) && i < |t.workers| && t.workers[i].Fetching?
    requires !ClaimCommit(t.coord, t.cancelled, t.workers[i].work.id).1
    ensures Transfer.Inv(SetWorker(t, i, Idle).(coord := ClaimCommit(t.coord, t.cancelled, t.workers[i].work.id).0),
      acc)
  {
    var t' := SetWorker(t, i, Idle).(coord := ClaimCommit(t.coord, t.cancelled, t.workers[i].work.id).0);
    assert t'.coord.inFlight.Keys == t.coord.inFlight.Keys;
    AttemptsStep(t, t', i, Idle);
    SameStored(t, t', i);
    StoreSideKept(t, t', i, acc);
    RegionsKept(t, t', acc.total);
    SameChunksIds(t, t', i);
  }

  lemma ClaimKeeps(t: State, i: nat, response: Response, acc: Accepts)
    requires Transfer.Inv(t, acc) && i < |t.workers| && t.workers[i].Fetching?
    requires Honest(acc.server, response)
    requires Accepted(response, t.workers[i].work.range, acc.total, acc.validators, acc.isDate)
    requires ClaimCommit(t.coord, t.cancelled, t.workers[i].work.id).1
    ensures Transfer.Inv(SetWorker(t, i, Claimed(t.workers[i].work, response.body))
      .(coord := ClaimCommit(t.coord, t.cancelled, t.workers[i].work.id).0), acc)
  {
    var work := t.workers[i].work;
    var t' := SetWorker(t, i, Claimed(work, response.body)).(coord := ClaimCommit(t.coord, t.cancelled, work.id).0);
    assert t'.coord.inFlight.Keys == t.coord.inFlight.Keys;
    AttemptsStep(t, t', i, t'.workers[i]);
    SameStored(t, t', i);
    RegionsKept(t, t', acc.total);
    AcceptedBodyIsSlice(acc.server, response, work.range, acc.total, acc.validators, acc.isDate);
    ClaimOwnership(t, t', i, acc);
    ClaimIds(t, t', i);
  }

  lemma ClaimOwnership(t: State, t': State, i: nat, acc: Accepts)
    requires HasStrongIdentity(acc.validators)
    requires Ownership(t, acc.total) && Correct(t, Content(acc)) && i < |t.workers| && t.workers[i].Fetching?
    requires t'.store == t.store && |t'.workers| == |t.workers| && t'.workers[i].Claimed?
    requires forall j :: 0 <= j < |t.workers| && j != i ==> t'.workers[j] == t.workers[j]
    requires t'.workers[i].work.range.end <= |Content(acc)|
    requires t'.workers[i].body == Content(acc)[t'.workers[i].work.range.start..t'.workers[i].work.range.end]
    ensures Ownership(t', acc.total) && Correct(t', Content(acc))
  {
    var store := t.store;
    assert Storage.Inv(store);
    WritersKept(t, t', i);
    ClaimCorrect(t, t', i, Content(acc));
  }

  lemma ClaimCorrect(t: State, t': State, i: nat, content: seq<Byte>)
    requires Correct(t, content) && i < |t.workers|
    requires t'.store == t.store && |t'.workers| == |t.workers| && t'.workers[i].Claimed?
    requires forall j :: 0 <= j < |t.workers| && j != i ==> t'.workers[j] == t.workers[j]
    requires t'.workers[i].work.range.end <= |content|
    requires t'.workers[i].body == content[t'.workers[i].work.range.start..t'.workers[i].work.range.end]
    ensures Correct(t', content)
  { }

  lemma ClaimIds(t: State, t': State, i: nat)
    requires Ids(t) && i < |t.workers| && t.workers[i].Fetching?
    requires ClaimCommit(t.coord, t.cancelled, t.workers[i].work.id).1
    requires t'.coord == ClaimCommit(t.coord, t.cancelled, t.workers[i].work.id).0
    requires |t'.workers| == |t.workers| && t'.workers == t.workers[i := t'.workers[i]]
    requires t'.workers[i].Claimed? && t'.workers[i].work == t.workers[i].work
    ensures Ids(t')
  {
    CommittersKept(t, t', i);
    assert Commits(t'.workers[i], t.workers[i].work.id);
  }

  // ---------- Commit ----------

  lemma ChunksDisjoint(t: State, a: nat, b: nat, total: nat)
    requires Regions(t, total) && a in t.coord.inFlight && b in t.coord.inFlight && a != b
    ensures !Overlaps(t.coord.inFlight[a].range, t.coord.inFlight[b].range)
  {
    var p, q := t.coord.inFlight[a].range, t.coord.inFlight[b].range;
    var low := if p.start < q.start then q.start else p.start;
    assert Overlaps(p, q) ==> Chunked(t.coord, low, a) && Chunked(t.coord, low, b);
  }

  lemma UniqueCommitter(t: State, i: nat)
    requires Ids(t) && i < |t.workers| && CommitStage(t.workers[i]) && !t.workers[i].Stored?
    ensures !StoredChunk(t.workers, t.workers[i].work.id)
  { }

  /** A worker that won its claim is never refused its range by storage. */
  lemma AssignAlwaysSucceeds(t: State, i: nat, acc: Accepts)
    requires Transfer.Inv(t, acc) && i < |t.workers| && t.workers[i].Claimed?
    ensures Assign(t.store, t.workers[i].work.range).Ok?
  {
    ClaimedIsUncovered(t, i, acc.total);
    DisjointMeansUncovered(t.store.completed, t.workers[i].work.range);
    ClaimedIsUnowned(t, i, acc.total);
  }

  /** The bytes of a claimed or reserved range are not stored yet. */
  lemma ClaimedIsUncovered(t: State, i: nat, total: nat)
    requires Ids(t) && Regions(t, total) && i < |t.workers| && CommitStage(t.workers[i]) && !t.workers[i].Stored?
    ensures forall x: nat :: In(x, t.workers[i].work.range) ==> !Covers(t.store.completed, x)
    ensures t.workers[i].work.range.end <= total
  {
    var work := t.workers[i].work;
    assert t.coord.inFlight[work.id].range == work.range;
    assert Chunked(t.coord, work.range.end - 1, work.id);
    UniqueCommitter(t, i);
    forall x: nat | In(x, work.range) ensures !Covers(t.store.completed, x) { assert Chunked(t.coord, x, work.id); }
  }

  lemma ClaimedIsUnowned(t: State, i: nat, total: nat)
    requires Ids(t) && Regions(t, total) && Ownership(t, total) && i < |t.workers| && t.workers[i].Claimed?
    ensures forall a :: a in t.store.active ==> !Overlaps(t.workers[i].work.range, t.store.active[a].range)
  {
    forall a | a in t.store.active ensures !Overlaps(t.workers[i].work.range, t.store.active[a].range) {
      var j :| 0 <= j < |t.workers| && WritesAs(t.workers[j], a);
      OwnedElsewhere(t, i, j, a, total);
    }
  }

  lemma OwnedElsewhere(t: State, i: nat, j: nat, a: nat, total: nat)
    requires Ids(t) && Regions(t, total) && i < |t.workers| && j < |t.workers| && t.workers[i].Claimed?
    requires a in t.store.active && WritesAs(t.workers[j], a) && WriterOpen(t.workers[j], t.store.active)
    ensures !Overlaps(t.workers[i].work.range, t.store.active[a].range)
  {
    CommittersDisjoint(t, i, j, total);
  }

  /** Two workers in the commit stage hold different chunks, hence disjoint ranges. */
  lemma CommittersDisjoint(t: State, i: nat, j: nat, total: nat)
    requires Ids(t) && Regions(t, total) && i < |t.workers| && j < |t.workers| && i != j
    requires CommitStage(t.workers[i]) && CommitStage(t.workers[j])
    ensures t.workers[i].work.id != t.workers[j].work.id
    ensures !Overlaps(t.workers[i].work.range, t.workers[j].work.range)
  {
    ChunksDisjoint(t, t.workers[i].work.id, t.workers[j].work.id, total);
  }

  /** The same committer moving on keeps ids, attempts and (unless it stores) regions. */
  lemma CommitterMoves(t: State, t': State, i: nat, total: nat)
    requires Ids(t) && Attempts(t) && Regions(t, total) && i < |t.workers|
    requires CommitStage(t.workers[i]) && !t.workers[i].Stored?
    requires t'.coord == t.coord && t'.cancelled == t.cancelled && t'.lost == t.lost
    requires |t'.workers| == |t.workers| && t'.workers == t.workers[i := t'.workers[i]]
    requires CommitStage(t'.workers[i]) && t'.workers[i].work == t.workers[i].work
    ensures Ids(t') && Attempts(t')
    ensures !t'.workers[i].Stored? && t'.store.completed == t.store.completed ==> Regions(t', total)
  {
    CommittersKept(t, t', i);
    AttemptsStep(t, t', i, t'.workers[i]);
    if !t'.workers[i].Stored? && t'.store.completed == t.store.completed {
      SameStored(t, t', i);
      RegionsKept(t, t', total);
    }
  }

  lemma ReserveKeeps(t: State, i: nat, acc: Accepts)
    requires Transfer.Inv(t, acc) && i < |t.workers| && t.workers[i].Claimed?
    requires Assign(t.store, t.workers[i].work.range).Ok?
    ensures var r := Assign(t.store, t.workers[i].work.range).value;
      Transfer.Inv(SetWorker(t, i, Reserved(t.workers[i].work, t.workers[i].body, r.1)).(store := r.0), acc)
  {
    var r := Assign(t.store, t.workers[i].work.range).value;
    var t' := SetWorker(t, i, Reserved(t.workers[i].work, t.workers[i].body, r.1)).(store := r.0);
    CommitterMoves(t, t', i, acc.total);
    AssignKeepsInv(t.store, t.workers[i].work.range);
    ReserveOwnership(t, t', i, acc.total);
    ReserveCorrect(t, t', i, Content(acc));
  }

  lemma ReserveOwnership(t: State, t': State, i: nat, total: nat)
    requires Ownership(t, total) && i < |t.workers| && t.workers[i].Claimed?
    requires Assign(t.store, t.workers[i].work.range).Ok?
    requires |t'.workers| == |t.workers|
    requires t' == SetWorker(t, i, t'.workers[i]).(store := Assign(t.store, t.workers[i].work.range).value.0)
    requires t'.workers[i] == Reserved(t.workers[i].work, t.workers[i].body, t.store.nextId)
    requires Storage.Inv(t'.store)
    ensures Ownership(t', total)
  {
    forall a | a in t'.store.active ensures exists j :: 0 <= j < |t'.workers| && WritesAs(t'.workers[j], a) {
      if a == t.store.nextId {
        assert WritesAs(t'.workers[i], a);
      } else {
        var j :| 0 <= j < |t.workers| && WritesAs(t.workers[j], a);
        assert WritesAs(t'.workers[j], a);
      }
    }
  }

  lemma ReserveCorrect(t: State, t': State, i: nat, content: seq<Byte>)
    requires Correct(t, content) && i < |t.workers| && t.workers[i].Claimed?
    requires |t'.workers| == |t.workers| && t'.workers == t.workers[i := t'.workers[i]]
    requires t'.workers[i].Reserved? && t'.workers[i].work == t.workers[i].work
    requires t'.workers[i].body == t.workers[i].body
    requires t'.store.data == t.store.data && t'.store.completed == t.store.completed
    ensures Correct(t', content)
  { }

  lemma WriteKeeps(t: State, i: nat, io: WriteIo, acc: Accepts)
    requires Transfer.Inv(t, acc) && i < |t.workers| && t.workers[i].Reserved?
    ensures var w := t.workers[i];
      var (store, result) := SegmentWrite(t.store, w.writer, w.body, io);
      var after := if result.Ok? then Filled(w.work, w.writer) else Abandoning(w.work, w.writer);
      Transfer.Inv(SetWorker(t, i, after).(store := store), acc)
  {
    var w := t.workers[i];
    var (store, result) := SegmentWrite(t.store, w.writer, w.body, io);
    var after := if result.Ok? then Filled(w.work, w.writer) else Abandoning(w.work, w.writer);
    var t' := SetWorker(t, i, after).(store := store);
    CommitterMoves(t, t', i, acc.total);
    WriteKeepsInv(t.store, w.writer, w.body, io);
    WriteOutcome(t.store, w.writer, w.body, io);
    OtherWritersKept(t, t', i, acc.total);
    WriteCorrect(t, t', i, acc);
  }

  lemma WriteOutcome(s: Store, id: nat, bytes: seq<Byte>, io: WriteIo)
    requires Storage.Inv(s) && id in s.active && s.lifecycle == Active
    requires s.active[id].nextOffset == s.active[id].range.start && |bytes| == Len(s.active[id].range)
    ensures var (after, result) := SegmentWrite(s, id, bytes, io);
      && (result.Ok? <==> io.Wrote?)
      && |after.data| == |s.data| && after.completed == s.completed && after.lifecycle == Active
      && after.expectedLen == s.expectedLen
      && after.active.Keys == s.active.Keys && after.active[id].range == s.active[id].range
      && (forall k :: k in s.active && k != id ==> after.active[k] == s.active[k])
      && (result.Ok? ==>
            && after.active[id].nextOffset == s.active[id].range.end
            && after.data[s.active[id].range.start..s.active[id].range.end] == bytes)
      && (forall x: nat :: x < |s.data| && !In(x, s.active[id].range) ==> after.data[x] == s.data[x])
  {
    var kept := if io.Wrote? then bytes else if |io.left| <= |bytes| then io.left else io.left[..|bytes|];
    WriteKeepsOthers(s.data, s.active[id].nextOffset, kept);
  }

  lemma OtherWritersKept(t: State, t': State, i: nat, total: nat)
    requires Ownership(t, total) && Ids(t) && Regions(t, total) && i < |t.workers| && t.workers[i].Reserved?
    requires |t'.workers| == |t.workers| && t'.workers == t.workers[i := t'.workers[i]]
    requires Storage.Inv(t'.store) && t'.store.lifecycle == Active && t'.store.expectedLen == t.store.expectedLen
    requires t'.store.active.Keys == t.store.active.Keys
    requires var id := t.workers[i].writer;
      && t'.store.active[id].range == t.store.active[id].range
      && (forall k :: k in t.store.active && k != id ==> t'.store.active[k] == t.store.active[k])
      && (t'.workers[i].Filled? ==> t'.store.active[id].nextOffset == t.store.active[id].range.end)
    requires Writing(t'.workers[i]) && !t'.workers[i].Reserved?
    requires t'.workers[i].work == t.workers[i].work && t'.workers[i].writer == t.workers[i].writer
    ensures Ownership(t', total)
  {
    forall j | 0 <= j < |t.workers| ensures WriterOpen(t'.workers[j], t'.store.active) {
      assert WriterOpen(t.workers[j], t.store.active);
      if j != i && Writing(t.workers[j]) { WritersDiffer(t, i, j, total); }
    }
    OwnersKept(t, t', i);
  }

  lemma OwnersKept(t: State, t': State, i: nat)
    requires i < |t.workers| == |t'.workers| && t'.workers == t.workers[i := t'.workers[i]]
    requires t'.store.active.Keys == t.store.active.Keys
    requires forall a :: WritesAs(t.workers[i], a) ==> WritesAs(t'.workers[i], a)
    requires forall a :: a in t.store.active ==> exists j :: 0 <= j < |t.workers| && WritesAs(t.workers[j], a)
    ensures forall a :: a in t'.store.active ==> exists j :: 0 <= j < |t'.workers| && WritesAs(t'.workers[j], a)
  {
    forall a | a in t'.store.active ensures exists j :: 0 <= j < |t'.workers| && WritesAs(t'.workers[j], a) {
      var j :| 0 <= j < |t.workers| && WritesAs(t.workers[j], a);
      assert WritesAs(t'.workers[j], a);
    }
  }

  lemma WritersDiffer(t: State, i: nat, j: nat, total: nat)
    requires Ownership(t, total) && Ids(t) && Regions(t, total)
    requires i < |t.workers| && j < |t.workers| && i != j && Writing(t.workers[i]) && Writing(t.workers[j])
    ensures t.workers[i].writer != t.workers[j].writer
    ensures !Overlaps(t.workers[i].work.range, t.workers[j].work.range)
  {
    assert WriterOpen(t.workers[i], t.store.active) && WriterOpen(t.workers[j], t.store.active);
    CommittersDisjoint(t, i, j, total);
    assert Overlaps(t.workers[i].work.range, t.workers[i].work.range);
  }

  lemma WriteCorrect(t: State, t': State, i: nat, acc: Accepts)
    requires Transfer.Inv(t, acc) && i < |t.workers| && t.workers[i].Reserved?
    requires |t'.workers| == |t.workers| && t'.workers == t.workers[i := t'.workers[i]]
    requires t'.workers[i].Filled? || t'.workers[i].Abandoning?
    requires t'.workers[i].work == t.workers[i].work
    requires t'.store.completed == t.store.completed && |t'.store.data| == |t.store.data|
    requires var range := t.workers[i].work.range;
      && (forall x: nat :: x < |t.store.data| && !In(x, range) ==> t'.store.data[x] == t.store.data[x])
      && range.end <= |t.store.data|
      && (t'.workers[i].Filled? ==> t'.store.data[range.start..range.end] == t.workers[i].body)
    ensures Correct(t', Content(acc))
  {
    var content, work := Content(acc), t.workers[i].work;
    UniqueCommitter(t, i);
    forall x: nat | x < |content| && Covers(t'.store.completed, x) ensures t'.store.data[x] == content[x] {
      if In(x, work.range) { assert Chunked(t.coord, x, work.id); }
    }
    forall j | 0 <= j < |t'.workers| && t'.workers[j].Filled?
      ensures t'.workers[j].work.range.end <= |content|
      ensures forall x: nat :: In(x, t'.workers[j].work.range) ==> t'.store.data[x] == content[x]
    {
      if j == i { OwnBytesCorrect(t'.store.data, content, work.range, t.workers[i].body); }
      else { OthersBytesCorrect(t, t', i, j, acc); }
    }
  }

  lemma OwnBytesCorrect(data: seq<Byte>, content: seq<Byte>, range: FileRange, body: seq<Byte>)
    requires range.end <= |content| == |data|
    requires data[range.start..range.end] == body == content[range.start..range.end]
    ensures forall x: nat :: In(x, range) ==> data[x] == content[x]
  {
    forall x: nat | In(x, range) ensures data[x] == content[x] {
      assert data[range.start..range.end][x - range.start] == content[range.start..range.end][x - range.start];
    }
  }

  lemma OthersBytesCorrect(t: State, t': State, i: nat, j: nat, acc: Accepts)
    requires Transfer.Inv(t, acc) && i < |t.workers| && j < |t.workers| && i != j
    requires t.workers[i].Reserved? && t.workers[j].Filled?
    requires |t'.store.data| == |t.store.data|
    requires forall x: nat :: x < |t.store.data| && !In(x, t.workers[i].work.range) ==>
      t'.store.data[x] == t.store.data[x]
    ensures t.workers[j].work.range.end <= |Content(acc)|
    ensures forall x: nat :: In(x, t.workers[j].work.range) ==> t'.store.data[x] == Content(acc)[x]
  {
    WritersDiffer(t, i, j, acc.total);
    forall x: nat | In(x, t.workers[j].work.range) ensures t'.store.data[x] == Content(acc)[x] {
      assert !In(x, t.workers[i].work.range);
    }
  }

  lemma FinishAlwaysSucceeds(t: State, i: nat, acc: Accepts)
    requires Transfer.Inv(t, acc) && i < |t.workers| && t.workers[i].Filled?
    ensures SegmentFinish(t.store, t.workers[i].writer).Ok?
  { }

  lemma FinishKeeps(t: State, i: nat, acc: Accepts)
    requires Transfer.Inv(t, acc) && i < |t.workers| && t.workers[i].Filled?
    requires SegmentFinish(t.store, t.workers[i].writer).Ok?
    ensures Transfer.Inv(SetWorker(t, i, Stored(t.workers[i].work))
      .(store := SegmentFinish(t.store, t.workers[i].writer).value), acc)
  {
    var w := t.workers[i];
    var store := SegmentFinish(t.store, w.writer).value;
    var t' := SetWorker(t, i, Stored(w.work)).(store := store);
    CommitterMoves(t, t', i, acc.total);
    FinishKeepsInv(t.store, w.writer);
    FinishRegions(t, t', i, acc.total);
    ReleaseOwnership(t, t', i, acc.total);
    FinishCorrect(t, t', i, Content(acc));
  }

  lemma FinishRegions(t: State, t': State, i: nat, total: nat)
    requires Ids(t) && Regions(t, total) && i < |t.workers| && t.workers[i].Filled?
    requires t'.workers == t.workers[i := Stored(t.workers[i].work)] && t'.coord == t.coord && t'.lost == t.lost
    requires forall x: nat :: Covers(t'.store.completed, x) <==>
      Covers(t.store.completed, x) || In(x, t.workers[i].work.range)
    ensures Regions(t', total)
  {
    var work := t.workers[i].work;
    assert t.coord.inFlight[work.id].range == work.range;
    forall id ensures StoredChunk(t'.workers, id) <==> StoredChunk(t.workers, id) || id == work.id {
      StoredAfter(t.workers, i, work, id);
    }
    UniqueCommitter(t, i);
    forall x: nat ensures In(x, work.range) <==> Chunked(t.coord, x, work.id) { }
    forall x: nat, id ensures Chunked(t'.coord, x, id) <==> Chunked(t.coord, x, id) { }
    forall x: nat | x < total ensures Located(t', x) {
      assert Located(t, x);
      if a :| Chunked(t.coord, x, a) { assert Chunked(t'.coord, x, a); }
    }
  }

  lemma StoredAfter(ws: seq<Worker>, i: nat, work: Work, id: nat)
    requires i < |ws| && !ws[i].Stored?
    ensures StoredChunk(ws[i := Stored(work)], id) <==> StoredChunk(ws, id) || id == work.id
  {
    var ws' := ws[i := Stored(work)];
    assert StoredAs(ws'[i], work.id);
    if StoredChunk(ws, id) { var j :| 0 <= j < |ws| && StoredAs(ws[j], id); assert StoredAs(ws'[j], id); }
    if StoredChunk(ws', id) {
      var j :| 0 <= j < |ws'| && StoredAs(ws'[j], id);
      if j != i { assert StoredAs(ws[j], id); }
    }
  }

  lemma ReleaseOwnership(t: State, t': State, i: nat, total: nat)
    requires Ownership(t, total) && Ids(t) && Regions(t, total) && i < |t.workers| && Writing(t.workers[i])
    requires |t'.workers| == |t.workers| && t'.workers == t.workers[i := t'.workers[i]] && !Writing(t'.workers[i])
    requires Storage.Inv(t'.store) && t'.store.lifecycle == Active && t'.store.expectedLen == t.store.expectedLen
    requires t'.store.active == t.store.active - {t.workers[i].writer}
    ensures Ownership(t', total)
  {
    forall j | 0 <= j < |t.workers| && j != i && Writing(t.workers[j])
      ensures t.workers[j].writer != t.workers[i].writer
    {
      WritersDiffer(t, i, j, total);
    }
    RemainingOpen(t.workers, t'.workers, i, t.store.active);
  }

  lemma RemainingOpen(ws: seq<Worker>, ws': seq<Worker>, i: nat, active: map<nat, Assignment>)
    requires i < |ws| == |ws'| && Writing(ws[i]) && !Writing(ws'[i])
    requires forall j :: 0 <= j < |ws| && j != i ==> ws'[j] == ws[j]
    requires forall j :: 0 <= j < |ws| ==> WriterOpen(ws[j], active)
    requires forall j :: 0 <= j < |ws| && j != i && Writing(ws[j]) ==> ws[j].writer != ws[i].writer
    requires forall a :: a in active ==> exists j :: 0 <= j < |ws| && WritesAs(ws[j], a)
    ensures forall j :: 0 <= j < |ws| ==> WriterOpen(ws'[j], active - {ws[i].writer})
    ensures forall a :: a in active - {ws[i].writer} ==> exists j :: 0 <= j < |ws| && WritesAs(ws'[j], a)
  {
    var gone := ws[i].writer;
    forall j | 0 <= j < |ws| ensures WriterOpen(ws'[j], active - {gone}) {
      StillOpen(ws[j], ws'[j], active, gone);
    }
    forall a | a in active - {gone} ensures exists j :: 0 <= j < |ws| && WritesAs(ws'[j], a) {
      var j :| 0 <= j < |ws| && WritesAs(ws[j], a);
      assert WritesAs(ws'[j], a);
    }
  }

  lemma StillOpen(w: Worker, w': Worker, active: map<nat, Assignment>, gone: nat)
    requires WriterOpen(w, active)
    requires !Writing(w') || (w' == w && w.writer != gone)
    ensures WriterOpen(w', active - {gone})
  { }

  lemma FinishCorrect(t: State, t': State, i: nat, content: seq<Byte>)
    requires Correct(t, content) && i < |t.workers| && t.workers[i].Filled?
    requires t'.workers == t.workers[i := Stored(t.workers[i].work)] && t'.store.data == t.store.data
    requires forall x: nat :: Covers(t'.store.completed, x) <==>
      Covers(t.store.completed, x) || In(x, t.workers[i].work.range)
    ensures Correct(t', content)
  { }

  lemma DropKeeps(t: State, i: nat, acc: Accepts)
    requires Transfer.Inv(t, acc) && i < |t.workers| && t.workers[i].Abandoning?
    ensures var failed := SetWorker(t, i, StoreFailed(t.workers[i].work));
      Transfer.Inv(failed.(store := SegmentDrop(t.store, t.workers[i].writer)), acc)
  {
    var w := t.workers[i];
    var t' := SetWorker(t, i, StoreFailed(w.work)).(store := SegmentDrop(t.store, w.writer));
    CommitterMoves(t, t', i, acc.total);
    ApplyKeepsInv(t.store, OpDrop(w.writer), None, (_) => []);
    ReleaseOwnership(t, t', i, acc.total);
    DropCorrect(t, t', i, Content(acc));
  }

  lemma DropCorrect(t: State, t': State, i: nat, content: seq<Byte>)
    requires Correct(t, content) && i < |t.workers|
    requires HasWork(t.workers[i]) && t'.workers == t.workers[i := StoreFailed(t.workers[i].work)]
    requires t'.store.data == t.store.data && t'.store.completed == t.store.completed
    ensures Correct(t', content)
  { }

  lemma CommitIds(t: State, t': State, i: nat)
    requires Ids(t) && i < |t.workers| && CommitStage(t.workers[i])
    requires |t'.workers| == |t.workers| && t'.workers == t.workers[i := t'.workers[i]] && !HasWork(t'.workers[i])
    requires t'.coord.inFlight == t.coord.inFlight - {t.workers[i].work.id} && t'.coord.nextId == t.coord.nextId
    ensures Ids(t')
  {
    forall id | id in t'.coord.inFlight && t'.coord.inFlight[id].phase == Committing
      ensures exists j :: 0 <= j < |t'.workers| && Commits(t'.workers[j], id)
    {
      var j :| 0 <= j < |t.workers| && Commits(t.workers[j], id);
      assert Commits(t'.workers[j], id);
    }
  }

  /** Releasing a stored chunk: its bytes are completed, so nothing is lost. */
  lemma ReleaseRegions(t: State, t': State, i: nat, total: nat)
    requires Ids(t) && Regions(t, total) && i < |t.workers| && t.workers[i].Stored?
    requires t'.workers == t.workers[i := Idle] && t'.lost == t.lost && t'.store == t.store
    requires t'.coord.inFlight == t.coord.inFlight - {t.workers[i].work.id} && t'.coord.pending == t.coord.pending
    ensures Regions(t', total)
  {
    var work := t.workers[i].work;
    assert StoredAs(t.workers[i], work.id);
    forall id | id != work.id ensures StoredChunk(t'.workers, id) <==> StoredChunk(t.workers, id) {
      if StoredChunk(t.workers, id) {
        var j :| 0 <= j < |t.workers| && StoredAs(t.workers[j], id);
        assert StoredAs(t'.workers[j], id);
      }
      if StoredChunk(t'.workers, id) {
        var j :| 0 <= j < |t'.workers| && StoredAs(t'.workers[j], id);
        assert StoredAs(t.workers[j], id);
      }
    }
    forall x: nat, a ensures Chunked(t'.coord, x, a) <==> Chunked(t.coord, x, a) && a != work.id { }
    forall x: nat | x < total ensures Located(t', x) {
      assert Located(t, x);
      if a :| Chunked(t.coord, x, a) { if a != work.id { assert Chunked(t'.coord, x, a); } }
    }
  }

  lemma CommitKeeps(t: State, i: nat, acc: Accepts)
    requires Transfer.Inv(t, acc) && i < |t.workers| && t.workers[i].Stored?
    ensures Transfer.Inv(SetWorker(t, i, Idle).(coord := FinishCommit(t.coord, t.workers[i].work.id, true)), acc)
  {
    var t' := SetWorker(t, i, Idle).(coord := FinishCommit(t.coord, t.workers[i].work.id, true));
    AttemptsStep(t, t', i, Idle);
    CommitIds(t, t', i);
    ReleaseRegions(t, t', i, acc.total);
    StoredLeaves(t, t', i, acc);
  }

  lemma StoredLeaves(t: State, t': State, i: nat, acc: Accepts)
    requires HasStrongIdentity(acc.validators)
    requires Ownership(t, acc.total) && Correct(t, Content(acc)) && i < |t.workers|
    requires t.workers[i].Stored? || t.workers[i].StoreFailed?
    requires |t'.workers| == |t.workers| && t'.workers == t.workers[i := t'.workers[i]] && !HasWork(t'.workers[i])
    requires t'.store == t.store
    ensures Ownership(t', acc.total) && Correct(t', Content(acc))
  {
    var store := t.store;
    assert Storage.Inv(store);
    WritersKept(t, t', i);
    CorrectKept(t, t', i, Content(acc));
  }

  lemma CommitFailureKeeps(t: State, i: nat, acc: Accepts)
    requires Transfer.Inv(t, acc) && i < |t.workers| && t.workers[i].StoreFailed?
    ensures Transfer.Inv(SetWorker(t, i, Failed).(coord := FinishCommit(t.coord, t.workers[i].work.id, false),
      lost := t.lost + [t.workers[i].work.range]), acc)
  {
    var work := t.workers[i].work;
    var t' := SetWorker(t, i, Failed).(coord := FinishCommit(t.coord, work.id, false), lost := t.lost + [work.range]);
    AttemptsStep(t, t', i, Failed);
    CommitIds(t, t', i);
    UniqueCommitter(t, i);
    SameStored(t, t', i);
    GiveUpRegions(t, t', work.id, acc.total);
    StoredLeaves(t, t', i, acc);
  }

  lemma FlagKeeps(t: State, t': State, acc: Accepts)
    requires Transfer.Inv(t, acc)
    requires t' == t.(cancelled := true) || t' == t.(coord := Abort(t.coord))
    ensures Transfer.Inv(t', acc)
  {
    RegionsKept(t, t', acc.total);
    assert Ids(t');
    assert Attempts(t');
    var store := t.store;
    assert Storage.Inv(store);
  }

  // ---------- Every step, every run ----------

  lemma StepKeepsInv(t: State, ev: Event, plan: Plan, acc: Accepts)
    requires plan.chunkSize > 0 && Transfer.Inv(t, acc) && Enabled(t, ev, plan, acc)
    ensures Transfer.Inv(Transfer.Apply(t, ev, plan, acc), acc)
  {
    match ev
    case NextStep(i, now) => NextKeeps(t, i, now, plan, acc);
    case SupersededStep(i) => SupersededKeeps(t, i, acc);
    case BodyStep(i, response) =>
      if ClaimCommit(t.coord, t.cancelled, t.workers[i].work.id).1 { ClaimKeeps(t, i, response, acc); }
      else { LostClaimKeeps(t, i, acc); }
    case FetchErrorStep(i) =>
      if FinishFailedAttempt(t.coord, t.workers[i].work.id).1 { FatalErrorKeeps(t, i, acc); }
      else { FetchErrorKeeps(t, i, acc); }
    case ReserveStep(i) =>
      AssignAlwaysSucceeds(t, i, acc);
      ReserveKeeps(t, i, acc);
    case WriteStep(i, io) => WriteKeeps(t, i, io, acc);
    case FinishStep(i) =>
      FinishAlwaysSucceeds(t, i, acc);
      FinishKeeps(t, i, acc);
    case DropStep(i) => DropKeeps(t, i, acc);
    case CommitStep(i) =>
      if t.workers[i].Stored? { CommitKeeps(t, i, acc); } else { CommitFailureKeeps(t, i, acc); }
    case CancelStep => FlagKeeps(t, Transfer.Apply(t, ev, plan, acc), acc);
    case AbortStep => FlagKeeps(t, Transfer.Apply(t, ev, plan, acc), acc);
  }
}
