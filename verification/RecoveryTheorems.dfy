/** Crash safety of a task's record and of its published file, over every
    history of sections, controls, crashes and recoveries. */
module RecoveryTheorems {
  import opened Ranges
  import opened TaskRecord
  import opened Network
  import opened Lifecycle
  import opened LifecycleSafety
  import LifecycleProgress
  import opened Recovery
  import opened RecoverySafety
  import Storage

  ghost predicate ValidHistory(env: Env, w: World, hs: seq<Happening>)
    decreases |hs|
  {
    hs == [] || (Possible(env, w, hs[0]) && ValidHistory(env, Next(env, w, hs[0]), hs[1..]))
  }

  ghost function After(env: Env, w: World, hs: seq<Happening>): World
    requires ValidHistory(env, w, hs)
    decreases |hs|
  {
    if hs == [] then w else After(env, Next(env, w, hs[0]), hs[1..])
  }

  function Durable(w: World): Task { if w.Up? then w.life.durable else w.record }

  predicate Loads(w: World) { RecoveryCheck(Durable(w), w.disk).None? }

  function FreshWorld(t: Task): World { Up(Loaded(t), Disk(None, 0, {}, false), false) }

  lemma {:induction false} HistoryKeepsInv(env: Env, w: World, hs: seq<Happening>)
    requires WorldInv(env, w) && ValidHistory(env, w, hs)
    ensures WorldInv(env, After(env, w, hs))
    decreases |hs|
  {
    if hs != [] {
      NextKeepsInv(env, w, hs[0]);
      HistoryKeepsInv(env, Next(env, w, hs[0]), hs[1..]);
    }
  }

  // ---------- When the durable record loads ----------

  /** The only thing that can keep a record from loading is a partial it needs. */
  lemma LoadsWhenFound(env: Env, t: Task, d: Disk)
    requires Sound(env, t) && Backed(t, d)
    ensures RecoveryCheck(t, d) == if Found(t, d) then None else Some(PartialMissing)
  { }

  /** In any directory, a record loads exactly if the partial it needs is there, the
      partial it has is of the recorded length, and its published file exists with
      that length. */
  lemma LoadingExactly(t: Task, d: Disk)
    ensures RecoveryCheck(t, d).None? <==>
      && Found(t, d)
      && (Present(t, d) && ExpectedSize(t).Some? ==> d.size == ExpectedSize(t).value)
      && (t.finalPath.Some? ==>
           t.finalPath.value in d.names && (ExpectedSize(t).Some? ==> d.size == ExpectedSize(t).value))
  { }

  /** What recovery writes: an ended task forgets a partial that is gone, a download
      becomes paused, a published file completes its task, and any other interrupted
      run fails; nothing else is written, and a spent revision is reported. */
  lemma NormalizationExactly(env: Env, t: Task, d: Disk, now: nat)
    requires Sound(env, t)
    ensures var at := Latest(now, t);
      var next := t.(revision := t.revision + 1, updatedAt := at);
      var forgets := t.state in {Failed, Cancelled} && t.partialPath.Some? && t.partialPath != d.partial;
      var settled := match t.state
        case Downloading => Some(Paused)
        case Promoting => Some(if t.finalPath.Some? then Completed else Failed)
        case Probing | Validating => Some(Failed)
        case _ => None;
      var n := Normalize(env, t, d, now);
      if !forgets && settled.None? then n == Ok(t)
      else if t.revision + 1 >= U64_LIMIT then n.Err?
      else n == Ok(if forgets then next.(partialPath := None, ranges := []) else next.(state := settled.value))
  {
    match t.state
    case Downloading => TransitionExactly(env, t, Paused, Latest(now, t));
    case Promoting => TransitionExactly(env, t, if t.finalPath.Some? then Completed else Failed, Latest(now, t));
    case Probing => TransitionExactly(env, t, Failed, Latest(now, t));
    case Validating => TransitionExactly(env, t, Failed, Latest(now, t));
    case _ =>
  }

  /** A process comes up exactly with a record that loads and whose recovery, if it
      changes anything, is written; otherwise record and directory stay as they are. */
  lemma BootExactly(env: Env, t: Task, d: Disk, now: nat, written: bool)
    ensures var n := Normalize(env, t, d, now);
      var w := Boot(env, t, d, now, written);
      && (w.Up? <==> RecoveryCheck(t, d).None? && n.Ok? && (written || n.value == t))
      && (w.Up? ==> w == Up(Life(n.value, n.value, 0, false, None, Inactive, Budget(0, false)), d, false))
      && (w.Down? ==> w == Down(t, d))
  { }

  // ---------- What the sections do to the directory ----------

  /** The sections that take the partial's name out of the directory: a recorded
      cancellation or failure that deletes it, and the end of a publication. */
  predicate Removes(env: Env, l: Life, d: Disk, ev: Event)
    requires Enabled(env, l, ev)
  {
    var after := Advance(env, l, ev).task.state;
    match ev
    case Ask(CancelInactive(deletePartial, _, _, removed, _)) =>
      deletePartial && removed && after == Cancelled && Present(l.task, d)
    case Do(Apply(_, _, _, removed, _)) =>
      l.stop == Some(Cancel(true)) && removed && after == Cancelled && Present(l.task, d)
    case Do(Fail(_, _, discard, removed, _)) => discard && removed && after == Failed && Present(l.task, d)
    case Publish(RemovePartialLink(unlinked)) => unlinked && d.partial.Some?
    case _ => false
  }

  predicate MakesPartial(l: Life, ev: Event) {
    ev.Do? && ev.work.Prepare? && ev.work.result.Probed? && ev.work.result.created.Some?
    && l.pc == ProbeInitial && !l.cancelled && l.task.partialPath.None?
  }

  /** The final name a section links. */
  function Links(ev: Event, stray: Option<Path>): set<Path> {
    match ev
    case Publish(EndPromotion(Some(path))) => {path}
    case Publish(EndPromotion(None)) => if stray.Some? then {stray.value} else {}
    case _ => {}
  }

  predicate Renames(env: Env, l: Life, d: Disk, ev: Event, stray: Option<Path>, next: Disk)
    requires Enabled(env, l, ev)
  {
    if MakesPartial(l, ev) then
      var p := ev.work.result.created.value;
      next == Disk(Some(p.path), if p.len.Some? then p.len.value else 0, {}, false)
    else
      && next.partial == (if Removes(env, l, d, ev) then None else d.partial) && next.size == d.size
      && next.names == d.names + Links(ev, stray)
  }

  /** Only these sections change a name in the directory: a new partial starts a new
      file, a removal takes its name, and a link adds a final one. */
  lemma DirectoryExactly(env: Env, l: Life, d: Disk, ev: Event, stray: Option<Path>)
    requires Inv(env, l) && Enabled(env, l, ev)
    ensures Renames(env, l, d, ev, stray, Touched(env, l, d, ev, stray))
  {
    match ev
    case Ask(c) => AskRenames(env, l, d, c, stray);
    case Do(w) => WorkRenames(env, l, d, w, stray);
    case Publish(p) => PublicationRenames(env, l, d, p, stray);
  }

  lemma AskRenames(env: Env, l: Life, d: Disk, c: Control, stray: Option<Path>)
    requires Inv(env, l) && Askable(l, c)
    ensures Renames(env, l, d, Ask(c), stray, Touched(env, l, d, Ask(c), stray))
  {
    if c.CancelInactive? { CancelledState(env, l, c); }
  }

  lemma PublicationRenames(env: Env, l: Life, d: Disk, p: Publication, stray: Option<Path>)
    requires Publishable(l, p)
    ensures Renames(env, l, d, Publish(p), stray, Touched(env, l, d, Publish(p), stray))
  { }

  lemma WorkRenames(env: Env, l: Life, d: Disk, w: Work, stray: Option<Path>)
    requires Inv(env, l) && Doable(env, l, w)
    ensures Renames(env, l, d, Do(w), stray, Touched(env, l, d, Do(w), stray))
  { }

  /** Which outcomes of a publication the directory decides. */
  lemma PublicationsPossible(l: Life, d: Disk, p: Publication, stray: Option<Path>)
    ensures PossiblePublication(l, d, p, stray) <==>
      (p == EndValidation(true) || (p.EndPromotion? && (p.linked.Some? || stray.Some?)) ==> Present(l.task, d))
  { }

  lemma CancelledState(env: Env, l: Life, c: Control)
    requires Inv(env, l) && Askable(l, c) && c.CancelInactive?
    ensures Asked(env, l, c).task.state == Cancelled <==> TryMove(env, l, Cancelled, c.now, c.written).Some?
  {
    TryMoveKeeps(env, l, Cancelled, c.now, c.written);
    var moved := TryMove(env, l, Cancelled, c.now, c.written);
    if moved.Some? && RecordPartialDeletion(moved.value.task, Latest(c.now, moved.value.task)).Ok? {
      assert RecordPartialDeletion(moved.value.task, Latest(c.now, moved.value.task)).value.state == Cancelled;
    }
  }

  lemma InterruptedDownloadLoads(env: Env, t: Task, d: Disk, now: nat)
    requires WorldInv(env, Down(t, d)) && Found(t, d) && t.state == Downloading && t.revision + 1 < U64_LIMIT
    ensures var paused := t.(state := Paused, revision := t.revision + 1, updatedAt := Latest(now, t));
      Boot(env, t, d, now, true) == Up(Loaded(paused), d, false)
  {
    LoadsWhenFound(env, t, d);
    NormalizationExactly(env, t, d, now);
    BootExactly(env, t, d, now, true);
  }

  lemma LoadedTaskResumes(env: Env, t: Task, d: Disk, now: nat)
    requires WorldInv(env, Up(Loaded(t), d, false)) && t.state == Paused && Present(t, d)
    requires t.revision + 1 < U64_LIMIT && LifecycleProgress.SameBytes(t, t.resource.value)
    ensures var ask, resume := Act(Ask(ResumeTask), None), Resumption(t, now);
      var w := Up(Loaded(t), d, false);
      && Possible(env, w, ask) && Possible(env, Next(env, w, ask), resume)
      && var end := Next(env, Next(env, w, ask), resume);
      && end.Up? && end.life.pc == Transferring(false) && end.life.durable == end.life.task && end.handle
      && end.life.task.state == Downloading && end.life.task.ranges == t.ranges
      && end.life.task.resource == t.resource && end.disk == d.(whole := false)
  {
    var w, ask := Up(Loaded(t), d, false), Act(Ask(ResumeTask), None);
    NextKeepsInv(env, w, ask);
    var work := Resumption(t, now).event.work;
    assert NewResource(env, t.resource.value) == Ok(t.resource.value);
    LifecycleProgress.ResumeExactly(env, Next(env, w, ask).life, work);
  }

  /** The server still offers the recorded resource, and the partial reopens. */
  function Resumption(t: Task, now: nat): Happening
    requires t.resource.Some?
  {
    Act(Do(Prepare(Probed(t.resource.value, None, true), now, true)), None)
  }

  /** A transfer interrupted by a crash goes on with every byte its record claims: the
      record loads, recovery pauses it, it can be resumed, and if the server still
      offers the same resource its partial is reopened by name. */
  lemma InterruptedDownloadGoesOn(env: Env, t: Task, d: Disk, now: nat)
    requires WorldInv(env, Down(t, d)) && Found(t, d) && t.state == Downloading && t.revision + 2 < U64_LIMIT
    requires HasStrongIdentity(t.resource.value.validators) || t.ranges == []
    ensures var hs := [Recover(now, true), Act(Ask(ResumeTask), None), Resumption(t, now)];
      && ValidHistory(env, Down(t, d), hs)
      && var w := After(env, Down(t, d), hs);
      && w.Up? && w.life.pc == Transferring(false) && w.life.durable == w.life.task && w.handle
      && w.life.task.state == Downloading && w.life.task.ranges == t.ranges && w.life.task.resource == t.resource
      && w.disk == d.(whole := false)
  {
    InterruptedDownloadLoads(env, t, d, now);
    NextKeepsInv(env, Down(t, d), Recover(now, true));
    var paused := Boot(env, t, d, now, true).life.task;
    LifecycleProgress.ReusableMeansSameBytes(env, paused, paused.resource.value);
    LoadedTaskResumes(env, paused, d, now);
    HistoryOfThree(env, Down(t, d), Recover(now, true), Act(Ask(ResumeTask), None), Resumption(t, now));
  }

  lemma HistoryOfThree(env: Env, w: World, a: Happening, b: Happening, c: Happening)
    requires Possible(env, w, a) && Possible(env, Next(env, w, a), b)
    requires Possible(env, Next(env, Next(env, w, a), b), c)
    ensures ValidHistory(env, w, [a, b, c])
    ensures After(env, w, [a, b, c]) == Next(env, Next(env, Next(env, w, a), b), c)
  {
    var w1, w2 := Next(env, w, a), Next(env, Next(env, w, a), b);
    assert [a, b, c][1..] == [b, c] && [b, c][1..] == [c] && [c][1..] == [];
    assert ValidHistory(env, Next(env, w2, c), []);
    assert ValidHistory(env, w2, [c]) && After(env, w2, [c]) == Next(env, w2, c);
    assert ValidHistory(env, w1, [b, c]) && After(env, w1, [b, c]) == After(env, w2, [c]);
  }

  lemma WorldLoads(env: Env, w: World)
    requires WorldInv(env, w)
    ensures ValidateTask(env, Durable(w)).None? && (Loads(w) <==> Found(Durable(w), w.disk))
  {
    LoadsWhenFound(env, Durable(w), w.disk);
  }

  lemma AskFinds(env: Env, l: Life, d: Disk, c: Control, stray: Option<Path>)
    requires Inv(env, l) && FilesInv(l, d) && Askable(l, c) && Found(l.durable, d)
    ensures Found(Asked(env, l, c).durable, Touched(env, l, d, Ask(c), stray))
  {
    match c
    case Start(now, written) => MoveShape(env, l, Probing, now, written);
    case Requeue(now, written) => MoveShape(env, l, Queued, now, written);
    case CancelInactive(_, _, _, _, _) => CancelInactiveShape(env, l, c); CancelInactiveDisk(env, l, d, c, stray);
    case _ =>
  }

  lemma PrepareFinds(env: Env, l: Life, d: Disk, w: Work, stray: Option<Path>)
    requires Inv(env, l) && FilesInv(l, d) && Doable(env, l, w) && w.Prepare? && Found(l.durable, d)
    ensures Found(Done(env, l, w).durable, Touched(env, l, d, Do(w), stray)) <==> !RetryStrands(l, d, w)
  {
    PrepareShape(env, l, w);
    PreparedDisk(env, l, d, w, stray);
    if w.result.Probed? && l.pc == ProbeInitial && !l.cancelled && l.task.partialPath.Some? {
      LifecycleProgress.RelaunchExactly(env, l, w);
    }
  }

  lemma FailFinds(env: Env, l: Life, d: Disk, w: Work, stray: Option<Path>)
    requires Inv(env, l) && FilesInv(l, d) && Doable(env, l, w) && w.Fail? && Found(l.durable, d)
    ensures Found(Done(env, l, w).durable, Touched(env, l, d, Do(w), stray)) <==> !FailureStrands(l, w)
  {
    FailShape(env, l, w);
    FailDisk(env, l, d, w, stray);
    FailedFinds(l, d, w, Done(env, l, w), Touched(env, l, d, Do(w), stray));
  }

  /** After a failure the durable record misses its partial exactly when that was
      deleted and neither checkpoint was written. */
  lemma FailedFinds(l: Life, d: Disk, w: Work, next: Life, after: Disk)
    requires Found(l.durable, d) && w.Fail? && l.task.state != Failed
    requires if l.task.revision + 1 < U64_LIMIT then next.task.state == Failed
      else next.task == l.task && next.durable == l.durable
    requires next.task.state == Failed ==>
      (next.durable == next.task || next.durable == l.durable)
      && (next.durable == next.task <==>
           w.written || (w.discard && w.removed && w.forgotten && l.task.partialPath.Some?
             && l.task.revision + 2 < U64_LIMIT))
    requires after == if w.discard && w.removed && next.task.state == Failed && Present(l.task, d) then
      d.(partial := None) else d
    ensures Found(next.durable, after) <==> !FailureStrands(l, w)
  { }

  lemma ApplyFinds(env: Env, l: Life, d: Disk, w: Work, stray: Option<Path>)
    requires Inv(env, l) && FilesInv(l, d) && Doable(env, l, w) && w.Apply? && Found(l.durable, d)
    ensures Found(Done(env, l, w).durable, Touched(env, l, d, Do(w), stray))
  {
    StopShape(env, l, w);
    ApplyDisk(env, l, d, w, stray);
  }

  lemma CheckpointFinds(env: Env, l: Life, d: Disk, w: Work)
    requires Inv(env, l) && FilesInv(l, d) && Doable(env, l, w) && Found(l.durable, d)
    requires w.Tick? || w.PassBoundary? || w.CheckpointStop?
    ensures Found(Done(env, l, w).durable, d)
  {
    if w.Tick? { TickShape(env, l, w); }
    else if w.PassBoundary? { CheckpointShape(env, l, w.capture, w.now, w.written); }
    else if w.held.Some? { CheckpointShape(env, l, w.held.value, w.now, w.written); }
  }

  lemma MovingFinds(env: Env, l: Life, w: Work)
    requires Doable(env, l, w)
    requires w.ProbeInterrupted? || w.ProbeAgain? || w.EndTransfer? || w.Decided? || w.EndRevalidation? || w.EndWait?
    ensures Done(env, l, w).durable == l.durable
  { }

  lemma DoFinds(env: Env, l: Life, d: Disk, w: Work, stray: Option<Path>)
    requires Inv(env, l) && FilesInv(l, d) && Doable(env, l, w) && Found(l.durable, d)
    ensures Found(Done(env, l, w).durable, Touched(env, l, d, Do(w), stray)) <==>
      !(FailureStrands(l, w) || RetryStrands(l, d, w))
  {
    if w.Prepare? { PrepareFinds(env, l, d, w, stray); }
    else if w.Fail? { FailFinds(env, l, d, w, stray); }
    else if w.Apply? { ApplyFinds(env, l, d, w, stray); }
    else if w.Tick? || w.PassBoundary? || w.CheckpointStop? { CheckpointFinds(env, l, d, w); }
    else { MovingFinds(env, l, w); }
  }

  lemma EnterFinds(env: Env, l: Life, d: Disk, p: Publication)
    requires Inv(env, l) && FilesInv(l, d) && Publishable(l, p) && Found(l.durable, d)
    requires p.BeginValidation? || p.BeginPromotion?
    ensures Found(Published(env, l, p).durable, d)
  {
    if p.BeginValidation? { EnterShape(env, l, Validating, InValidation, p.now, p.written); }
    else { EnterShape(env, l, Promoting, Publishing, p.now, p.written); }
  }

  /** A record with a final name needs no partial. */
  lemma NamedFinds(l: Life, next: Life, d: Disk)
    requires Found(l.durable, d)
    requires next.durable == l.durable || (next.durable == next.task && next.task.finalPath.Some?)
    requires next.task.finalPath.Some? ==> next.task.state in {Promoting, Completed}
    ensures Found(next.durable, d)
  { }

  lemma NoteFinds(env: Env, l: Life, d: Disk, p: Publication)
    requires InStep(env, l) && Placed(l.pc, l.task) && Publishable(l, p) && Found(l.durable, d)
    requires p.RecordLink? || p.RecordCleanup?
    ensures Found(Published(env, l, p).durable, d)
  {
    if p.RecordLink? { NoteShape(env, l, l.pc.final, l.task.partialPath, Cleanup(l.pc.final), p.now, p.written); }
    else { NoteShape(env, l, l.pc.named, None, Completing, p.now, p.written); }
    NamedFinds(l, Published(env, l, p), d);
  }

  lemma CompleteFinds(env: Env, l: Life, d: Disk, p: Publication)
    requires InStep(env, l) && Placed(l.pc, l.task) && Publishable(l, p) && Found(l.durable, d) && p.Complete?
    ensures Found(Published(env, l, p).durable, d)
  {
    CompletionShape(env, l, p.now, p.written);
    NamedFinds(l, Published(env, l, p), d);
  }

  lemma LinkingFinds(env: Env, l: Life, d: Disk, p: Publication, stray: Option<Path>)
    requires Inv(env, l) && FilesInv(l, d) && Publishable(l, p) && Found(l.durable, d)
    requires p.EndValidation? || p.EndPromotion? || p.RemovePartialLink? || p.Close?
    ensures Found(Published(env, l, p).durable, Touched(env, l, d, Publish(p), stray))
  { }

  lemma PublishFinds(env: Env, l: Life, d: Disk, p: Publication, stray: Option<Path>)
    requires Inv(env, l) && FilesInv(l, d) && Publishable(l, p) && Found(l.durable, d)
    ensures Found(Published(env, l, p).durable, Touched(env, l, d, Publish(p), stray))
  {
    if p.BeginValidation? || p.BeginPromotion? { EnterFinds(env, l, d, p); }
    else if p.RecordLink? || p.RecordCleanup? { NoteFinds(env, l, d, p); }
    else if p.Complete? { CompleteFinds(env, l, d, p); }
    else { LinkingFinds(env, l, d, p, stray); }
  }

  /** A step takes a record that loads to one that does not exactly when it is one
      of the two stranding sections. */
  lemma StepStrandsExactly(env: Env, w: World, h: Happening)
    requires WorldInv(env, w) && Possible(env, w, h) && Loads(w)
    ensures Loads(Next(env, w, h)) <==> !Strands(w, h)
  {
    NextKeepsInv(env, w, h);
    WorldLoads(env, w);
    WorldLoads(env, Next(env, w, h));
    match h
    case Act(Ask(c), stray) => AskFinds(env, w.life, w.disk, c, stray);
    case Act(Do(work), stray) => DoFinds(env, w.life, w.disk, work, stray);
    case Act(Publish(p), stray) => PublishFinds(env, w.life, w.disk, p, stray);
    case Recover(now, _) => if Normalize(env, w.record, w.disk, now).Ok? { NormalizeShape(env, w.record, w.disk, now); }
    case _ =>
  }

  ghost predicate AlwaysLoads(env: Env, w: World, hs: seq<Happening>)
    requires ValidHistory(env, w, hs)
    decreases |hs|
  {
    Loads(w) && (hs == [] || AlwaysLoads(env, Next(env, w, hs[0]), hs[1..]))
  }

  ghost predicate NeverStrands(env: Env, w: World, hs: seq<Happening>)
    requires ValidHistory(env, w, hs)
    decreases |hs|
  {
    hs == [] || (!Strands(w, hs[0]) && NeverStrands(env, Next(env, w, hs[0]), hs[1..]))
  }

  /** Wherever a crash falls, the durable record is valid; and it loads at every
      point of a history exactly when no section of the history strands it. */
  lemma {:induction false} RecordLoadsExactly(env: Env, w: World, hs: seq<Happening>)
    requires WorldInv(env, w) && ValidHistory(env, w, hs) && Loads(w)
    ensures ValidateTask(env, Durable(After(env, w, hs))).None?
    ensures AlwaysLoads(env, w, hs) <==> NeverStrands(env, w, hs)
    decreases |hs|
  {
    HistoryKeepsInv(env, w, hs);
    WorldLoads(env, After(env, w, hs));
    if hs != [] {
      var next := Next(env, w, hs[0]);
      NextKeepsInv(env, w, hs[0]);
      StepStrandsExactly(env, w, hs[0]);
      if Loads(next) { RecordLoadsExactly(env, next, hs[1..]); }
      assert AlwaysLoads(env, w, hs) <==> Loads(next) && AlwaysLoads(env, next, hs[1..]);
    }
  }

  /** From the creation of a task on. */
  lemma NewTaskLoadsExactly(env: Env, id: TaskId, url: string, needsSession: bool, digest: Option<seq<Storage.Byte>>,
                            dir: Path, name: string, workers: nat, now: nat, hs: seq<Happening>)
    requires Idempotent(env) && Sanitizes(env)
    requires NewTask(env, id, url, needsSession, digest, dir, name, workers, now).Ok?
    ensures var w := FreshWorld(NewTask(env, id, url, needsSession, digest, dir, name, workers, now).value);
      && WorldInv(env, w)
      && (ValidHistory(env, w, hs) ==>
            && ValidateTask(env, Durable(After(env, w, hs))).None?
            && (AlwaysLoads(env, w, hs) <==> NeverStrands(env, w, hs)))
  {
    NewTaskIsSound(env, id, url, needsSession, digest, dir, name, workers, now);
    var w := FreshWorld(NewTask(env, id, url, needsSession, digest, dir, name, workers, now).value);
    if ValidHistory(env, w, hs) { RecordLoadsExactly(env, w, hs); }
  }

  /** After a crash a stranded record never loads again. */
  lemma {:induction false} StrandedStaysDown(env: Env, t: Task, d: Disk, hs: seq<Happening>)
    requires RecoveryCheck(t, d).Some? && ValidHistory(env, Down(t, d), hs)
    ensures After(env, Down(t, d), hs) == Down(t, d)
    decreases |hs|
  {
    if hs != [] { StrandedStaysDown(env, t, d, hs[1..]); }
  }

  // ---------- Recovery ----------

  /** Recovery completes a task exactly when its durable record names a final
      file, needs at most one write, and fails only when the revision is spent. */
  lemma RecoveryOutcome(env: Env, t: Task, d: Disk, now: nat)
    requires WorldInv(env, Down(t, d))
    ensures Normalize(env, t, d, now).Ok? <==> (t.revision + 1 < U64_LIMIT || Normalize(env, t, d, now) == Ok(t))
    ensures Normalize(env, t, d, now).Ok? ==>
      var n := Normalize(env, t, d, now).value;
      && (n.state == Completed <==> t.finalPath.Some?)
      && n.state in {Queued, Paused, Completed, Failed, Cancelled}
      && (n == t || n.revision == t.revision + 1)
      && Boot(env, t, d, now, true) == if RecoveryCheck(t, d).None? then Up(Loaded(n), d, false) else Down(t, d)
  {
    if Normalize(env, t, d, now).Ok? {
      NormalizeShape(env, t, d, now);
    } else if t.state !in {Failed, Cancelled} && t.revision + 1 < U64_LIMIT {
      TransitionAlwaysValid(env, t, NormalState(t), Latest(now, t));
    }
  }

  /** Where an interrupted record settles. */
  function NormalState(t: Task): TaskState {
    if t.state == Downloading then Paused else if t.state == Promoting && t.finalPath.Some? then Completed else Failed
  }

  lemma TransitionAlwaysValid(env: Env, t: Task, next: TaskState, now: nat)
    requires Sound(env, t) && Allows(t.state, next) && t.updatedAt <= now && t.revision + 1 < U64_LIMIT
    requires if next == Completed then t.finalPath.Some? else next in {Paused, Failed} && t.finalPath.None?
    ensures Transition(env, t, next, now).Ok?
  {
    var moved := Bump(t, now).value.(state := next);
    assert Consistent(moved);
    assert t.resource.Some? ==> NewResource(env, t.resource.value).Ok?;
    assert ValidateTask(env, moved).None?;
  }

  /** Recovering twice is recovering once, so a crash during recovery is harmless.
      The one loadable record for which it is not is a probing one whose retained
      partial is gone. */
  lemma RecoveryIsIdempotent(env: Env, t: Task, d: Disk, now: nat, later: nat)
    requires Sound(env, t) && RecoveryCheck(t, d).None? && t.revision + 2 < U64_LIMIT
    requires Normalize(env, t, d, now).Ok?
    ensures var n := Normalize(env, t, d, now).value;
      Normalize(env, n, d, later) == Ok(n) <==>
      !(t.state == Probing && t.partialPath.Some? && t.partialPath != d.partial)
  {
    NormalizeShape(env, t, d, now);
  }

  // ---------- The published file ----------

  /** From promotion on the directory holds a complete file of the recorded length:
      reached by the final name once one is durable, and by the partial until then,
      as long as the record still loads. */
  lemma CompleteBytesStayReachable(env: Env, w: World, hs: seq<Happening>)
    requires WorldInv(env, w) && ValidHistory(env, w, hs)
    ensures var after := After(env, w, hs);
      Durable(after).state in {Promoting, Completed} ==>
        && after.disk.whole
        && ExpectedSize(Durable(after)) == Some(after.disk.size)
        && (match Durable(after).finalPath
            case Some(final) => final in after.disk.names
            case None => Present(Durable(after), after.disk) <==> Loads(after))
  {
    HistoryKeepsInv(env, w, hs);
    WorldLoads(env, After(env, w, hs));
  }

  /** Once a final name is durable it stays, with the same complete file, in every
      history whatsoever, and its record always loads. */
  lemma {:induction false} PublicationIsForever(env: Env, w: World, hs: seq<Happening>)
    requires WorldInv(env, w) && ValidHistory(env, w, hs) && Durable(w).finalPath.Some?
    ensures var after := After(env, w, hs);
      && Durable(after).finalPath == Durable(w).finalPath
      && Durable(w).finalPath.value in after.disk.names
      && after.disk.whole && after.disk.size == w.disk.size && Loads(after)
    decreases |hs|
  {
    if hs == [] {
      WorldLoads(env, w);
    } else {
      NextKeepsInv(env, w, hs[0]);
      PublishedStep(env, w, hs[0]);
      PublicationIsForever(env, Next(env, w, hs[0]), hs[1..]);
    }
  }

  lemma PublishedAsk(env: Env, l: Life, d: Disk, c: Control, stray: Option<Path>)
    requires Inv(env, l) && Askable(l, c) && l.task.finalPath.Some?
    ensures Asked(env, l, c).durable == l.durable && Touched(env, l, d, Ask(c), stray).size == d.size
  {
    assert l.task.state in {Promoting, Completed};
  }

  /** A record with a final name has left the run before its publication. */
  lemma PublishedWorksNoMore(env: Env, l: Life, w: Work)
    requires Inv(env, l) && l.task.finalPath.Some?
    ensures !Doable(env, l, w)
  {
    assert l.task.state in {Promoting, Completed};
  }

  lemma PublishedPublication(env: Env, l: Life, p: Publication)
    requires Inv(env, l) && Publishable(l, p) && l.durable.finalPath.Some? && l.task.finalPath == l.durable.finalPath
    ensures Published(env, l, p).durable.finalPath == l.durable.finalPath
  {
    if p.RecordCleanup? { NoteShape(env, l, l.pc.named, None, Completing, p.now, p.written); }
    else if p.Complete? { CompletionShape(env, l, p.now, p.written); }
    else { PublishedPlainly(env, l, p); }
  }

  lemma PublishedPlainly(env: Env, l: Life, p: Publication)
    requires Inv(env, l) && Publishable(l, p) && l.task.finalPath.Some? && !p.RecordCleanup? && !p.Complete?
    ensures Published(env, l, p).durable == l.durable
  {
    assert l.task.state in {Promoting, Completed};
  }

  lemma PublishedAct(env: Env, l: Life, d: Disk, ev: Event, stray: Option<Path>)
    requires Inv(env, l) && FilesInv(l, d) && Enabled(env, l, ev) && l.durable.finalPath.Some?
    ensures Advance(env, l, ev).durable.finalPath == l.durable.finalPath && Touched(env, l, d, ev, stray).size == d.size
  {
    match ev
    case Ask(c) => PublishedAsk(env, l, d, c, stray);
    case Do(w) => PublishedWorksNoMore(env, l, w);
    case Publish(p) => PublishedPublication(env, l, p);
  }

  lemma PublishedStep(env: Env, w: World, h: Happening)
    requires WorldInv(env, w) && Possible(env, w, h) && Durable(w).finalPath.Some?
    ensures var after := Next(env, w, h);
      Durable(after).finalPath == Durable(w).finalPath && after.disk.size == w.disk.size
  {
    match h
    case Act(ev, stray) => PublishedAct(env, w.life, w.disk, ev, stray);
    case Recover(now, written) =>
      if Normalize(env, w.record, w.disk, now).Ok? { NormalizeShape(env, w.record, w.disk, now); }
    case _ =>
  }

  // ---------- The two stranding sections, concretely ----------

  /** Every failing run whose durable record needs its partial can be stranded. */
  lemma FailureMayStrandTheRecord(env: Env, w: World, now: nat)
    requires WorldInv(env, w) && w.Up? && w.life.pc == Failing && Loads(w) && w.life.task.revision + 1 < U64_LIMIT
    requires Needs(w.life.durable) && w.life.durable.partialPath == w.life.task.partialPath
    ensures var h := Act(Do(Fail(now, false, true, true, false)), None);
      Possible(env, w, h) && RecoveryCheck(Durable(Next(env, w, h)), Next(env, w, h).disk) == Some(PartialMissing)
  {
    var h := Act(Do(Fail(now, false, true, true, false)), None);
    assert Possible(env, w, h);
    StepStrandsExactly(env, w, h);
    NextKeepsInv(env, w, h);
    LoadsWhenFound(env, Durable(Next(env, w, h)), Next(env, w, h).disk);
  }

  /** A failed task whose partial was deleted but is still recorded can be retried in
      the same process, through its open handle, into a record that cannot load. */
  lemma RetryAfterLostDeletion(env: Env, w: World, now: nat)
    requires WorldInv(env, w) && w.Up? && w.handle && w.life.pc == Inactive && w.life.task.state == Failed
    requires !Present(w.life.task, w.disk) && w.life.task.resource.Some?
    requires Reusable(w.life.task, w.life.task.resource.value) && w.life.task.revision + 4 < U64_LIMIT
    ensures var retry := Retried(w.life.task.resource.value, now);
      ValidHistory(env, w, retry) &&
      var after := After(env, w, retry);
      RecoveryCheck(Durable(after), after.disk) == Some(PartialMissing)
  {
    var r := w.life.task.resource.value;
    Requeues(env, w, now);
    var queued := Next(env, w, Act(Ask(Requeue(now, true)), None));
    Restarts(env, queued, now);
    var probing := Next(env, queued, Act(Ask(Start(now, true)), None));
    RetryLaunches(env, probing, r, now);
    ThreeSteps(env, w, Act(Ask(Requeue(now, true)), None), Act(Ask(Start(now, true)), None), Relaunch(r, now));
  }

  /** The file side and the task's partial are as they were. */
  predicate Untouched(w: World, next: World) {
    && w.Up? && next.Up? && next.disk == w.disk && next.handle == w.handle
    && next.life.task.resource == w.life.task.resource && next.life.task.partialPath == w.life.task.partialPath
    && next.life.task.ranges == w.life.task.ranges && next.life.task.revision == w.life.task.revision + 1
  }

  lemma Requeues(env: Env, w: World, now: nat)
    requires WorldInv(env, w) && w.Up? && w.handle && w.life.pc == Inactive && w.life.task.state == Failed
    requires w.life.task.revision + 1 < U64_LIMIT
    ensures var h := Act(Ask(Requeue(now, true)), None);
      && Possible(env, w, h) && WorldInv(env, Next(env, w, h)) && Untouched(w, Next(env, w, h))
      && Next(env, w, h).life.pc == Inactive && Next(env, w, h).life.task.state == Queued
  {
    MovesOn(env, w.life, Queued, now);
    NextKeepsInv(env, w, Act(Ask(Requeue(now, true)), None));
  }

  lemma Restarts(env: Env, w: World, now: nat)
    requires WorldInv(env, w) && w.Up? && w.handle && w.life.pc == Inactive && w.life.task.state == Queued
    requires w.life.task.revision + 1 < U64_LIMIT
    ensures var h := Act(Ask(Start(now, true)), None);
      && Possible(env, w, h) && WorldInv(env, Next(env, w, h)) && Untouched(w, Next(env, w, h))
      && Next(env, w, h).life.pc == ProbeInitial && !Next(env, w, h).life.cancelled
  {
    MovesOn(env, w.life, Probing, now);
    NextKeepsInv(env, w, Act(Ask(Start(now, true)), None));
  }

  lemma ThreeSteps(env: Env, w: World, a: Happening, b: Happening, c: Happening)
    requires Possible(env, w, a) && Possible(env, Next(env, w, a), b) && Possible(env, Next(env, Next(env, w, a), b), c)
    ensures ValidHistory(env, w, [a] + ([b] + [c]))
    ensures After(env, w, [a] + ([b] + [c])) == Next(env, Next(env, Next(env, w, a), b), c)
  {
    var first := Next(env, w, a);
    var second := Next(env, first, b);
    StepFirst(env, second, c, []);
    assert [c] + [] == [c];
    StepFirst(env, first, b, [c]);
    StepFirst(env, w, a, [b] + [c]);
  }

  lemma StepFirst(env: Env, w: World, h: Happening, hs: seq<Happening>)
    requires Possible(env, w, h) && ValidHistory(env, Next(env, w, h), hs)
    ensures ValidHistory(env, w, [h] + hs) && After(env, w, [h] + hs) == After(env, Next(env, w, h), hs)
  {
    assert ([h] + hs)[1..] == hs;
  }

  function Relaunch(r: Resource, now: nat): Happening { Act(Do(Prepare(Probed(r, None, true), now, true)), None) }

  function Retried(r: Resource, now: nat): seq<Happening> {
    [Act(Ask(Requeue(now, true)), None)] + ([Act(Ask(Start(now, true)), None)] + [Relaunch(r, now)])
  }

  lemma RetryLaunches(env: Env, w: World, r: Resource, now: nat)
    requires WorldInv(env, w) && w.Up? && w.handle && w.life.pc == ProbeInitial && !w.life.cancelled
    requires w.life.task.resource == Some(r) && w.life.task.partialPath.Some? && !Present(w.life.task, w.disk)
    requires Reusable(w.life.task, r) && w.life.task.revision + 2 < U64_LIMIT
    ensures Possible(env, w, Relaunch(r, now))
    ensures var after := Next(env, w, Relaunch(r, now));
      RecoveryCheck(Durable(after), after.disk) == Some(PartialMissing)
  {
    assert NewResource(env, r) == Ok(r);
    var h := Relaunch(r, now);
    WorldLoads(env, w);
    StepStrandsExactly(env, w, h);
    NextKeepsInv(env, w, h);
    LoadsWhenFound(env, Durable(Next(env, w, h)), Next(env, w, h).disk);
  }

  lemma MovesOn(env: Env, l: Life, next: TaskState, now: nat)
    requires InStep(env, l) && Allows(l.task.state, next) && next in {Queued, Probing}
    requires l.task.revision + 1 < U64_LIMIT
    ensures TryMove(env, l, next, now, true).Some?
    ensures var moved := TryMove(env, l, next, now, true).value;
      && moved == l.(task := moved.task, durable := moved.task)
      && moved.task == l.task.(state := next, revision := l.task.revision + 1, updatedAt := Latest(now, l.task))
  {
    var moved := Bump(l.task, Latest(now, l.task)).value.(state := next);
    assert Consistent(moved);
    assert l.task.resource.Some? ==> NewResource(env, l.task.resource.value).Ok?;
    assert ValidateTask(env, moved).None?;
    TryMoveKeeps(env, l, next, now, true);
  }
}
