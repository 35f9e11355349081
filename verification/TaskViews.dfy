/** The progress numbers the engine shows for its tasks, and that every snapshot,
    sample and reply made from them is one the extension accepts. */
module TaskViews {
  import opened Ranges
  import opened TaskRecord
  import Storage
  import PartialFiles
  import Estimator
  import Sessions
  import Connection
  import EventStream

  const MAX_MANAGED_TASKS: nat := 10_000

  datatype Numbers = Numbers(completed: nat, expected: Option<nat>, speed: Option<nat>, eta: Option<nat>)

  datatype Display = Display(record: Task, numbers: Numbers)

  /** What changes a record or the numbers shown for it. */
  datatype Change =
    | Record(mutation: Mutation, at: nat)
    | Begin(begunAt: nat)
    | Restart
    | Sample(store: Storage.Store, bytes: nat, lengthTold: bool)
    | Estimate(window: seq<Estimator.RateSample>)
    | Boundary | Finish | Rest | RestKnowing | Vanish

  function Least(a: nat, b: nat): nat { if a <= b then a else b }

  function Recorded(t: Task): nat { Least(PartialFiles.TotalLen(t.ranges), MAX_SAFE_INTEGER) }

  /** `reset_progress`, and the numbers of a loaded task. */
  function FromRecord(t: Task): Numbers {
    Numbers(Recorded(t), ExpectedSize(t), None, if ExpectedSize(t) == Some(Recorded(t)) then Some(0) else None)
  }

  /** What transfer metrics can count: stored ranges, the bytes of one writer, or
      nothing yet. */
  predicate Measured(bytes: nat, s: Storage.Store) {
    || bytes == 0 || bytes == PartialFiles.TotalLen(s.completed) || s.expectedLen.None?
    || (exists id :: id in s.active && bytes == s.active[id].nextOffset)
  }

  ghost predicate Enabled(env: Env, d: Display, c: Change) {
    match c
    case Record(m, _) =>
      && Admissible(env, m) && m != ToState(Probing)
      && (m.Refresh? && m.partial.len.Some? ==> d.numbers.completed <= m.partial.len.value)
    case Sample(s, bytes, _) =>
      && d.record.state == Downloading && Storage.Inv(s) && Measured(bytes, s)
      && (s.expectedLen.Some? ==> s.expectedLen.value <= MAX_SAFE_INTEGER)
      && (ExpectedSize(d.record).Some? ==> s.expectedLen == ExpectedSize(d.record))
    case Estimate(window) => Estimator.Chronological(window)
    case Finish => d.record.state == Completed
    case _ => true
  }

  function Apply(env: Env, d: Display, c: Change): Display
    requires Enabled(env, d, c)
  {
    var n := d.numbers;
    match c
    case Record(m, at) => (match Mutate(env, d.record, m, at) case Ok(t) => d.(record := t) case Err(_) => d)
    case Begin(at) =>
      (match Transition(env, d.record, Probing, at) case Ok(t) => Display(t, FromRecord(t)) case Err(_) => d)
    case Restart => d.(numbers := FromRecord(d.record))
    case Sample(s, bytes, lengthTold) =>
      var expected := if lengthTold then s.expectedLen else None;
      d.(numbers := n.(completed := Least(bytes, MAX_SAFE_INTEGER), expected := expected))
    case Estimate(window) =>
      var e := Estimator.Estimated(window, n.expected);
      d.(numbers := n.(speed := e.speed, eta := e.eta))
    case Boundary => d.(numbers := n.(completed := Recorded(d.record), expected := ExpectedSize(d.record)))
    case Finish =>
      d.(numbers := n.(completed := Recorded(d.record), expected := ExpectedSize(d.record), eta := Some(0)))
    case Rest => d.(numbers := n.(speed := None, eta := None))
    case RestKnowing => d.(numbers := n.(expected := ExpectedSize(d.record), speed := None, eta := None))
    case Vanish => if d.record.partialPath.None? then d.(numbers := n.(completed := 0)) else d
  }

  // ---------- The invariant ----------

  predicate SafeNumbers(n: Numbers) {
    && n.completed <= MAX_SAFE_INTEGER
    && (n.expected.Some? ==> n.expected.value <= MAX_SAFE_INTEGER && n.completed <= n.expected.value)
    && (n.speed.Some? ==> n.speed.value <= MAX_SAFE_INTEGER) && (n.eta.Some? ==> n.eta.value <= MAX_SAFE_INTEGER)
  }

  predicate DisplayInv(env: Env, d: Display) {
    && OnlyCoverageLost(env, d.record) && SafeNumbers(d.numbers)
    && (ExpectedSize(d.record).Some? ==> d.numbers.completed <= ExpectedSize(d.record).value)
    && (d.record.state == Probing && d.record.partialPath.None? ==> d.numbers.completed == 0)
  }

  /** Recorded coverage fits the recorded length. */
  lemma RecordedFits(env: Env, t: Task)
    requires OnlyCoverageLost(env, t)
    ensures SafeNumbers(FromRecord(t))
    ensures ExpectedSize(t).Some? ==> Recorded(t) <= ExpectedSize(t).value <= MAX_SAFE_INTEGER
    ensures t.state == Probing && t.partialPath.None? ==> Recorded(t) == 0
  {
    if ExpectedSize(t).Some? { PartialFiles.CanonicalTotalFits(t.ranges, ExpectedSize(t).value); }
  }

  lemma LoadedShows(env: Env, t: Task)
    requires OnlyCoverageLost(env, t)
    ensures DisplayInv(env, Display(t, FromRecord(t)))
  {
    RecordedFits(env, t);
  }

  lemma MeasuredFits(s: Storage.Store, bytes: nat)
    requires Storage.Inv(s) && Measured(bytes, s) && s.expectedLen.Some?
    ensures bytes <= s.expectedLen.value
  {
    PartialFiles.CanonicalTotalFits(s.completed, s.expectedLen.value);
  }

  /** How a mutation changes the known length. */
  lemma RecordKeepsInv(env: Env, d: Display, m: Mutation, now: nat)
    requires DisplayInv(env, d) && Enabled(env, d, Record(m, now))
    ensures DisplayInv(env, Apply(env, d, Record(m, now)))
  {
    if Mutate(env, d.record, m, now).Ok? {
      MutateLosesOnlyCoverage(env, d.record, m, now);
      MutationKeepsBound(env, d.record, m, now, d.numbers.completed);
    }
  }

  lemma MutationKeepsBound(env: Env, t: Task, m: Mutation, now: nat, completed: nat)
    requires OnlyCoverageLost(env, t) && Admissible(env, m) && m != ToState(Probing) && Mutate(env, t, m, now).Ok?
    requires m.Refresh? && m.partial.len.Some? ==> completed <= m.partial.len.value
    requires ExpectedSize(t).Some? ==> completed <= ExpectedSize(t).value
    requires t.state == Probing && t.partialPath.None? ==> completed == 0
    ensures var after := Mutate(env, t, m, now).value;
      && (ExpectedSize(after).Some? ==> completed <= ExpectedSize(after).value)
      && (after.state == Probing && after.partialPath.None? ==> completed == 0)
  { }

  lemma BeginKeepsInv(env: Env, d: Display, now: nat)
    requires DisplayInv(env, d)
    ensures DisplayInv(env, Apply(env, d, Begin(now)))
  {
    var t := Transition(env, d.record, Probing, now);
    if t.Ok? {
      TransitionKeepsSound(env, d.record, Probing, now);
      RecordedFits(env, t.value);
    }
  }

  lemma ChangeKeepsInv(env: Env, d: Display, c: Change)
    requires DisplayInv(env, d) && Enabled(env, d, c)
    ensures DisplayInv(env, Apply(env, d, c))
  {
    match c
    case Record(m, at) => RecordKeepsInv(env, d, m, at);
    case Begin(at) => BeginKeepsInv(env, d, at);
    case Sample(s, bytes, _) => if s.expectedLen.Some? { MeasuredFits(s, bytes); }
    case Estimate(window) => Estimator.EstimateIsSafe(window, d.numbers.expected);
    case _ => RecordedFits(env, d.record);
  }

  // ---------- What the numbers mean ----------

  /** A finished download shows all its bytes, its whole size and no time left. */
  lemma FinishedShowsAll(env: Env, d: Display)
    requires DisplayInv(env, d) && Enabled(env, d, Finish)
    ensures var n := Apply(env, d, Finish).numbers;
      n.eta == Some(0) && n.expected == ExpectedSize(d.record) == Some(n.completed) && n.speed == d.numbers.speed
  {
    assert PartialFiles.TotalLen(d.record.ranges) == ExpectedSize(d.record).value by {
      if d.record.ranges != [] { assert PartialFiles.TotalLen(d.record.ranges[1..]) == 0; }
    }
  }

  /** A run, and a restart, begin with what the record covers, without a speed, and
      with no time left exactly if nothing is missing. */
  lemma BeginningShowsRecord(env: Env, d: Display, now: nat)
    requires DisplayInv(env, d)
    ensures var n := Apply(env, d, Restart).numbers;
      && n.completed == Recorded(d.record) && n.expected == ExpectedSize(d.record) && n.speed.None?
      && n.eta == (if n.expected == Some(n.completed) then Some(0) else None)
    ensures var after := Apply(env, d, Begin(now));
      after == d || after.numbers == Apply(env, Display(after.record, d.numbers), Restart).numbers
    ensures Transition(env, d.record, Probing, now).Ok? ==>
      Apply(env, d, Begin(now)).record == Transition(env, d.record, Probing, now).value
  { }

  /** A sample shows the bytes counted, the length only once storage knows and tells
      it, and leaves speed and time left to the estimator. */
  lemma SamplesShowProgress(env: Env, d: Display, s: Storage.Store, bytes: nat, lengthTold: bool)
    requires DisplayInv(env, d) && Enabled(env, d, Sample(s, bytes, lengthTold))
    ensures var n := Apply(env, d, Sample(s, bytes, lengthTold)).numbers;
      && n.completed <= bytes && (bytes <= 9_007_199_254_740_991 ==> n.completed == bytes)
      && (n.expected.Some? <==> lengthTold && s.expectedLen.Some?)
      && (n.expected.Some? ==> n.expected == s.expectedLen)
      && n.speed == d.numbers.speed && n.eta == d.numbers.eta
  { }

  /** A deleted partial shows nothing completed; a partial that stayed changes nothing. */
  lemma DeletionShowsNothing(env: Env, d: Display)
    ensures Apply(env, d, Vanish) == d.(numbers := d.numbers.(
      completed := if d.record.partialPath.Some? then d.numbers.completed else 0))
  { }

  lemma MutationKeepsIdentity(env: Env, t: Task, m: Mutation, now: nat)
    requires Mutate(env, t, m, now).Ok?
    ensures Mutate(env, t, m, now).value.id == t.id
  { }

  lemma IdentityKept(env: Env, d: Display, c: Change)
    requires Enabled(env, d, c)
    ensures Apply(env, d, c).record.id == d.record.id
  {
    if c.Record? && Mutate(env, d.record, c.mutation, c.at).Ok? {
      MutationKeepsIdentity(env, d.record, c.mutation, c.at);
    }
    if c.Begin? && Transition(env, d.record, Probing, c.begunAt).Ok? {
      MutationKeepsIdentity(env, d.record, ToState(Probing), c.begunAt);
    }
  }

  // ---------- The engine's tasks ----------

  type Engine = map<TaskId, Display>

  ghost predicate EngineInv(env: Env, e: Engine) {
    |e| <= MAX_MANAGED_TASKS && forall id :: id in e ==> e[id].record.id == id && DisplayInv(env, e[id])
  }

  datatype EngineStep = Changed(id: TaskId, change: Change) | Added(record: Task) | Removed(gone: TaskId)

  ghost predicate StepEnabled(env: Env, e: Engine, s: EngineStep) {
    match s
    case Changed(id, c) => id in e && Enabled(env, e[id], c)
    case Added(t) => |e| < MAX_MANAGED_TASKS && t.id !in e && Sound(env, t)
    case Removed(_) => true
  }

  function Stepped(env: Env, e: Engine, s: EngineStep): Engine
    requires StepEnabled(env, e, s)
  {
    match s
    case Changed(id, c) => e[id := Apply(env, e[id], c)]
    case Added(t) => e[t.id := Display(t, FromRecord(t))]
    case Removed(id) => e - {id}
  }

  lemma UpdateKeepsEngine(env: Env, e: Engine, id: TaskId, d: Display)
    requires EngineInv(env, e) && id == d.record.id && DisplayInv(env, d) && (id in e || |e| < MAX_MANAGED_TASKS)
    ensures EngineInv(env, e[id := d])
  {
    SizeUpdated(e, id, d);
    var after := e[id := d];
    forall k | k in after ensures after[k].record.id == k && DisplayInv(env, after[k]) {
      if k != id { assert after[k] == e[k]; }
    }
  }

  lemma SizeUpdated(e: Engine, id: TaskId, d: Display)
    ensures |e[id := d]| == |e| + if id in e then 0 else 1
  {
    assert e[id := d].Keys == e.Keys + {id};
    assert |e[id := d].Keys| == |e[id := d]| && |e.Keys| == |e|;
    if id in e { assert e[id := d].Keys == e.Keys; }
  }

  lemma RemovalKeepsEngine(env: Env, e: Engine, id: TaskId)
    requires EngineInv(env, e)
    ensures EngineInv(env, e - {id})
  {
    FewerKeys((e - {id}).Keys, e.Keys);
    assert |(e - {id}).Keys| == |e - {id}| && |e.Keys| == |e|;
  }

  lemma StepKeepsEngine(env: Env, e: Engine, s: EngineStep)
    requires EngineInv(env, e) && StepEnabled(env, e, s)
    ensures EngineInv(env, Stepped(env, e, s))
  {
    match s
    case Changed(id, c) =>
      ChangeKeepsInv(env, e[id], c);
      IdentityKept(env, e[id], c);
      UpdateKeepsEngine(env, e, id, Apply(env, e[id], c));
    case Added(t) =>
      LoadedShows(env, t);
      UpdateKeepsEngine(env, e, t.id, Display(t, FromRecord(t)));
    case Removed(id) => RemovalKeepsEngine(env, e, id);
  }

  lemma {:induction false} FewerKeys(a: set<TaskId>, b: set<TaskId>)
    requires a <= b
    ensures |a| <= |b|
  {
    if a != {} {
      var x :| x in a;
      FewerKeys(a - {x}, b - {x});
    }
  }

  ghost predicate ValidRun(env: Env, e: Engine, steps: seq<EngineStep>)
    decreases |steps|
  {
    steps == [] || (StepEnabled(env, e, steps[0]) && ValidRun(env, Stepped(env, e, steps[0]), steps[1..]))
  }

  ghost function Run(env: Env, e: Engine, steps: seq<EngineStep>): Engine
    requires ValidRun(env, e, steps)
    decreases |steps|
  {
    if steps == [] then e else Run(env, Stepped(env, e, steps[0]), steps[1..])
  }

  lemma {:induction false} RunKeepsEngine(env: Env, e: Engine, steps: seq<EngineStep>)
    requires EngineInv(env, e) && ValidRun(env, e, steps)
    ensures EngineInv(env, map[]) && EngineInv(env, Run(env, e, steps))
    decreases |steps|
  {
    if steps != [] {
      StepKeepsEngine(env, e, steps[0]);
      RunKeepsEngine(env, Stepped(env, e, steps[0]), steps[1..]);
    }
  }

  // ---------- What the session sends ----------

  /** `details` stands for the fields that carry no progress number. */
  function ViewOf(d: Display, details: nat): Sessions.TaskView {
    Sessions.TaskView(d.record.id, details, d.numbers.completed, d.numbers.expected, d.numbers.speed, d.numbers.eta)
  }

  function SampleOf(d: Display): Sessions.Sample {
    Sessions.Sample(d.record.id, d.numbers.completed, d.numbers.expected, d.numbers.speed, d.numbers.eta)
  }

  predicate Shows(e: Engine, v: Sessions.TaskView) { v.id in e && v == ViewOf(e[v.id], v.details) }

  /** `snapshots`: one view for each task still managed, in the order of their ids. */
  predicate SnapshotOf(e: Engine, list: seq<Sessions.TaskView>) {
    && |list| == |e| && (forall i :: 0 <= i < |list| ==> Shows(e, list[i]))
    && (forall i, j :: 0 <= i < j < |list| ==> list[i].id != list[j].id)
  }

  lemma ViewIsAcceptable(env: Env, e: Engine, v: Sessions.TaskView)
    requires EngineInv(env, e) && Shows(e, v)
    ensures Connection.Acceptable(v)
  { }

  lemma SnapshotIsListing(env: Env, e: Engine, list: seq<Sessions.TaskView>)
    requires EngineInv(env, e) && SnapshotOf(e, list)
    ensures EventStream.Listing(list)
  {
    forall i | 0 <= i < |list| ensures Connection.Acceptable(list[i]) { ViewIsAcceptable(env, e, list[i]); }
  }

  /** A send that shows the state `e` of the engine, possibly an earlier one whose
      event waited in the buffer. */
  predicate SendFrom(e: Engine, s: Sessions.SessionState, send: EventStream.Send) {
    match send
    case Listed(list) => SnapshotOf(e, list)
    case Told(StateChanged(v)) => Shows(e, v)
    case Told(Completed(v)) => Shows(e, v)
    case Told(Failed(v)) => Shows(e, v)
    case Told(Progress(p)) => p.id in e && p == SampleOf(e[p.id])
    case Told(Snapshot(_)) => false
    case Told(Warning) => true
    case Silent => true
    case Commanded(correlation, command) =>
      correlation !in s.inbox && |s.inbox| < Connection.MAX_COMMANDS
      && (command.kind in {Sessions.Remove, Sessions.OpenFolder} ==> command.task.Some?)
    case Answered(correlation, result) =>
      correlation in s.inbox
      && (result.Snapshotted? ==>
            Shows(e, result.task) && (s.inbox[correlation].task.Some? ==>
              result.task.id == s.inbox[correlation].task.value))
  }

  lemma SendIsProper(env: Env, e: Engine, s: Sessions.SessionState, send: EventStream.Send)
    requires EngineInv(env, e) && SendFrom(e, s, send)
    ensures EventStream.Proper(s, send)
  {
    if send.Listed? { SnapshotIsListing(env, e, send.tasks); }
  }

  /** Each send shows some state of the engine. */
  ghost predicate SendsFrom(env: Env, engines: seq<Engine>, s: Sessions.SessionState, sends: seq<EventStream.Send>)
    requires |engines| == |sends| && forall i :: 0 <= i < |engines| ==> EngineInv(env, engines[i])
    decreases |sends|
  {
    sends == [] ||
    (SendFrom(engines[0], s, sends[0]) &&
     (SendIsProper(env, engines[0], s, sends[0]);
      var (next, ok) := EventStream.Performed(s, sends[0]);
      ok ==> SendsFrom(env, engines[1..], next, sends[1..])))
  }

  lemma {:induction false} SendsAreProper(env: Env, engines: seq<Engine>, s: Sessions.SessionState,
                                          sends: seq<EventStream.Send>)
    requires |engines| == |sends| && forall i :: 0 <= i < |engines| ==> EngineInv(env, engines[i])
    requires SendsFrom(env, engines, s, sends)
    ensures EventStream.AllProper(s, sends)
    decreases |sends|
  {
    if sends != [] {
      SendIsProper(env, engines[0], s, sends[0]);
      var (next, ok) := EventStream.Performed(s, sends[0]);
      if ok { SendsAreProper(env, engines[1..], next, sends[1..]); }
    }
  }

  /** Whatever states the engine passes through and whatever of them a session sends
      after its first snapshot, the client never rejects a message or a reply and
      shows exactly what was sent. */
  lemma EngineSessionStaysInStep(env: Env, engines: seq<Engine>, origin: Connection.Client, s: Sessions.SessionState,
                                 sends: seq<EventStream.Send>)
    requires |engines| == |sends| && forall i :: 0 <= i < |engines| ==> EngineInv(env, engines[i])
    requires SendsFrom(env, engines, s, sends)
    requires EventStream.InStep(EventStream.Received(origin, s.log), s) && EventStream.Named(s.inbox)
    requires EventStream.Received(origin, s.log).pending ==> sends == [] || sends[0].Listed?
    ensures EventStream.AllProper(s, sends)
    ensures var (after, ok) := EventStream.Served(s, sends);
      var c, d := EventStream.Received(origin, s.log), EventStream.Received(origin, after.log);
      d.connected && (ok ==> EventStream.InStep(d, after) && d.tasks == EventStream.AllShown(c.tasks, s, sends))
  {
    SendsAreProper(env, engines, s, sends);
    EventStream.SessionStaysInStep(origin, s, sends);
  }
}
