/** The two sides together: what the session writes, the client accepts, and the
    client shows exactly what was sent. */
module EventStream {
  import opened Ranges
  import opened Sessions
  import opened Connection

  /** A list the engine can send: bounded, well formed, one entry per task. */
  predicate Listing(tasks: seq<TaskView>) {
    && |tasks| <= MAX_SNAPSHOT_TASKS
    && (forall i :: 0 <= i < |tasks| ==> Acceptable(tasks[i]))
    && Distinct(tasks)
  }

  /** The client's part in one item of the common history. */
  function Handled(c: Client, w: Wire): Client {
    match w
    case Numbered(m) => EventReceived(c, m)
    case Answer(r) => ReplyReceived(c, r)
    case Posted(correlation, command) =>
      (match CommandPosted(c, correlation, command) case Some(next) => next case None => c)
  }

  function Received(c: Client, log: seq<Wire>): Client
    decreases |log|
  {
    if log == [] then c else Received(Handled(c, log[0]), log[1..])
  }

  lemma {:induction false} ReceivedAppend(c: Client, log: seq<Wire>, m: Wire)
    ensures Received(c, log + [m]) == Handled(Received(c, log), m)
    decreases |log|
  {
    if log == [] { assert log + [m] == [m]; assert [m][1..] == []; }
    else {
      assert (log + [m])[1..] == log[1..] + [m];
      ReceivedAppend(Handled(c, log[0]), log[1..], m);
    }
  }

  // ---------- One snapshot ----------

  lemma {:induction false} AssembledDistinct(known: TaskMap, tasks: seq<TaskView>)
    requires Distinct(known + tasks)
    ensures Assembled(known, tasks) == Some(known + tasks)
    decreases |tasks|
  {
    if tasks == [] {
      assert known + tasks == known;
    } else {
      assert (known + tasks)[|known|] == tasks[0];
      assert forall i :: 0 <= i < |known| ==> (known + tasks)[i] == known[i];
      assert (known + [tasks[0]]) + tasks[1..] == known + tasks;
      AssembledDistinct(known + [tasks[0]], tasks[1..]);
    }
  }

  /** The client between pages: nothing visible has changed yet. */
  predicate Assembling(c: Client, start: Client, s: SessionState, id: nat, tasks: seq<TaskView>, index: nat)
    requires Distinct(tasks) && index < PageCount(|tasks|)
  {
    && c == start.(assembly := c.assembly, nextSequence := s.sequence)
    && (index == 0 ==> c.assembly.None?)
    && (index > 0 ==>
          && index * PAGE_TASK_LIMIT <= |tasks|
          && c.assembly == Some(Assembly(id, index, tasks[..index * PAGE_TASK_LIMIT])))
  }

  /** The client after the last page: exactly the sent list, in its order. */
  predicate Replaced(c: Client, start: Client, s: SessionState, tasks: TaskMap) {
    c == start.(tasks := tasks, assembly := None, pending := false, nextSequence := s.sequence)
  }

  lemma PageAccepted(c: Client, start: Client, s: SessionState, id: nat, tasks: seq<TaskView>, index: nat)
    requires Listing(tasks) && index < PageCount(|tasks|) && Assembling(c, start, s, id, tasks, index)
    requires start.connected && start.helloAccepted && start.assembly.None?
    requires Sent(s, Snapshot(PageAt(id, tasks, index))).Some?
    ensures var next := Sent(s, Snapshot(PageAt(id, tasks, index))).value;
      var after := EventReceived(c, Message(s.sequence, Snapshot(PageAt(id, tasks, index))));
      if index + 1 == PageCount(|tasks|) then Replaced(after, start, next, tasks)
      else Assembling(after, start, next, id, tasks, index + 1)
  {
    PageJoins(id, tasks, index);
    PageFits(id, tasks, index);
  }

  /** A page continues the assembly by its own tasks. */
  lemma PageJoins(id: nat, tasks: seq<TaskView>, index: nat)
    requires Listing(tasks) && index < PageCount(|tasks|) && index * PAGE_TASK_LIMIT <= |tasks|
    ensures var page := PageAt(id, tasks, index);
      && Assembled(tasks[..index * PAGE_TASK_LIMIT], page.tasks) == Some(tasks[..PageEnd(|tasks|, index)])
      && (page.complete ==> tasks[..PageEnd(|tasks|, index)] == tasks)
  {
    var page := PageAt(id, tasks, index);
    var known := tasks[..index * PAGE_TASK_LIMIT];
    assert known + page.tasks == tasks[..PageEnd(|tasks|, index)];
    AssembledDistinct(known, page.tasks);
  }

  lemma PageFits(id: nat, tasks: seq<TaskView>, index: nat)
    requires Listing(tasks) && index < PageCount(|tasks|)
    ensures AcceptablePage(PageAt(id, tasks, index)) && index < MAX_SNAPSHOT_PAGES
    ensures index * PAGE_TASK_LIMIT + |PageAt(id, tasks, index).tasks| <= MAX_SNAPSHOT_TASKS
  { }

  /** Every page is accepted, no page but the last changes what is visible, and
      the last one replaces it by exactly the sent list. */
  lemma {:induction false} PagesAreAccepted(c: Client, start: Client, s: SessionState, id: nat, tasks: seq<TaskView>,
                                            index: nat, origin: Client)
    requires Listing(tasks) && index < PageCount(|tasks|) && Assembling(c, start, s, id, tasks, index)
    requires start.connected && start.helloAccepted && start.assembly.None?
    requires Received(origin, s.log) == c
    ensures var (after, ok) := PagesSent(s, id, tasks, index);
      && s.log <= after.log
      && (forall k :: |s.log| <= k < |after.log| ==>
            Received(origin, after.log[..k]).connected && Received(origin, after.log[..k]).tasks == start.tasks)
      && (if ok then Replaced(Received(origin, after.log), start, after, tasks)
          else Received(origin, after.log).connected && Received(origin, after.log).tasks == start.tasks)
    decreases PageCount(|tasks|) - index
  {
    var p := Snapshot(PageAt(id, tasks, index));
    if Sent(s, p).Some? {
      var next := Sent(s, p).value;
      PageAccepted(c, start, s, id, tasks, index);
      ReceivedAppend(origin, s.log, Numbered(Message(s.sequence, p)));
      if index + 1 < PageCount(|tasks|) {
        PagesAreAccepted(Received(origin, next.log), start, next, id, tasks, index + 1, origin);
        assert next.log[..|s.log|] == s.log;
        var after := PagesSent(next, id, tasks, index + 1).0;
        assert after.log[..|s.log|] == s.log;
      } else {
        assert next.log[..|s.log|] == s.log;
      }
    } else {
      assert s.log[..|s.log|] == s.log;
    }
  }

  // ---------- Whatever arrives ----------

  predicate SafeTask(t: TaskView) {
    && t.completed <= 9_007_199_254_740_991
    && (t.expected.Some? ==> t.expected.value <= 9_007_199_254_740_991)
    && (t.speed.Some? ==> t.speed.value <= 9_007_199_254_740_991)
    && (t.eta.Some? ==> t.eta.value <= 9_007_199_254_740_991)
  }

  predicate AllSafe(ts: seq<TaskView>) { forall i :: 0 <= i < |ts| ==> SafeTask(ts[i]) }

  predicate SafeClient(c: Client) { AllSafe(c.tasks) && (c.assembly.Some? ==> AllSafe(c.assembly.value.tasks)) }

  /** The page goes on with the snapshot being assembled, or starts one, and
      repeats no task. */
  predicate Continues(c: Client, p: Page) {
    && (p.pageIndex == 0 <==> c.assembly.None?)
    && (c.assembly.Some? ==> c.assembly.value.id == p.snapshotId && c.assembly.value.nextPage == p.pageIndex)
    && p.pageIndex < 10_000 && |Collected(c) + p.tasks| <= 10_000 && Distinct(Collected(c) + p.tasks)
  }

  function Collected(c: Client): TaskMap { if c.assembly.Some? then c.assembly.value.tasks else [] }

  predicate WellFormed(p: Page) {
    && |p.tasks| <= 200 && p.complete == p.nextCursor.None?
    && forall i :: 0 <= i < |p.tasks| ==> Bounded(p.tasks[i])
  }

  predicate Bounded(t: TaskView) { SafeTask(t) && (t.expected.Some? ==> t.completed <= t.expected.value) }

  predicate Fine(payload: Payload) {
    match payload
    case StateChanged(t) => Bounded(t)
    case Completed(t) => Bounded(t)
    case Failed(t) => Bounded(t)
    case Progress(p) => SafeTask(TaskView(p.id, 0, p.completed, p.expected, p.speed, p.eta))
    case _ => true
  }

  lemma {:induction false} AssembledExactly(known: TaskMap, tasks: seq<TaskView>)
    ensures Assembled(known, tasks).Some? <==> Distinct(known + tasks)
    decreases |tasks|
  {
    if tasks == [] {
      assert known + tasks == known;
    } else if Has(known, tasks[0].id) {
      assert (known + tasks)[|known|] == tasks[0] && (known + tasks)[Find(known, tasks[0].id)].id == tasks[0].id;
    } else {
      assert (known + [tasks[0]]) + tasks[1..] == known + tasks;
      AssembledExactly(known + [tasks[0]], tasks[1..]);
    }
  }

  lemma PageAcceptedExactly(c: Client, p: Page)
    requires c.connected
    ensures var after := SnapshotReceived(c, p);
      && (after.connected <==> WellFormed(p) && Continues(c, p))
      && after.tasks == (if after.connected && p.complete then Collected(c) + p.tasks else c.tasks)
      && (after.connected && !p.complete ==>
           after == c.(assembly := Some(Assembly(p.snapshotId, p.pageIndex + 1, Collected(c) + p.tasks))))
      && (after.connected && p.complete ==> after == c.(tasks := after.tasks, assembly := None, pending := false))
  {
    AssembledExactly(Collected(c), p.tasks);
    if Distinct(Collected(c) + p.tasks) { AssembledDistinct(Collected(c), p.tasks); }
    assert forall i :: 0 <= i < |p.tasks| ==> (Acceptable(p.tasks[i]) <==> Bounded(p.tasks[i]));
  }

  /** Exactly these events are accepted: the next in sequence after hello, a page
      that continues its snapshot, and anything else only between snapshots. An
      event that is not accepted closes the port and shows nothing. */
  lemma EventAcceptedExactly(c: Client, m: Message)
    requires c.connected
    ensures var after := EventReceived(c, m);
      && (after.connected <==>
           && c.helloAccepted && m.sequence == c.nextSequence
           && (if m.payload.Snapshot? then WellFormed(m.payload.page) && Continues(c, m.payload.page)
               else !c.pending && c.assembly.None? && Fine(m.payload)))
      && (after.connected ==> after.nextSequence == c.nextSequence + 1)
      && (!after.connected ==> after.tasks == c.tasks && after.commands == map[])
  {
    if m.payload.Snapshot? { PageAcceptedExactly(c.(nextSequence := c.nextSequence + 1), m.payload.page); }
  }

  /** Exactly these replies are accepted: to an open command of the same kind,
      with a result of that kind, about the commanded task. */
  lemma ReplyAcceptedExactly(c: Client, r: Reply)
    requires c.connected
    ensures var after := ReplyReceived(c, r);
      && (after.connected <==>
           c.helloAccepted && r.correlation in c.commands && r.kind == c.commands[r.correlation].kind
           && (r.outcome.Refused? || Answers(c.commands[r.correlation], r.outcome)))
      && (after.connected ==> after.commands == c.commands - {r.correlation})
      && (!after.connected ==> after.tasks == c.tasks && after.commands == map[])
  { }

  predicate Answers(command: Command, outcome: Outcome) {
    match outcome
    case Refused => false
    case Configured => command.kind == Settings
    case Removed(id) => command.kind == Remove && command.task == Some(id)
    case Opened(id) => command.kind == OpenFolder && command.task == Some(id)
    case OneTask(t) =>
      command.kind !in {Settings, Remove, OpenFolder} && Bounded(t)
      && (command.task.None? || command.task == Some(t.id))
  }

  lemma PutKeepsSafe(ts: TaskMap, t: TaskView)
    requires AllSafe(ts) && SafeTask(t)
    ensures AllSafe(Put(ts, t))
  { }

  lemma PageKeepsSafe(c: Client, p: Page)
    requires SafeClient(c) && c.connected
    ensures SafeClient(SnapshotReceived(c, p))
  {
    PageAcceptedExactly(c, p);
    if SnapshotReceived(c, p).connected {
      forall i | 0 <= i < |Collected(c) + p.tasks| ensures SafeTask((Collected(c) + p.tasks)[i]) { }
    }
  }

  lemma NewsKeepsSafe(c: Client, m: Message)
    requires SafeClient(c) && c.connected && !m.payload.Snapshot?
    ensures SafeClient(EventReceived(c, m))
  {
    match m.payload
    case StateChanged(t) => if Acceptable(t) { PutKeepsSafe(c.tasks, t); }
    case Completed(t) => if Acceptable(t) { PutKeepsSafe(c.tasks, t); }
    case Failed(t) => if Acceptable(t) { PutKeepsSafe(c.tasks, t); }
    case Progress(p) => ProgressShows(c.tasks, p);
    case _ =>
  }

  lemma EventKeepsSafe(c: Client, m: Message)
    requires SafeClient(c)
    ensures SafeClient(EventReceived(c, m))
  {
    if c.connected {
      if m.payload.Snapshot? { PageKeepsSafe(c.(nextSequence := c.nextSequence + 1), m.payload.page); }
      else { NewsKeepsSafe(c, m); }
    }
  }

  lemma ReplyKeepsSafe(c: Client, r: Reply)
    requires SafeClient(c)
    ensures SafeClient(ReplyReceived(c, r))
  {
    if c.connected {
      ReplyAcceptedExactly(c, r);
      if r.outcome.OneTask? && Acceptable(r.outcome.task) { PutKeepsSafe(c.tasks, r.outcome.task); }
    }
  }

  /** Whatever arrives in whatever order, the numbers shown are safe integers. */
  lemma {:induction false} OnlySafeNumbersAreShown(c: Client, log: seq<Wire>)
    requires SafeClient(c)
    ensures AllSafe(Received(c, log).tasks)
    decreases |log|
  {
    if log != [] {
      match log[0] {
        case Numbered(m) => EventKeepsSafe(c, m);
        case Answer(r) => ReplyKeepsSafe(c, r);
        case Posted(_, _) =>
      }
      OnlySafeNumbersAreShown(Handled(c, log[0]), log[1..]);
    }
  }

  lemma {:induction false} ClosedShowsNothingNew(c: Client, log: seq<Wire>)
    requires !c.connected
    ensures !Received(c, log).connected && Received(c, log).tasks == c.tasks
    decreases |log|
  {
    if log != [] { ClosedShowsNothingNew(Handled(c, log[0]), log[1..]); }
  }

  lemma CommandCount(m: map<nat, Command>, k: nat, command: Command)
    ensures |m - {k}| <= |m| && |m[k := command]| <= |m| + 1
  {
    assert (m - {k}).Keys == m.Keys - {k} && |(m - {k}).Keys| == |m - {k}|;
    assert m[k := command].Keys == m.Keys + {k} && |m[k := command].Keys| == |m[k := command]|;
    assert |m.Keys| == |m|;
  }

  lemma HandledCommands(c: Client, w: Wire)
    requires |c.commands| <= 32
    ensures |Handled(c, w).commands| <= 32
  {
    match w
    case Answer(r) => CommandCount(c.commands, r.correlation, Command(Settings, None)); ReplyKeepsCommands(c, r);
    case Posted(k, posted) => CommandCount(c.commands, k, posted);
    case Numbered(m) => EventKeepsCommands(c, m);
  }

  lemma EventKeepsCommands(c: Client, m: Message)
    ensures EventReceived(c, m).commands == c.commands || EventReceived(c, m).commands == map[]
  { }

  lemma ReplyKeepsCommands(c: Client, r: Reply)
    ensures var after := ReplyReceived(c, r).commands;
      after == c.commands || after == map[] || after == c.commands - {r.correlation}
  { }

  /** At most 32 commands wait for their replies, and a command is refused only
      while so many do. */
  lemma {:induction false} CommandsStayBounded(c: Client, log: seq<Wire>, correlation: nat, command: Command)
    requires |c.commands| <= 32
    ensures |Received(c, log).commands| <= 32
    ensures CommandPosted(Received(c, log), correlation, command).None? <==> |Received(c, log).commands| == 32
    decreases |log|
  {
    if log != [] {
      HandledCommands(c, log[0]);
      CommandsStayBounded(Handled(c, log[0]), log[1..], correlation, command);
    }
  }

  /** A client that missed an event closes its port at the next one, and whatever
      arrives later, it shows none of it. */
  lemma GapsCloseThePort(c: Client, m: Message, later: seq<Wire>)
    requires c.connected && m.sequence != c.nextSequence
    ensures var d := Received(c, [Numbered(m)] + later); !d.connected && d.tasks == c.tasks
  {
    var log := [Numbered(m)] + later;
    assert log[1..] == later;
    EventAcceptedExactly(c, m);
    ClosedShowsNothingNew(Handled(c, Numbered(m)), later);
  }

  // ---------- Whole sessions ----------

  datatype Send =
    | Listed(tasks: seq<TaskView>) | Told(payload: Payload) | Silent
    | Commanded(correlation: nat, command: Command) | Answered(answered: nat, result: EngineResult)

  /** The numbers of the tasks are acceptable, a command is posted under a fresh
      number while the table has room, and a reply is about the commanded task.
      `send_engine_event` writes nothing for a retry notice. */
  predicate Proper(s: SessionState, send: Send) {
    match send
    case Listed(tasks) => Listing(tasks)
    case Told(StateChanged(t)) => Acceptable(t)
    case Told(Completed(t)) => Acceptable(t)
    case Told(Failed(t)) => Acceptable(t)
    case Told(Progress(p)) => AcceptableSample(p)
    case Told(Snapshot(_)) => false
    case Told(Warning) => true
    case Silent => true
    case Commanded(correlation, command) =>
      correlation !in s.inbox && |s.inbox| < MAX_COMMANDS
        && (command.kind in {Remove, OpenFolder} ==> command.task.Some?)
    case Answered(correlation, result) =>
      correlation in s.inbox
      && (result.Snapshotted? ==>
            Acceptable(result.task) && (s.inbox[correlation].task.Some? ==>
              result.task.id == s.inbox[correlation].task.value))
  }

  function Performed(s: SessionState, send: Send): (SessionState, bool)
    requires Proper(s, send)
  {
    match send
    case Silent => (s, true)
    case Told(p) => (match Sent(s, p) case Some(next) => (next, true) case None => (s, false))
    case Listed(tasks) =>
      if s.token > MAX_SAFE then (s, false) else PagesSent(s.(token := s.token + 1), s.token, tasks, 0)
    case Commanded(correlation, command) => (Asked(s, correlation, command), true)
    case Answered(correlation, result) => (Replied(s, correlation, result), true)
  }

  /** Every send is proper when it is performed. */
  predicate AllProper(s: SessionState, sends: seq<Send>)
    decreases |sends|
  {
    sends == [] ||
    (Proper(s, sends[0]) &&
     (var (next, ok) := Performed(s, sends[0]); ok ==> AllProper(next, sends[1..])))
  }

  /** A session ends at the first send that cannot be numbered. */
  function Served(s: SessionState, sends: seq<Send>): (SessionState, bool)
    requires AllProper(s, sends)
    decreases |sends|
  {
    if sends == [] then (s, true) else
    var (next, ok) := Performed(s, sends[0]);
    if ok then Served(next, sends[1..]) else (next, false)
  }

  /** A sample changes the four numbers of its own task and nothing else. */
  function WithSample(tasks: seq<TaskView>, p: Sample): seq<TaskView> {
    seq(|tasks|, i requires 0 <= i < |tasks| =>
      if tasks[i].id == p.id then TaskView(p.id, tasks[i].details, p.completed, p.expected, p.speed, p.eta)
      else tasks[i])
  }

  /** A task replaces its earlier form in place; a new one comes last. */
  function WithTask(tasks: seq<TaskView>, t: TaskView): seq<TaskView> {
    if exists i :: 0 <= i < |tasks| && tasks[i].id == t.id
    then seq(|tasks|, i requires 0 <= i < |tasks| => if tasks[i].id == t.id then t else tasks[i])
    else tasks + [t]
  }

  /** Every task but one, in the same order. */
  function AllBut(tasks: seq<TaskView>, id: Id): seq<TaskView> {
    if tasks == [] then []
    else if tasks[0].id == id then AllBut(tasks[1..], id)
    else [tasks[0]] + AllBut(tasks[1..], id)
  }

  /** What the extension should show. */
  function Shown(tasks: seq<TaskView>, inbox: map<nat, Command>, send: Send): seq<TaskView> {
    match send
    case Listed(list) => list
    case Told(StateChanged(t)) => WithTask(tasks, t)
    case Told(Completed(t)) => WithTask(tasks, t)
    case Told(Failed(t)) => WithTask(tasks, t)
    case Told(Progress(p)) => WithSample(tasks, p)
    case Answered(correlation, result) =>
      if correlation !in inbox || result.Declined? then tasks
      else ShownAfter(tasks, inbox[correlation], result)
    case _ => tasks
  }

  /** A command that was carried out shows its task, or hides a removed one. */
  function ShownAfter(tasks: seq<TaskView>, command: Command, result: EngineResult): seq<TaskView> {
    match command.kind
    case Settings | OpenFolder => tasks
    case Remove => if command.task.Some? then AllBut(tasks, command.task.value) else tasks
    case Add | Pause | Resume | Cancel | Get => if result.Snapshotted? then WithTask(tasks, result.task) else tasks
  }

  lemma PutShows(tasks: TaskMap, t: TaskView)
    ensures Put(tasks, t) == WithTask(tasks, t)
  {
    var place := Find(tasks, t.id);
    if place < |tasks| {
      forall i | 0 <= i < |tasks| ensures tasks[i].id == t.id <==> i == place { }
    }
  }

  lemma ProgressShows(tasks: TaskMap, p: Sample)
    ensures Progressed(tasks, p) == WithSample(tasks, p)
  {
    var place := Find(tasks, p.id);
    if place < |tasks| {
      forall i | 0 <= i < |tasks| ensures tasks[i].id == p.id <==> i == place { }
      PutShows(tasks, Progressed(tasks, p)[place]);
    }
  }

  lemma {:induction false} AllButAbsent(tasks: seq<TaskView>, id: Id)
    requires forall i :: 0 <= i < |tasks| ==> tasks[i].id != id
    ensures AllBut(tasks, id) == tasks
  {
    if tasks != [] {
      AllButAbsent(tasks[1..], id);
      assert tasks == [tasks[0]] + tasks[1..];
    }
  }

  lemma {:induction false} AllButOne(tasks: seq<TaskView>, id: Id, place: nat)
    requires Distinct(tasks) && place < |tasks| && tasks[place].id == id
    ensures AllBut(tasks, id) == tasks[..place] + tasks[place + 1..]
  {
    var rest := tasks[1..];
    if place == 0 {
      AllButAbsent(rest, id);
    } else {
      AllButOne(rest, id, place - 1);
      assert tasks[..place] == [tasks[0]] + rest[..place - 1];
      assert tasks[place + 1..] == rest[place..];
    }
  }

  lemma WithoutShows(tasks: TaskMap, id: Id)
    ensures Without(tasks, id) == AllBut(tasks, id)
  {
    if Has(tasks, id) { AllButOne(tasks, id, Find(tasks, id)); } else { AllButAbsent(tasks, id); }
  }

  function AllShown(tasks: seq<TaskView>, s: SessionState, sends: seq<Send>): seq<TaskView>
    requires AllProper(s, sends)
    decreases |sends|
  {
    if sends == [] then tasks else
    var (next, ok) := Performed(s, sends[0]);
    if ok then AllShown(Shown(tasks, s.inbox, sends[0]), next, sends[1..]) else tasks
  }

  predicate Ready(c: Client) { c.connected && c.helloAccepted && !c.pending && c.assembly.None? }

  /** The client of a session after hello, at rest between sends. */
  predicate InStep(c: Client, s: SessionState) {
    c.connected && c.helloAccepted && c.assembly.None? && c.nextSequence == s.sequence && c.commands == s.inbox
  }

  lemma ReplyIsAccepted(c: Client, s: SessionState, correlation: nat, result: EngineResult)
    requires InStep(c, s) && Proper(s, Answered(correlation, result))
    requires s.inbox[correlation].kind in {Remove, OpenFolder} ==> s.inbox[correlation].task.Some?
    ensures var d := ReplyReceived(c, ReplyTo(correlation, s.inbox[correlation], result));
      InStep(d, Replied(s, correlation, result)) && d.tasks == Shown(c.tasks, s.inbox, Answered(correlation, result))
      && d.pending == c.pending
  {
    var outcome := ReplyTo(correlation, s.inbox[correlation], result).outcome;
    if outcome.OneTask? { PutShows(c.tasks, outcome.task); }
    if outcome.Removed? { WithoutShows(c.tasks, outcome.id); }
  }

  lemma ToldIsAccepted(c: Client, s: SessionState, p: Payload)
    requires InStep(c, s) && !c.pending && Proper(s, Told(p)) && Sent(s, p).Some?
    ensures var d := EventReceived(c, Message(s.sequence, p));
      InStep(d, Sent(s, p).value) && d.tasks == Shown(c.tasks, s.inbox, Told(p)) && !d.pending
  {
    match p
    case StateChanged(t) => PutShows(c.tasks, t);
    case Completed(t) => PutShows(c.tasks, t);
    case Failed(t) => PutShows(c.tasks, t);
    case Progress(sample) => ProgressShows(c.tasks, sample);
    case _ =>
  }

  lemma {:induction false} PagesKeepInbox(s: SessionState, id: nat, tasks: seq<TaskView>, index: nat)
    requires index <= PageCount(|tasks|)
    ensures PagesSent(s, id, tasks, index).0.inbox == s.inbox
    decreases PageCount(|tasks|) - index
  {
    if index < PageCount(|tasks|) && Sent(s, Snapshot(PageAt(id, tasks, index))).Some? {
      PagesKeepInbox(Sent(s, Snapshot(PageAt(id, tasks, index))).value, id, tasks, index + 1);
    }
  }

  lemma ListIsAccepted(origin: Client, s: SessionState, tasks: seq<TaskView>)
    requires InStep(Received(origin, s.log), s) && Listing(tasks)
    ensures var (after, ok) := Performed(s, Listed(tasks));
      var d := Received(origin, after.log);
      d.connected && (ok ==> InStep(d, after) && d.tasks == tasks && !d.pending)
  {
    if s.token <= MAX_SAFE {
      var c := Received(origin, s.log);
      PagesAreAccepted(c, c, s.(token := s.token + 1), s.token, tasks, 0, origin);
      PagesKeepInbox(s.(token := s.token + 1), s.token, tasks, 0);
    }
  }

  predicate Opens(send: Send) { send.Listed? || send.Silent? }

  lemma SendIsAccepted(origin: Client, s: SessionState, send: Send)
    requires Proper(s, send) && InStep(Received(origin, s.log), s) && Named(s.inbox)
    requires Received(origin, s.log).pending ==> Opens(send)
    ensures var (after, ok) := Performed(s, send);
      var c, d := Received(origin, s.log), Received(origin, after.log);
      && d.connected && Named(after.inbox)
      && (ok ==>
            && InStep(d, after) && d.tasks == Shown(c.tasks, s.inbox, send)
            && (d.pending <==> c.pending && send.Silent?))
  {
    var c := Received(origin, s.log);
    match send
    case Silent =>
    case Told(p) =>
      if Sent(s, p).Some? { ReceivedAppend(origin, s.log, Numbered(Message(s.sequence, p))); ToldIsAccepted(c, s, p); }
    case Listed(tasks) => ListIsAccepted(origin, s, tasks); ListKeepsInbox(s, tasks);
    case Commanded(correlation, command) => ReceivedAppend(origin, s.log, Posted(correlation, command));
    case Answered(correlation, result) =>
      ReceivedAppend(origin, s.log, Answer(ReplyTo(correlation, s.inbox[correlation], result)));
      ReplyIsAccepted(c, s, correlation, result);
  }

  lemma ListKeepsInbox(s: SessionState, tasks: seq<TaskView>)
    requires Listing(tasks)
    ensures Performed(s, Listed(tasks)).0.inbox == s.inbox
  {
    if s.token <= MAX_SAFE { PagesKeepInbox(s.(token := s.token + 1), s.token, tasks, 0); }
  }

  /** Commands about one task name it. */
  predicate Named(inbox: map<nat, Command>) {
    forall k :: k in inbox && inbox[k].kind in {Remove, OpenFolder} ==> inbox[k].task.Some?
  }

  /** For every session that starts with a snapshot, whatever follows: the client
      never rejects a message or a reply, its sequence check stays in step, and it
      shows exactly the result of applying the sends in order. */
  lemma {:induction false} SessionStaysInStep(origin: Client, s: SessionState, sends: seq<Send>)
    requires AllProper(s, sends) && InStep(Received(origin, s.log), s) && Named(s.inbox)
    requires Received(origin, s.log).pending ==> sends == [] || sends[0].Listed?
    ensures var (after, ok) := Served(s, sends);
      var c, d := Received(origin, s.log), Received(origin, after.log);
      && d.connected
      && (ok ==> InStep(d, after) && d.tasks == AllShown(c.tasks, s, sends) && (sends != [] || !c.pending ==> Ready(d)))
    decreases |sends|
  {
    if sends != [] {
      SendIsAccepted(origin, s, sends[0]);
      var (next, ok) := Performed(s, sends[0]);
      if ok { SessionStaysInStep(origin, next, sends[1..]); }
    }
  }

  // ---------- How long a session can go on ----------

  /** The numbers a send uses up: one for each message, and one for a snapshot. */
  function Messages(send: Send): nat {
    match send
    case Listed(tasks) => PageCount(|tasks|)
    case Told(_) => 1
    case _ => 0
  }

  function Tokens(sends: seq<Send>): nat {
    if sends == [] then 0
    else Messages(sends[0]) + (if sends[0].Listed? then 1 else 0) + Tokens(sends[1..])
  }

  lemma {:induction false} PagesFit(s: SessionState, id: nat, tasks: seq<TaskView>, index: nat)
    requires index <= PageCount(|tasks|) && s.sequence <= s.token
    requires s.token + PageCount(|tasks|) - index <= MAX_SAFE + 1
    ensures var (after, ok) := PagesSent(s, id, tasks, index);
      ok && after.token == s.token + PageCount(|tasks|) - index
      && after.sequence == s.sequence + PageCount(|tasks|) - index
    decreases PageCount(|tasks|) - index
  {
    if index < PageCount(|tasks|) {
      PagesFit(Sent(s, Snapshot(PageAt(id, tasks, index))).value, id, tasks, index + 1);
    }
  }

  /** A session never ends while the safe integers last: every message takes one
      sequence number and one token, and every snapshot one token more. */
  lemma {:induction false} SessionsLast(s: SessionState, sends: seq<Send>)
    requires AllProper(s, sends) && s.sequence <= s.token && s.token + Tokens(sends) <= MAX_SAFE
    ensures var (after, ok) := Served(s, sends);
      ok && after.token == s.token + Tokens(sends) && after.sequence <= after.token
    decreases |sends|
  {
    if sends != [] {
      if sends[0].Listed? { PagesFit(s.(token := s.token + 1), s.token, sends[0].tasks, 0); }
      SessionsLast(Performed(s, sends[0]).0, sends[1..]);
    }
  }

  /** Every event written carries a safe number. */
  predicate SafelyNumbered(log: seq<Wire>) {
    forall i :: 0 <= i < |log| && log[i].Numbered? ==> log[i].message.sequence <= 9_007_199_254_740_991
  }

  lemma {:induction false} PagesStaySafe(s: SessionState, id: nat, tasks: seq<TaskView>, index: nat)
    requires index <= PageCount(|tasks|) && SafelyNumbered(s.log)
    ensures SafelyNumbered(PagesSent(s, id, tasks, index).0.log)
    decreases PageCount(|tasks|) - index
  {
    if index < PageCount(|tasks|) && Sent(s, Snapshot(PageAt(id, tasks, index))).Some? {
      PagesStaySafe(Sent(s, Snapshot(PageAt(id, tasks, index))).value, id, tasks, index + 1);
    }
  }

  /** However long a session goes on, its event numbers stay safe integers. */
  lemma {:induction false} NumbersStaySafe(s: SessionState, sends: seq<Send>)
    requires AllProper(s, sends) && SafelyNumbered(s.log)
    ensures SafelyNumbered(Served(s, sends).0.log)
    decreases |sends|
  {
    if sends != [] {
      if sends[0].Listed? { PagesStaySafe(s.(token := s.token + 1), s.token, sends[0].tasks, 0); }
      var (next, ok) := Performed(s, sends[0]);
      if ok { NumbersStaySafe(next, sends[1..]); }
    }
  }

  /** A declined command is refused, and so is one about a task that brings none;
      any other gets the answer the client waits for. */
  lemma RepliesAnswer(correlation: nat, command: Command, result: EngineResult)
    requires command.kind in {Remove, OpenFolder} ==> command.task.Some?
    requires result.Snapshotted? ==>
      Bounded(result.task) && (command.task.Some? ==> result.task.id == command.task.value)
    ensures var reply := ReplyTo(correlation, command, result);
      && reply.correlation == correlation && reply.kind == command.kind
      && (if result.Declined? || (command.kind in {Add, Pause, Resume, Cancel, Get} && !result.Snapshotted?)
          then reply.outcome.Refused?
          else Answers(command, reply.outcome))
  { }
}
