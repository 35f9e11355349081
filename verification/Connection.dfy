/** The extension's side: one native port whose events must arrive in sequence,
    snapshots assembled before they replace the visible tasks, and replies matched
    with the commands they answer. */
module Connection {
  import opened Ranges
  import opened Sessions

  const MAX_SNAPSHOT_TASKS: nat := 10_000
  const MAX_SNAPSHOT_PAGES: nat := 10_000
  const MAX_PAGE_TASKS: nat := 200
  const MAX_COMMANDS: nat := 32

  predicate Distinct(ts: seq<TaskView>) { forall i, j :: 0 <= i < j < |ts| ==> ts[i].id != ts[j].id }

  /** An insertion-ordered map from ids to tasks. */
  type TaskMap = ts: seq<TaskView> | Distinct(ts)

  datatype Assembly = Assembly(id: nat, nextPage: nat, tasks: TaskMap)

  datatype Client = Client(
    tasks: TaskMap, connected: bool, helloAccepted: bool, pending: bool, assembly: Option<Assembly>,
    nextSequence: nat, commands: map<nat, Command>)

  predicate SafeOption(n: Option<nat>) { n.Some? ==> n.value <= MAX_SAFE }

  /** What `nativeTask` requires of the numbers; its text checks are not modelled. */
  predicate Acceptable(t: TaskView) {
    && t.completed <= MAX_SAFE && SafeOption(t.expected) && SafeOption(t.speed) && SafeOption(t.eta)
    && (t.expected.Some? ==> t.completed <= t.expected.value)
  }

  predicate AcceptableSample(p: Sample) {
    p.completed <= MAX_SAFE && SafeOption(p.expected) && SafeOption(p.speed) && SafeOption(p.eta)
  }

  predicate AcceptablePage(p: Page) {
    && p.pageIndex <= MAX_SAFE && |p.tasks| <= MAX_PAGE_TASKS
    && (p.complete <==> p.nextCursor.None?)
    && (forall i :: 0 <= i < |p.tasks| ==> Acceptable(p.tasks[i]))
  }

  function Find(ts: seq<TaskView>, id: Id): (i: nat)
    ensures i <= |ts|
    ensures i < |ts| ==> ts[i].id == id
    ensures forall j :: 0 <= j < i ==> ts[j].id != id
  {
    if ts == [] then 0 else if ts[0].id == id then 0 else 1 + Find(ts[1..], id)
  }

  predicate Has(ts: seq<TaskView>, id: Id) { Find(ts, id) < |ts| }

  /** Setting a known key keeps its place. */
  function Put(ts: TaskMap, t: TaskView): TaskMap {
    if Has(ts, t.id) then ts[Find(ts, t.id) := t] else ts + [t]
  }

  function Progressed(ts: TaskMap, p: Sample): TaskMap {
    if Has(ts, p.id) then
      Put(ts, ts[Find(ts, p.id)].(completed := p.completed, expected := p.expected, speed := p.speed, eta := p.eta))
    else ts
  }

  function Assembled(known: TaskMap, tasks: seq<TaskView>): Option<TaskMap>
    decreases |tasks|
  {
    if tasks == [] then Some(known)
    else if Has(known, tasks[0].id) then None
    else Assembled(known + [tasks[0]], tasks[1..])
  }

  function Without(ts: TaskMap, id: Id): TaskMap {
    if Has(ts, id) then ts[..Find(ts, id)] + ts[Find(ts, id) + 1..] else ts
  }

  /** The port is dropped with every open command; the visible tasks stay. */
  function Rejected(c: Client): Client { Client(c.tasks, false, false, false, None, c.nextSequence, map[]) }

  function SnapshotReceived(c: Client, p: Page): Client {
    if !AcceptablePage(p) || (p.pageIndex == 0 && c.assembly.Some?) then Rejected(c) else
    var assembly := if p.pageIndex == 0 then Some(Assembly(p.snapshotId, 0, [])) else c.assembly;
    if assembly.None? || assembly.value.id != p.snapshotId || assembly.value.nextPage != p.pageIndex
      || p.pageIndex >= MAX_SNAPSHOT_PAGES || |assembly.value.tasks| + |p.tasks| > MAX_SNAPSHOT_TASKS
    then Rejected(c)
    else match Assembled(assembly.value.tasks, p.tasks)
      case None => Rejected(c)
      case Some(tasks) =>
        if p.complete then c.(tasks := tasks, assembly := None, pending := false)
        else c.(assembly := Some(Assembly(p.snapshotId, p.pageIndex + 1, tasks)))
  }

  function EventReceived(c: Client, m: Message): Client {
    if !c.connected then c
    else if !c.helloAccepted || m.sequence != c.nextSequence then Rejected(c)
    else
      var next := c.(nextSequence := c.nextSequence + 1);
      if m.payload.Snapshot? then SnapshotReceived(next, m.payload.page)
      else if c.pending || c.assembly.Some? then Rejected(next)
      else match m.payload
        case StateChanged(t) => if Acceptable(t) then next.(tasks := Put(c.tasks, t)) else Rejected(next)
        case Completed(t) => if Acceptable(t) then next.(tasks := Put(c.tasks, t)) else Rejected(next)
        case Failed(t) => if Acceptable(t) then next.(tasks := Put(c.tasks, t)) else Rejected(next)
        case Progress(p) => if AcceptableSample(p) then next.(tasks := Progressed(c.tasks, p)) else Rejected(next)
        case _ => next
  }

  /** A command waits for its reply in the table; `None` when the table is full. */
  function CommandPosted(c: Client, correlation: nat, command: Command): Option<Client> {
    if |c.commands| >= MAX_COMMANDS then None else Some(c.(commands := c.commands[correlation := command]))
  }

  /** The effect of a reply that answers `command`. */
  function Resolved(c: Client, command: Command, outcome: Outcome): Client {
    if outcome.Refused? then c
    else match command.kind
      case Settings => if outcome.Configured? then c else Rejected(c)
      case Remove =>
        if outcome.Removed? && command.task == Some(outcome.id) then c.(tasks := Without(c.tasks, outcome.id))
          else Rejected(c)
      case OpenFolder => if outcome.Opened? && command.task == Some(outcome.folder) then c else Rejected(c)
      case _ =>
        if outcome.OneTask? && Acceptable(outcome.task)
          && (command.task.Some? ==> outcome.task.id == command.task.value)
        then c.(tasks := Put(c.tasks, outcome.task)) else Rejected(c)
  }

  function ReplyReceived(c: Client, r: Reply): Client {
    if !c.connected then c
    else if r.correlation !in c.commands || !c.helloAccepted || r.kind != c.commands[r.correlation].kind then
      Rejected(c)
    else Resolved(c.(commands := c.commands - {r.correlation}), c.commands[r.correlation], r.outcome)
  }

  class NativeConnection {
    var tasks: TaskMap
    var connected: bool
    var helloAccepted: bool
    var pending: bool
    var assembly: Option<Assembly>
    var nextSequence: nat
    var commands: map<nat, Command>

    function View(): Client reads this {
      Client(tasks, connected, helloAccepted, pending, assembly, nextSequence, commands)
    }

    /** A fresh port that awaits hello and a first snapshot. */
    method Connect()
      modifies this
      ensures if old(pending) || (old(connected) && old(helloAccepted) && old(assembly).None?) then
        View() == old(View())
        else View() == Client(old(tasks), true, false, true, None, 0, old(commands))
    {
      if pending || (connected && helloAccepted && assembly.None?) { return; }
      pending, helloAccepted, assembly, nextSequence, connected := true, false, None, 0, true;
    }

    method AcceptHello()
      modifies this
      ensures View() == if !old(connected) then old(View())
        else if old(helloAccepted) then Rejected(old(View())) else old(View()).(helloAccepted := true)
    {
      if !connected { return; }
      if helloAccepted { Reject(); } else { helloAccepted := true; }
    }

    method Reject()
      modifies this
      ensures View() == Rejected(old(View()))
    {
      pending, helloAccepted, assembly, connected, commands := false, false, None, false, map[];
    }

    method PostCommand(correlation: nat, command: Command) returns (posted: bool)
      modifies this
      ensures posted <==> CommandPosted(old(View()), correlation, command).Some?
      ensures View() == if posted then CommandPosted(old(View()), correlation, command).value else old(View())
    {
      if |commands| >= MAX_COMMANDS { return false; }
      commands := commands[correlation := command];
      return true;
    }

    method ReceiveReply(r: Reply)
      requires connected
      modifies this
      ensures View() == ReplyReceived(old(View()), r)
    {
      if r.correlation !in commands || !helloAccepted || r.kind != commands[r.correlation].kind {
        Reject();
        return;
      }
      var command := commands[r.correlation];
      commands := commands - {r.correlation};
      if r.outcome.Refused? { return; }
      match command.kind {
        case Settings => if !r.outcome.Configured? { Reject(); }
        case Remove =>
          if !r.outcome.Removed? || command.task != Some(r.outcome.id) { Reject(); return; }
          tasks := Without(tasks, r.outcome.id);
        case OpenFolder => if !r.outcome.Opened? || command.task != Some(r.outcome.folder) { Reject(); }
        case _ =>
          if !r.outcome.OneTask? || !Acceptable(r.outcome.task)
            || (command.task.Some? && r.outcome.task.id != command.task.value)
          {
            Reject();
            return;
          }
          tasks := Put(tasks, r.outcome.task);
      }
    }

    method ReceiveSnapshot(page: Page)
      modifies this
      ensures View() == SnapshotReceived(old(View()), page)
    {
      if !AcceptablePage(page) || (page.pageIndex == 0 && assembly.Some?) {
        Reject();
        return;
      }
      if page.pageIndex == 0 { assembly := Some(Assembly(page.snapshotId, 0, [])); }
      if assembly.None? || assembly.value.id != page.snapshotId || assembly.value.nextPage != page.pageIndex
        || page.pageIndex >= MAX_SNAPSHOT_PAGES || |assembly.value.tasks| + |page.tasks| > MAX_SNAPSHOT_TASKS
      {
        Reject();
        return;
      }
      var known: TaskMap := assembly.value.tasks;
      var collected: TaskMap := known;
      for i := 0 to |page.tasks|
        invariant Assembled(collected, page.tasks[i..]) == Assembled(known, page.tasks)
      {
        assert page.tasks[i..][1..] == page.tasks[i + 1..];
        if Has(collected, page.tasks[i].id) {
          Reject();
          return;
        }
        collected := collected + [page.tasks[i]];
      }
      assert page.tasks[|page.tasks|..] == [];
      if page.complete {
        tasks, assembly, pending := collected, None, false;
      } else {
        assembly := Some(Assembly(page.snapshotId, page.pageIndex + 1, collected));
      }
    }

    method ReceiveEvent(m: Message)
      requires connected
      modifies this
      ensures View() == EventReceived(old(View()), m)
    {
      if !helloAccepted || m.sequence != nextSequence {
        Reject();
        return;
      }
      nextSequence := nextSequence + 1;
      if m.payload.Snapshot? {
        ReceiveSnapshot(m.payload.page);
        return;
      }
      if pending || assembly.Some? {
        Reject();
        return;
      }
      match m.payload {
        case StateChanged(t) => if Acceptable(t) { tasks := Put(tasks, t); } else { Reject(); }
        case Completed(t) => if Acceptable(t) { tasks := Put(tasks, t); } else { Reject(); }
        case Failed(t) => if Acceptable(t) { tasks := Put(tasks, t); } else { Reject(); }
        case Progress(p) => if AcceptableSample(p) { tasks := Progressed(tasks, p); } else { Reject(); }
        case _ =>
      }
    }
  }
}
