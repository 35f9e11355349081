/** The helper's side of the connection: numbered event messages, snapshots cut
    into pages, and one reply for each command. */
module Sessions {
  import opened Ranges

  const MAX_SAFE: nat := 9_007_199_254_740_991
  const PAGE_TASK_LIMIT: nat := 4

  type Id = string

  datatype TaskView = TaskView(
    id: Id, details: nat, completed: nat, expected: Option<nat>, speed: Option<nat>, eta: Option<nat>)

  datatype Sample = Sample(id: Id, completed: nat, expected: Option<nat>, speed: Option<nat>, eta: Option<nat>)

  datatype Page = Page(snapshotId: nat, pageIndex: nat, tasks: seq<TaskView>, nextCursor: Option<nat>, complete: bool)

  datatype Payload =
    | Snapshot(page: Page) | StateChanged(changed: TaskView) | Completed(done: TaskView) | Failed(failed: TaskView)
    | Progress(sample: Sample) | Warning

  datatype Message = Message(sequence: nat, payload: Payload)

  datatype Kind = Add | Pause | Resume | Cancel | Get | Remove | OpenFolder | Settings

  /** A command and the task it names, if any. */
  datatype Command = Command(kind: Kind, task: Option<Id>)

  datatype Outcome = Refused | OneTask(task: TaskView) | Removed(id: Id) | Opened(folder: Id) | Configured

  datatype Reply = Reply(correlation: nat, kind: Kind, outcome: Outcome)

  /** What passes between the two ends: the helper writes events and replies, and
      the client posts commands. */
  datatype Wire = Numbered(message: Message) | Answer(reply: Reply) | Posted(correlation: nat, command: Command)

  /** `inbox` holds the commands not answered yet. */
  datatype SessionState = SessionState(sequence: nat, token: nat, inbox: map<nat, Command>, log: seq<Wire>)

  /** `None` when the safe integers are exhausted; nothing is written then. */
  function Sent(s: SessionState, p: Payload): Option<SessionState> {
    if s.sequence > MAX_SAFE || s.token > MAX_SAFE then None
    else Some(SessionState(s.sequence + 1, s.token + 1, s.inbox, s.log + [Numbered(Message(s.sequence, p))]))
  }

  function Asked(s: SessionState, correlation: nat, command: Command): SessionState {
    s.(inbox := s.inbox[correlation := command], log := s.log + [Posted(correlation, command)])
  }

  /** What the engine did about a command. */
  datatype EngineResult = Declined | Snapshotted(task: TaskView) | Done

  /** The reply to a command: a task for the commands about one, the identifier it
      named for the others, and no task at all for settings. */
  function ReplyTo(correlation: nat, command: Command, result: EngineResult): Reply {
    var outcome :=
      if result.Declined? then Refused
      else match command.kind
        case Remove => if command.task.Some? then Removed(command.task.value) else Refused
        case OpenFolder => if command.task.Some? then Opened(command.task.value) else Refused
        case Settings => Configured
        case _ => if result.Snapshotted? then OneTask(result.task) else Refused;
    Reply(correlation, command.kind, outcome)
  }

  /** Replies carry no sequence number. */
  function Replied(s: SessionState, correlation: nat, result: EngineResult): SessionState
    requires correlation in s.inbox
  {
    s.(inbox := s.inbox - {correlation}, log := s.log + [Answer(ReplyTo(correlation, s.inbox[correlation], result))])
  }

  function PageCount(n: nat): (c: nat)
    ensures c >= 1 && (c - 1) * PAGE_TASK_LIMIT <= n <= c * PAGE_TASK_LIMIT
    ensures n > 0 ==> (c - 1) * PAGE_TASK_LIMIT < n
  {
    if n == 0 then 1 else (n + PAGE_TASK_LIMIT - 1) / PAGE_TASK_LIMIT
  }

  function PageEnd(n: nat, index: nat): nat {
    if (index + 1) * PAGE_TASK_LIMIT < n then (index + 1) * PAGE_TASK_LIMIT else n
  }

  function PageAt(id: nat, tasks: seq<TaskView>, index: nat): Page
    requires index < PageCount(|tasks|)
  {
    var end := PageEnd(|tasks|, index);
    var complete := index + 1 == PageCount(|tasks|);
    Page(id, index, tasks[index * PAGE_TASK_LIMIT..end], if complete then None else Some(end), complete)
  }

  /** Pages `index` onwards, and whether all of them could be numbered. */
  function PagesSent(s: SessionState, id: nat, tasks: seq<TaskView>, index: nat): (SessionState, bool)
    requires index <= PageCount(|tasks|)
    decreases PageCount(|tasks|) - index
  {
    if index == PageCount(|tasks|) then (s, true)
    else match Sent(s, Snapshot(PageAt(id, tasks, index)))
      case None => (s.(sequence := if s.sequence > MAX_SAFE then s.sequence else s.sequence + 1), false)
      case Some(next) => PagesSent(next, id, tasks, index + 1)
  }

  class Session {
    var sequence: nat
    var token: nat
    var inbox: map<nat, Command>
    var log: seq<Wire>

    function View(): SessionState reads this { SessionState(sequence, token, inbox, log) }

    constructor ()
      ensures View() == SessionState(0, 0, map[], [])
    {
      sequence, token, inbox, log := 0, 0, map[], [];
    }

    method SendReply(correlation: nat, result: EngineResult)
      requires correlation in inbox
      modifies this
      ensures View() == Replied(old(View()), correlation, result)
    {
      log := log + [Answer(ReplyTo(correlation, inbox[correlation], result))];
      inbox := inbox - {correlation};
    }

    method SendEvent(p: Payload) returns (ok: bool)
      modifies this
      ensures ok <==> old(sequence) <= MAX_SAFE && old(token) <= MAX_SAFE
      ensures ok ==> View() == SessionState(old(sequence) + 1, old(token) + 1, old(inbox),
        old(log) + [Numbered(Message(old(sequence), p))])
      ensures Sent(old(View()), p) == if ok then Some(View()) else None
      ensures !ok ==>
        View() == old(View()).(sequence := if old(sequence) > MAX_SAFE then old(sequence) else old(sequence) + 1)
    {
      if sequence > MAX_SAFE { return false; }
      var current := sequence;
      sequence := sequence + 1;
      if token > MAX_SAFE { return false; }
      token := token + 1;
      log := log + [Numbered(Message(current, p))];
      return true;
    }

    method SendSnapshotEvents(tasks: seq<TaskView>) returns (ok: bool)
      modifies this
      ensures old(token) > MAX_SAFE ==> !ok && View() == old(View())
      ensures old(token) <= MAX_SAFE ==>
        (View(), ok) == PagesSent(old(View()).(token := old(token) + 1), old(token), tasks, 0)
    {
      if token > MAX_SAFE { return false; }
      var id := token;
      token := token + 1;
      var pageCount := PageCount(|tasks|);
      for index := 0 to pageCount
        invariant PagesSent(View(), id, tasks, index) == PagesSent(old(View()).(token := id + 1), id, tasks, 0)
      {
        var page := PageAt(id, tasks, index);
        var sent := SendEvent(Snapshot(page));
        if !sent { return false; }
      }
      return true;
    }
  }
}
