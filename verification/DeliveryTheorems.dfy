/** What a final name reaches, over every history of a task. */
module DeliveryTheorems {
  import opened Ranges
  import opened TaskRecord
  import opened Network
  import opened Lifecycle
  import opened LifecycleSafety
  import opened Recovery
  import opened RecoveryTheorems
  import opened Delivery
  import opened DeliverySafety
  import Storage
  import Transfer
  import Download

  ghost predicate ValidRun(env: Env, hash: Storage.Hash, s: State, steps: seq<Delivery.Step>)
    requires DeliveryInv(env, hash, s)
    decreases |steps|
  {
    steps == [] ||
    (Delivery.Enabled(env, hash, s, steps[0]) &&
     (StepDelivers(env, hash, s, steps[0]); ValidRun(env, hash, Delivery.Apply(env, hash, s, steps[0]), steps[1..])))
  }

  ghost function Run(env: Env, hash: Storage.Hash, s: State, steps: seq<Delivery.Step>): State
    requires DeliveryInv(env, hash, s) && ValidRun(env, hash, s, steps)
    decreases |steps|
  {
    if steps == [] then s
    else
      StepDelivers(env, hash, s, steps[0]);
      Run(env, hash, Delivery.Apply(env, hash, s, steps[0]), steps[1..])
  }

  lemma {:induction false} RunDelivers(env: Env, hash: Storage.Hash, s: State, steps: seq<Delivery.Step>)
    requires DeliveryInv(env, hash, s) && ValidRun(env, hash, s, steps)
    ensures DeliveryInv(env, hash, Run(env, hash, s, steps))
    decreases |steps|
  {
    if steps != [] {
      StepDelivers(env, hash, s, steps[0]);
      RunDelivers(env, hash, Delivery.Apply(env, hash, s, steps[0]), steps[1..]);
    }
  }

  /** Whatever a crash would leave now. */
  ghost predicate MayRemain(b: Bytes, left: seq<Storage.Byte>) {
    match b
    case Live(t, _) => Download.SurvivesCrash(t.store, left)
    case Settled(disk) => left == disk
  }

  /** A durable final name is in the directory, and what it reaches, whatever a
      crash does, is the whole version of the recorded resource, with the digest the
      user supplied. */
  ghost predicate Delivered(env: Env, hash: Storage.Hash, s: State, left: seq<Storage.Byte>) {
    var t := Durable(s.world);
    t.finalPath.Some? && MayRemain(s.bytes, left) ==>
      && t.finalPath.value in s.world.disk.names
      && t.resource.Some? && Describes(s.acc, t.resource.value) && Version(s.acc)
      && left == Transfer.Content(s.acc)
      && (t.expectedSha256.Some? ==> hash(left) == t.expectedSha256.value)
  }

  lemma InvariantDelivers(env: Env, hash: Storage.Hash, s: State, left: seq<Storage.Byte>)
    requires DeliveryInv(env, hash, s)
    ensures Delivered(env, hash, s, left)
  {
    var t := Durable(s.world);
    if t.finalPath.Some? && MayRemain(s.bytes, left) {
      assert Consistent(t) && t.state in {Promoting, Completed};
      assert s.world.disk.whole && Whole(s.bytes, s.acc);
      if s.bytes.Live? { assert left == s.bytes.t.store.data; }
    }
  }

  /** Over every interleaving of workers, controls, failures, crashes and recoveries
      from the creation of a task, what a durable final name reaches is exactly the
      accepted version. */
  lemma FinalNameReachesAcceptedBytes(env: Env, hash: Storage.Hash, id: TaskId, url: string, needsSession: bool,
                                      digest: Option<seq<Storage.Byte>>, dir: Path, name: string, workers: nat,
                                      now: nat, acc: Accepts, steps: seq<Delivery.Step>, left: seq<Storage.Byte>)
    requires Idempotent(env) && Sanitizes(env)
    requires NewTask(env, id, url, needsSession, digest, dir, name, workers, now).Ok?
    requires Version(acc)
    ensures var s := Undelivered(NewTask(env, id, url, needsSession, digest, dir, name, workers, now).value, acc);
      DeliveryInv(env, hash, s) && (ValidRun(env, hash, s, steps) ==>
        Delivered(env, hash, Run(env, hash, s, steps), left))
  {
    var t := NewTask(env, id, url, needsSession, digest, dir, name, workers, now).value;
    NewTaskIsSound(env, id, url, needsSession, digest, dir, name, workers, now);
    var s := Undelivered(t, acc);
    if ValidRun(env, hash, s, steps) {
      RunDelivers(env, hash, s, steps);
      InvariantDelivers(env, hash, Run(env, hash, s, steps), left);
    }
  }

  /** A task without a file yet; the version is replaced when one is created. */
  function Undelivered(t: Task, acc: Accepts): State {
    State(FreshWorld(t), Settled(seq(acc.total, i => 0)), acc)
  }

  /** A delivered file keeps its name and its version. */
  lemma {:induction false} DeliveryIsFinal(env: Env, hash: Storage.Hash, s: State, steps: seq<Delivery.Step>)
    requires DeliveryInv(env, hash, s) && ValidRun(env, hash, s, steps) && Durable(s.world).finalPath.Some?
    ensures var end := Run(env, hash, s, steps);
      Durable(end.world).finalPath == Durable(s.world).finalPath && end.acc == s.acc
    decreases |steps|
  {
    if steps != [] {
      var next := Delivery.Apply(env, hash, s, steps[0]);
      StepDelivers(env, hash, s, steps[0]);
      if steps[0].Section? {
        PublishedStep(env, s.world, steps[0].h);
        NoNewVersion(env, hash, s, steps[0]);
      }
      DeliveryIsFinal(env, hash, next, steps[1..]);
    }
  }

  lemma NoNewVersion(env: Env, hash: Storage.Hash, s: State, step: Delivery.Step)
    requires DeliveryInv(env, hash, s) && Delivery.Enabled(env, hash, s, step) && Durable(s.world).finalPath.Some?
    ensures Delivery.Apply(env, hash, s, step).acc == s.acc
  { }

  /** What storage reports always meets what the run assumes of a capture. */
  lemma CapturesAlwaysFit(env: Env, hash: Storage.Hash, s: State, c: Capture, flushed: bool)
    requires DeliveryInv(env, hash, s) && s.world.Up? && s.world.life.task.partialPath.Some?
    requires Captures(s.bytes, c, flushed)
    ensures CaptureFits(s.world.life, c) && Measures(c, s.world.disk)
  {
    var t := s.world.life.task;
    assert NewResource(env, t.resource.value).Ok?;
    assert c.partial.len == Some(s.acc.total);
  }
}
