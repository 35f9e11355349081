/** The partial file: disjoint write ownership, canonical completed coverage,
    and the validate-then-publish lifecycle. Operating-system outcomes are
    parameters; a failed write may leave any bytes inside its own span. */
module Storage {
  import opened Ranges

  type Byte = b: int | 0 <= b < 256
  type Digest = seq<Byte>
  type Hash = seq<Byte> -> Digest

  datatype Lifecycle = Active | Validating | Validated | Published

  datatype Assignment = Assignment(range: FileRange, nextOffset: nat)

  datatype StorageError =
    | NotActive | StreamUnavailable | InvalidStreamLimit | StreamLimitExceeded | LengthUnknown
    | RangeOutOfBounds | OverlappingAssignment | AssignmentClosed | WriteOutOfBounds
    | IncompleteAssignment | ActiveAssignments | IncompleteCoverage | FileLengthChanged
    | ChecksumMismatch | ValidationCancelled | InvalidCompletedCoverage | InvalidDestination | Io

  /** The mutex-guarded state together with the file it describes. `unsynced`
      lists the spans written since the last flush. */
  datatype Store = Store(
    lifecycle: Lifecycle,
    nextId: nat,
    active: map<nat, Assignment>,
    streamActive: bool,
    completed: seq<FileRange>,
    expectedLen: Option<nat>,
    data: seq<Byte>,
    unsynced: seq<FileRange>)

  /** How the operating system answers one write. */
  datatype WriteIo = Wrote | Torn(left: seq<Byte>)

  function WriteAt(data: seq<Byte>, offset: nat, bytes: seq<Byte>): seq<Byte>
    requires offset <= |data|
  {
    if offset + |bytes| <= |data| then data[..offset] + bytes + data[offset + |bytes|..]
    else data[..offset] + bytes
  }

  // ---------- Segment ownership ----------

  predicate OverlapsActive(active: map<nat, Assignment>, range: FileRange) {
    exists id :: id in active && Overlaps(range, active[id].range)
  }

  function Assign(s: Store, range: FileRange): Result<(Store, nat), StorageError> {
    if s.lifecycle != Active then Err(NotActive)
    else if s.streamActive then Err(StreamUnavailable)
    else if s.expectedLen.None? then Err(LengthUnknown)
    else if range.end > s.expectedLen.value then Err(RangeOutOfBounds)
    else if !DisjointFrom(s.completed, range) || OverlapsActive(s.active, range) then Err(OverlappingAssignment)
    else
      Ok((s.(nextId := s.nextId + 1, active := s.active[s.nextId := Assignment(range, range.start)]), s.nextId))
  }

  function SegmentWrite(s: Store, id: nat, bytes: seq<Byte>, io: WriteIo): (Store, Result<(), StorageError>)
    requires id in s.active ==> s.active[id].nextOffset <= |s.data|
  {
    if bytes == [] then (s, Ok(()))
    else if s.lifecycle != Active then (s, Err(NotActive))
    else if id !in s.active then (s, Err(AssignmentClosed))
    else
      var owner := s.active[id];
      var writeEnd := owner.nextOffset + |bytes|;
      if writeEnd > owner.range.end then (s, Err(WriteOutOfBounds))
      else
        var touched := s.unsynced + [Span(owner.nextOffset, writeEnd)];
        match io
        case Torn(left) =>
          var kept := if |left| <= |bytes| then left else left[..|bytes|];
          (s.(data := WriteAt(s.data, owner.nextOffset, kept), unsynced := touched), Err(Io))
        case Wrote =>
          (s.(data := WriteAt(s.data, owner.nextOffset, bytes), unsynced := touched,
              active := s.active[id := owner.(nextOffset := writeEnd)]), Ok(()))
  }

  function SegmentFinish(s: Store, id: nat): Result<Store, StorageError> {
    if s.lifecycle != Active then Err(NotActive)
    else if id !in s.active then Err(AssignmentClosed)
    else if s.active[id].nextOffset != s.active[id].range.end then Err(IncompleteAssignment)
    else
      Ok(s.(active := s.active - {id}, completed := InsertCompleted(s.completed, s.active[id].range)))
  }

  function SegmentDrop(s: Store, id: nat): Store { s.(active := s.active - {id}) }

  // ---------- Flush and the unknown-length stream ----------

  function DurableCompletedRanges(s: Store, flushed: bool): (Store, Result<seq<FileRange>, StorageError>) {
    if s.lifecycle != Active then (s, Err(NotActive))
    else if !flushed then (s, Err(Io))
    else (s.(unsynced := []), Ok(s.completed))
  }

  function BeginStream(s: Store, maximum: nat, truncated: bool): (Store, Result<(), StorageError>) {
    if maximum == 0 then (s, Err(InvalidStreamLimit))
    else if s.lifecycle != Active || s.streamActive || s.active != map[] || s.completed != [] || s.expectedLen.Some?
    then (s, Err(StreamUnavailable))
    else if !truncated then (s, Err(Io))
    else (s.(streamActive := true, data := [], unsynced := []), Ok(()))
  }

  function StreamWrite(s: Store, written: nat, maximum: nat, bytes: seq<Byte>, io: WriteIo)
    : (Store, Result<nat, StorageError>)
  {
    if bytes == [] then (s, Ok(written))
    else if written + |bytes| > maximum then (s, Err(StreamLimitExceeded))
    else if s.lifecycle != Active || !s.streamActive || written > |s.data| then (s, Err(StreamUnavailable))
    else
      var touched := s.unsynced + [Span(written, written + |bytes|)];
      match io
      case Torn(left) =>
        var kept := if |left| <= |bytes| then left else left[..|bytes|];
        (s.(data := WriteAt(s.data, written, kept), unsynced := touched), Err(Io))
      case Wrote =>
        (s.(data := WriteAt(s.data, written, bytes), unsynced := touched), Ok(written + |bytes|))
  }

  function StreamFinish(s: Store, written: nat, flushed: bool): (Store, Result<nat, StorageError>) {
    if s.lifecycle != Active || !s.streamActive then (s, Err(StreamUnavailable))
    else if |s.data| != written then (s, Err(FileLengthChanged))
    else if !flushed then (s, Err(Io))
    else
      (s.(expectedLen := Some(written), streamActive := false, unsynced := [],
          completed := if written > 0 then [Span(0, written)] else []), Ok(written))
  }

  function StreamDrop(s: Store): Store { s.(streamActive := false) }

  // ---------- Validation lease and publication ----------

  function BeginValidate(s: Store): Result<Store, StorageError> {
    if s.lifecycle != Active then Err(NotActive)
    else if s.active != map[] || s.streamActive then Err(ActiveAssignments)
    else if s.expectedLen.None? then Err(LengthUnknown)
    else if !HasExactCoverage(s.completed, s.expectedLen.value) then Err(IncompleteCoverage)
    else Ok(s.(lifecycle := Validating))
  }

  /** The end of validation: `stopped` is a lock, flush, read, or cancellation
      failure. Any failure drops the lease, which re-activates the file. */
  function EndValidate(s: Store, digest: Option<Digest>, hash: Hash, stopped: Option<StorageError>)
    : (Store, Result<(), StorageError>)
  {
    if s.lifecycle != Validating then (s, Err(NotActive))
    else if stopped.Some? then (s.(lifecycle := Active), Err(stopped.value))
    else if s.expectedLen != Some(|s.data|) then (s.(lifecycle := Active), Err(FileLengthChanged))
    else if digest.Some? && hash(s.data) != digest.value then (s.(lifecycle := Active), Err(ChecksumMismatch))
    else (s.(lifecycle := Validated, unsynced := []), Ok(()))
  }

  function DropLease(s: Store): Store {
    if s.lifecycle in {Validating, Validated} then s.(lifecycle := Active) else s
  }

  /** `linked` is the outcome of the create-new hard link loop. */
  function PromoteValidated(s: Store, linked: bool): (Store, Result<(), StorageError>) {
    if s.lifecycle != Validated then (s, Err(NotActive))
    else if s.active != map[] || s.streamActive then (s, Err(ActiveAssignments))
    else if s.expectedLen.None? then (s, Err(LengthUnknown))
    else if !HasExactCoverage(s.completed, s.expectedLen.value) then (s, Err(IncompleteCoverage))
    else if s.expectedLen.value != |s.data| then (s, Err(FileLengthChanged))
    else if !linked then (s, Err(Io))
    else (s.(lifecycle := Published, unsynced := []), Ok(()))
  }

  // ---------- Every operation, over every run ----------

  datatype StoreOp =
    | OpAssign(range: FileRange) | OpWrite(id: nat, bytes: seq<Byte>, io: WriteIo)
    | OpFinish(finished: nat) | OpDrop(dropped: nat) | OpFlush(flushed: bool)
    | OpBeginStream(maximum: nat, truncated: bool)
    | OpStreamWrite(written: nat, limit: nat, chunk: seq<Byte>, sio: WriteIo)
    | OpStreamFinish(total: nat, synced: bool) | OpStreamDrop
    | OpBeginValidate | OpEndValidate(stopped: Option<StorageError>) | OpDropLease | OpPromote(linked: bool)

  ghost function Apply(s: Store, op: StoreOp, digest: Option<Digest>, hash: Hash): Store
    requires Inv(s)
  {
    match op
    case OpAssign(range) => (match Assign(s, range) case Ok(r) => r.0 case Err(_) => s)
    case OpWrite(id, bytes, io) => SegmentWrite(s, id, bytes, io).0
    case OpFinish(id) => (match SegmentFinish(s, id) case Ok(r) => r case Err(_) => s)
    case OpDrop(id) => SegmentDrop(s, id)
    case OpFlush(flushed) => DurableCompletedRanges(s, flushed).0
    case OpBeginStream(maximum, truncated) => BeginStream(s, maximum, truncated).0
    case OpStreamWrite(written, limit, chunk, io) => StreamWrite(s, written, limit, chunk, io).0
    case OpStreamFinish(total, synced) => StreamFinish(s, total, synced).0
    case OpStreamDrop => StreamDrop(s)
    case OpBeginValidate => (match BeginValidate(s) case Ok(r) => r case Err(_) => s)
    case OpEndValidate(stopped) => EndValidate(s, digest, hash, stopped).0
    case OpDropLease => DropLease(s)
    case OpPromote(linked) => PromoteValidated(s, linked).0
  }

  ghost predicate OwnedBy(owner: Assignment, completed: seq<FileRange>, len: nat) {
    && owner.range.end <= len
    && owner.range.start <= owner.nextOffset <= owner.range.end
    && DisjointFrom(completed, owner.range)
  }

  ghost predicate Owned(active: map<nat, Assignment>, completed: seq<FileRange>, len: nat, nextId: nat) {
    && (forall id :: id in active ==> id < nextId && OwnedBy(active[id], completed, len))
    && (forall i, j :: i in active && j in active && i != j ==> !Overlaps(active[i].range, active[j].range))
  }

  ghost predicate Inv(s: Store) {
    && Canonical(s.completed)
    && (s.expectedLen.None? ==> s.active == map[] && s.completed == [])
    && (s.expectedLen.Some? ==>
         |s.data| == s.expectedLen.value && Within(s.completed, s.expectedLen.value)
         && !s.streamActive && Owned(s.active, s.completed, s.expectedLen.value, s.nextId))
    && (s.lifecycle != Active ==>
         s.active == map[] && !s.streamActive && s.expectedLen.Some?
         && HasExactCoverage(s.completed, s.expectedLen.value))
  }

  function Created(expectedLen: Option<nat>): Store {
    Store(Active, 1, map[], false, [], expectedLen,
      if expectedLen.Some? then seq(expectedLen.value, i => 0) else [], [])
  }

  lemma FinishKeepsInv(s: Store, id: nat)
    requires Inv(s) && SegmentFinish(s, id).Ok?
    ensures Inv(SegmentFinish(s, id).value)
    ensures var after := SegmentFinish(s, id).value;
      forall x: nat :: Covers(after.completed, x) <==> Covers(s.completed, x) || In(x, s.active[id].range)
  {
    var range := s.active[id].range;
    var after := SegmentFinish(s, id).value;
    InsertCompletedIsUnion(s.completed, range);
    WithinFromCover(after.completed, s.expectedLen.value) by {
      forall x: nat | Covers(after.completed, x) ensures x < s.expectedLen.value { }
    }
    forall k | k in after.active ensures DisjointFrom(after.completed, after.active[k].range) {
      DisjointMeansUncovered(s.completed, after.active[k].range);
      DisjointMeansUncovered(after.completed, after.active[k].range);
    }
  }

  lemma WriteKeepsOthers(data: seq<Byte>, offset: nat, bytes: seq<Byte>)
    requires offset + |bytes| <= |data|
    ensures |WriteAt(data, offset, bytes)| == |data|
    ensures WriteAt(data, offset, bytes)[offset..offset + |bytes|] == bytes
    ensures forall x: nat :: x < |data| && !(offset <= x < offset + |bytes|) ==>
      WriteAt(data, offset, bytes)[x] == data[x]
  { }

  lemma AssignKeepsInv(s: Store, range: FileRange)
    requires Inv(s) && Assign(s, range).Ok?
    ensures Inv(Assign(s, range).value.0)
  {
    assert !OverlapsActive(s.active, range);
  }

  lemma WriteKeepsInv(s: Store, id: nat, bytes: seq<Byte>, io: WriteIo)
    requires Inv(s)
    ensures Inv(SegmentWrite(s, id, bytes, io).0)
  {
    var after := SegmentWrite(s, id, bytes, io).0;
    if after != s {
      var owner := s.active[id];
      var kept := if io.Wrote? then bytes else if |io.left| <= |bytes| then io.left else io.left[..|bytes|];
      WriteKeepsOthers(s.data, owner.nextOffset, kept);
    }
  }

  lemma ApplyKeepsInv(s: Store, op: StoreOp, digest: Option<Digest>, hash: Hash)
    requires Inv(s)
    ensures Inv(Apply(s, op, digest, hash))
  {
    match op
    case OpAssign(range) => if Assign(s, range).Ok? { AssignKeepsInv(s, range); }
    case OpWrite(id, bytes, io) => WriteKeepsInv(s, id, bytes, io);
    case OpFinish(id) => if SegmentFinish(s, id).Ok? { FinishKeepsInv(s, id); }
    case OpStreamFinish(_, _) =>
    case _ =>
  }

  /** No operation uncovers a byte, forgets a known length, or changes it. */
  lemma CoverageOnlyGrows(s: Store, op: StoreOp, digest: Option<Digest>, hash: Hash)
    requires Inv(s)
    ensures var after := Apply(s, op, digest, hash);
      Grown(s.completed, after.completed) && (s.expectedLen.Some? ==> after.expectedLen == s.expectedLen)
  {
    if op.OpFinish? && SegmentFinish(s, op.finished).Ok? { FinishKeepsInv(s, op.finished); }
  }

  /** From the start of validation to publication nothing changes the bytes, the
      coverage, or the ownership, whatever any writer attempts. */
  lemma FrozenOutsideActive(s: Store, op: StoreOp, digest: Option<Digest>, hash: Hash)
    requires Inv(s) && s.lifecycle != Active
    ensures var after := Apply(s, op, digest, hash);
      after.data == s.data && after.completed == s.completed && after.active == s.active
      && after.streamActive == s.streamActive && after.expectedLen == s.expectedLen
  {
    if op.OpDrop? { assert s.active - {op.dropped} == s.active; }
  }

  ghost function RunOps(s: Store, ops: seq<StoreOp>, digest: Option<Digest>, hash: Hash): Store
    requires Inv(s)
    decreases |ops|
  {
    if ops == [] then s
    else
      ApplyKeepsInv(s, ops[0], digest, hash);
      RunOps(Apply(s, ops[0], digest, hash), ops[1..], digest, hash)
  }

  /** Over every run coverage only grows, so exact coverage stays exact. */
  lemma {:induction false} RunOnlyGrows(s: Store, ops: seq<StoreOp>, digest: Option<Digest>, hash: Hash)
    requires Inv(s)
    ensures var after := RunOps(s, ops, digest, hash);
      && Inv(after) && Grown(s.completed, after.completed)
      && (s.expectedLen.Some? ==> after.expectedLen == s.expectedLen)
      && (s.expectedLen.Some? && HasExactCoverage(s.completed, s.expectedLen.value) ==> after.completed == s.completed)
    decreases |ops|
  {
    if ops != [] {
      ApplyKeepsInv(s, ops[0], digest, hash);
      CoverageOnlyGrows(s, ops[0], digest, hash);
      RunOnlyGrows(Apply(s, ops[0], digest, hash), ops[1..], digest, hash);
      var after := RunOps(s, ops, digest, hash);
      if s.expectedLen.Some? && HasExactCoverage(s.completed, s.expectedLen.value) {
        GrownStaysExact(s.completed, after.completed, s.expectedLen.value);
      }
    }
  }

  /** What holding a validated or published file proves about its bytes. */
  ghost predicate Proven(s: Store, digest: Option<Digest>, hash: Hash) {
    s.lifecycle in {Validated, Published} ==> (digest.Some? ==> hash(s.data) == digest.value)
  }

  lemma {:induction false} RunKeepsProven(s: Store, ops: seq<StoreOp>, digest: Option<Digest>, hash: Hash)
    requires Inv(s) && Proven(s, digest, hash)
    ensures var after := RunOps(s, ops, digest, hash); Inv(after) && Proven(after, digest, hash)
    decreases |ops|
  {
    if ops != [] {
      var next := Apply(s, ops[0], digest, hash);
      ApplyKeepsInv(s, ops[0], digest, hash);
      if s.lifecycle != Active { FrozenOutsideActive(s, ops[0], digest, hash); }
      RunKeepsProven(next, ops[1..], digest, hash);
    }
  }

  /** A published file covers its whole length, and matches the digest the user
      supplied, after any interleaving of writers, validations and failures. */
  lemma PublishedIsWholeAndVerified(expectedLen: Option<nat>, ops: seq<StoreOp>, digest: Option<Digest>, hash: Hash)
    ensures Inv(Created(expectedLen))
    ensures var s := RunOps(Created(expectedLen), ops, digest, hash);
      s.lifecycle == Published ==>
        && s.expectedLen == Some(|s.data|)
        && HasExactCoverage(s.completed, |s.data|)
        && (digest.Some? ==> hash(s.data) == digest.value)
  {
    RunKeepsProven(Created(expectedLen), ops, digest, hash);
  }

  /** A published file never changes again. */
  lemma {:induction false} PublishedIsFinal(s: Store, ops: seq<StoreOp>, digest: Option<Digest>, hash: Hash)
    requires Inv(s) && s.lifecycle == Published
    ensures RunOps(s, ops, digest, hash).data == s.data
    ensures RunOps(s, ops, digest, hash).completed == s.completed
    ensures RunOps(s, ops, digest, hash).lifecycle == Published
    decreases |ops|
  {
    if ops != [] {
      FrozenOutsideActive(s, ops[0], digest, hash);
      ApplyKeepsInv(s, ops[0], digest, hash);
      PublishedIsFinal(Apply(s, ops[0], digest, hash), ops[1..], digest, hash);
    }
  }

  /** A validation attempt ends either validated or active again, never stuck. */
  lemma ValidationNeverSticks(s: Store, digest: Option<Digest>, hash: Hash, stopped: Option<StorageError>)
    requires Inv(s) && s.lifecycle == Validating
    ensures var (after, result) := EndValidate(s, digest, hash, stopped);
      && after.lifecycle == (if result.Ok? then Validated else Active)
      && DropLease(after).lifecycle == Active
      && (result.Ok? <==> stopped.None? && (digest.Some? ==> hash(s.data) == digest.value))
      && after.data == s.data && after.completed == s.completed
  { }
}
