/** The in-place partial file and its writers, each method proved to perform
    exactly one operation of module Storage. */
module PartialFiles {
  import opened Ranges
  import opened Storage

  const READ_BUFFER_BYTES: nat := 256 * 1024

  /** The sum check of recovery can never fire once the list is canonical. */
  function TotalLen(rs: seq<FileRange>): nat {
    if rs == [] then 0 else TotalLen(rs[..|rs| - 1]) + Len(rs[|rs| - 1])
  }

  lemma {:induction false} CanonicalTotalFits(rs: seq<FileRange>, len: nat)
    requires Canonical(rs) && Within(rs, len)
    ensures TotalLen(rs) <= if rs == [] then 0 else rs[|rs| - 1].end
    ensures TotalLen(rs) <= len
  {
    if rs != [] {
      var init := rs[..|rs| - 1];
      CanonicalTotalFits(init, len);
      if init != [] { assert init[|init| - 1].end < rs[|rs| - 1].start; }
    }
  }

  predicate Recoverable(rs: seq<FileRange>, len: nat) { Canonical(rs) && Within(rs, len) }

  lemma RecoverableExtends(rs: seq<FileRange>, k: nat, len: nat)
    requires k < |rs|
    ensures Recoverable(rs[..k + 1], len) <==>
      Recoverable(rs[..k], len) && rs[k].end <= len && (k > 0 ==> rs[k - 1].end < rs[k].start)
    ensures TotalLen(rs[..k + 1]) == TotalLen(rs[..k]) + Len(rs[k])
    ensures Recoverable(rs, len) ==> Recoverable(rs[..k + 1], len)
  {
    var longer := rs[..k + 1];
    assert longer[..k] == rs[..k] && longer[k] == rs[k];
    if Recoverable(longer, len) {
      assert forall i :: 0 <= i < k ==> rs[..k][i] == longer[i];
      if k > 0 { assert longer[k - 1] == rs[k - 1]; }
    }
  }

  method ValidateRecoveredCoverage(completed: seq<FileRange>, expectedLen: nat) returns (accepted: bool)
    ensures accepted <==> Canonical(completed) && Within(completed, expectedLen)
  {
    var previousEnd: Option<nat> := None;
    var total := 0;
    for k := 0 to |completed|
      invariant Recoverable(completed[..k], expectedLen)
      invariant previousEnd == if k == 0 then None else Some(completed[k - 1].end)
      invariant total == TotalLen(completed[..k])
    {
      var range := completed[k];
      RecoverableExtends(completed, k, expectedLen);
      if range.end > expectedLen || (previousEnd.Some? && range.start <= previousEnd.value) { return false; }
      total := total + Len(range);
      previousEnd := Some(range.end);
    }
    assert completed[..|completed|] == completed;
    CanonicalTotalFits(completed, expectedLen);
    return total <= expectedLen;
  }

  /** The reads a digest of `len` bytes takes, the one that finds the end included. */
  function ReadsOf(len: nat): nat { (len + READ_BUFFER_BYTES - 1) / READ_BUFFER_BYTES + 1 }

  /** A validation reaches its verdict only if nothing failed and nobody cancelled
      up to its last read, and stops only for one of these reasons. */
  ghost predicate StopsFor(stopped: Option<StorageError>, blocked: bool, count: nat, stops: nat -> bool,
                           breaks: nat -> bool)
  {
    match stopped
    case None =>
      !blocked && (forall k: nat :: k <= count ==> !stops(k)) && (forall k: nat :: 1 <= k <= count ==> !breaks(k))
    case Some(ValidationCancelled) => !blocked && exists k: nat :: k <= count && stops(k)
    case Some(error) => error == Io && (blocked || exists k: nat :: 1 <= k <= count && breaks(k))
  }

  /** What looking up, checking and opening the path of a partial finds: its bytes,
      something that is not the managed regular file expected there, or an error. */
  datatype Reach = Opened(bytes: seq<Byte>) | Unsafe | Unreadable

  class PartialFile {
    var lifecycle: Lifecycle
    var nextId: nat
    var active: map<nat, Assignment>
    var streamActive: bool
    var completed: seq<FileRange>
    var expectedLen: Option<nat>
    var data: seq<Byte>
    var unsynced: seq<FileRange>

    ghost function View(): Store reads this {
      Store(lifecycle, nextId, active, streamActive, completed, expectedLen, data, unsynced)
    }

    constructor (expectedLen: Option<nat>)
      ensures View() == Created(expectedLen)
    {
      this.lifecycle, this.nextId, this.active, this.streamActive := Active, 1, map[], false;
      this.completed, this.expectedLen, this.unsynced := [], expectedLen, [];
      this.data := if expectedLen.Some? then seq(expectedLen.value, i => 0) else [];
    }

    /** Reopens bytes found on disk with the coverage a record vouches for. */
    constructor Reopen(expectedLen: Option<nat>, completed: seq<FileRange>, data: seq<Byte>)
      ensures View() == Created(expectedLen).(completed := completed, data := data)
    {
      this.lifecycle, this.nextId, this.active, this.streamActive := Active, 1, map[], false;
      this.completed, this.expectedLen, this.unsynced := completed, expectedLen, [];
      this.data := data;
    }

    /** Reopens a partial of known length with the coverage its record vouches for. */
    static method Recover(expectedLen: nat, completed: seq<FileRange>, reach: Reach)
      returns (file: Result<PartialFile, StorageError>)
      ensures file.Ok? <==>
        Canonical(completed) && Within(completed, expectedLen) && reach.Opened? && |reach.bytes| == expectedLen
      ensures file.Ok? ==>
        && fresh(file.value) && Inv(file.value.View())
        && file.value.View() == Created(Some(expectedLen)).(completed := completed, data := reach.bytes)
      ensures file.Err? ==>
        file.error == (if !Canonical(completed) || !Within(completed, expectedLen)
                       then StorageError.InvalidCompletedCoverage
                       else match reach
                         case Opened(_) => FileLengthChanged case Unsafe => InvalidDestination case Unreadable => Io)
    {
      var accepted := ValidateRecoveredCoverage(completed, expectedLen);
      if !accepted { return Err(StorageError.InvalidCompletedCoverage); }
      file := RecoverInner(Some(expectedLen), completed, reach);
    }

    /** Reopens an interrupted stream; none of its bytes count as coverage. */
    static method RecoverStreaming(reach: Reach) returns (file: Result<PartialFile, StorageError>)
      ensures file.Ok? <==> reach.Opened?
      ensures file.Ok? ==>
        fresh(file.value) && Inv(file.value.View()) && file.value.View() == Created(None).(data := reach.bytes)
      ensures file.Err? ==> file.error == if reach.Unsafe? then InvalidDestination else Io
    {
      file := RecoverInner(None, [], reach);
    }

    static method RecoverInner(expectedLen: Option<nat>, completed: seq<FileRange>, reach: Reach)
      returns (file: Result<PartialFile, StorageError>)
      ensures file.Ok? <==> reach.Opened? && (expectedLen.Some? ==> |reach.bytes| == expectedLen.value)
      ensures file.Ok? ==>
        fresh(file.value) && file.value.View() == Created(expectedLen).(completed := completed, data := reach.bytes)
      ensures file.Err? ==>
        file.error == (match reach
                       case Opened(_) => FileLengthChanged case Unsafe => InvalidDestination case Unreadable => Io)
    {
      if reach.Unsafe? { return Err(InvalidDestination); }
      if reach.Unreadable? { return Err(Io); }
      if expectedLen.Some? && |reach.bytes| != expectedLen.value { return Err(FileLengthChanged); }
      var reopened := new PartialFile.Reopen(expectedLen, completed, reach.bytes);
      return Ok(reopened);
    }

    method FlushCompleted(flushed: bool) returns (ranges: Result<seq<FileRange>, StorageError>)
      modifies this
      ensures (View(), ranges) == DurableCompletedRanges(old(View()), flushed)
    {
      if lifecycle != Active { return Err(NotActive); }
      if !flushed { return Err(Io); }
      unsynced := [];
      return Ok(completed);
    }

    method AssignRange(range: FileRange) returns (id: Result<nat, StorageError>)
      modifies this
      ensures (match Assign(old(View()), range)
        case Ok(r) => View() == r.0 && id == Ok(r.1)
        case Err(e) => View() == old(View()) && id == Err(e))
    {
      if lifecycle != Active { return Err(NotActive); }
      if streamActive { return Err(StreamUnavailable); }
      if expectedLen.None? { return Err(LengthUnknown); }
      if range.end > expectedLen.value { return Err(RangeOutOfBounds); }
      if !DisjointFrom(completed, range) || OverlapsActive(active, range) { return Err(OverlappingAssignment); }
      var issued := nextId;
      nextId := nextId + 1;
      active := active[issued := Assignment(range, range.start)];
      return Ok(issued);
    }

    method OpenStream(maximum: nat, truncated: bool) returns (result: Result<(), StorageError>)
      modifies this
      ensures (View(), result) == BeginStream(old(View()), maximum, truncated)
    {
      if maximum == 0 { return Err(InvalidStreamLimit); }
      if lifecycle != Active || streamActive || active != map[] || completed != [] || expectedLen.Some? {
        return Err(StreamUnavailable);
      }
      if !truncated { return Err(Io); }
      data, unsynced, streamActive := [], [], true;
      return Ok(());
    }

    /** Freezes the file, then hashes it in bounded reads up to the end of the file.
        `stops(k)` is the cancellation signal seen before read `k` and `breaks(k)` its
        failure; `blocked` is a lock, identity or flush failure before the first. */
    method Validate(digest: Option<Digest>, hash: Hash, blocked: bool, stops: nat -> bool, breaks: nat -> bool)
      returns (result: Result<(), StorageError>)
      requires Inv(View())
      modifies this
      ensures BeginValidate(old(View())).Err? ==>
        View() == old(View()) && result == Err(BeginValidate(old(View())).error)
      ensures BeginValidate(old(View())).Ok? ==>
        exists stopped :: (View(), result) == EndValidate(BeginValidate(old(View())).value, digest, hash, stopped)
          && StopsFor(stopped, blocked, if digest.Some? then ReadsOf(|old(data)|) else 0, stops, breaks)
    {
      if lifecycle != Active { return Err(NotActive); }
      if active != map[] || streamActive { return Err(ActiveAssignments); }
      if expectedLen.None? { return Err(LengthUnknown); }
      if !HasExactCoverage(completed, expectedLen.value) { return Err(IncompleteCoverage); }
      ghost var frozen := BeginValidate(View()).value;
      lifecycle := Validating;
      var stopped := if blocked then Some(Io) else if stops(0) then Some(ValidationCancelled) else None;
      var hashed: seq<Byte> := [];
      if stopped.None? && digest.Some? { stopped, hashed := Hashed(stops, breaks); }
      if stopped.Some? {
        lifecycle := Active;
        assert (View(), Err(stopped.value)) == EndValidate(frozen, digest, hash, stopped);
        return Err(stopped.value);
      }
      if digest.Some? && hash(hashed) != digest.value {
        lifecycle := Active;
        assert (View(), Err(ChecksumMismatch)) == EndValidate(frozen, digest, hash, None);
        return Err(ChecksumMismatch);
      }
      lifecycle, unsynced := Validated, [];
      assert (View(), Ok(())) == EndValidate(frozen, digest, hash, None);
      return Ok(());
    }

    /** Reads the whole file, checking for cancellation before every read, the one
        that finds the end included. */
    method Hashed(stops: nat -> bool, breaks: nat -> bool) returns (stopped: Option<StorageError>, hashed: seq<Byte>)
      requires !stops(0)
      ensures stopped.None? ==> hashed == data
      ensures StopsFor(stopped, false, ReadsOf(|data|), stops, breaks)
    {
      hashed := [];
      var readIndex := 0;
      while true
        invariant |hashed| == (if readIndex * READ_BUFFER_BYTES < |data| then readIndex * READ_BUFFER_BYTES else |data|)
        invariant hashed == data[..|hashed|] && readIndex < ReadsOf(|data|)
        invariant forall k: nat :: k <= readIndex ==> !stops(k) && (k >= 1 ==> !breaks(k))
        decreases ReadsOf(|data|) - readIndex
      {
        readIndex := readIndex + 1;
        if stops(readIndex) { return Some(ValidationCancelled), hashed; }
        if breaks(readIndex) { return Some(Io), hashed; }
        var count := if |data| - |hashed| < READ_BUFFER_BYTES then |data| - |hashed| else READ_BUFFER_BYTES;
        if count == 0 { return None, hashed; }
        hashed := hashed + data[|hashed|..|hashed| + count];
      }
    }

    method ReleaseLease()
      modifies this
      ensures View() == DropLease(old(View()))
    {
      if lifecycle in {Validating, Validated} { lifecycle := Active; }
    }

    method Publish(linked: bool) returns (result: Result<(), StorageError>)
      modifies this
      ensures (View(), result) == PromoteValidated(old(View()), linked)
    {
      if lifecycle != Validated { return Err(NotActive); }
      if active != map[] || streamActive { return Err(ActiveAssignments); }
      if expectedLen.None? { return Err(LengthUnknown); }
      if !HasExactCoverage(completed, expectedLen.value) { return Err(IncompleteCoverage); }
      if |data| != expectedLen.value { return Err(FileLengthChanged); }
      if !linked { return Err(Io); }
      lifecycle, unsynced := Published, [];
      return Ok(());
    }
  }

  /** Sole sequential writer of one assignment. */
  class SegmentWriter {
    const file: PartialFile
    const id: nat
    var written: nat
    var finished: bool

    constructor (file: PartialFile, id: nat)
      ensures this.file == file && this.id == id && written == 0 && !finished
    {
      this.file, this.id, this.written, this.finished := file, id, 0, false;
    }

    method Write(bytes: seq<Byte>, io: WriteIo) returns (result: Result<(), StorageError>)
      requires Inv(file.View())
      modifies this, file
      ensures finished == old(finished)
      ensures old(finished) ==> result == Err(AssignmentClosed) && file.View() == old(file.View())
      ensures !old(finished) ==> (file.View(), result) == SegmentWrite(old(file.View()), id, bytes, io)
      ensures written == old(written) + if result.Ok? then |bytes| else 0
    {
      if finished { return Err(AssignmentClosed); }
      if bytes == [] { return Ok(()); }
      if file.lifecycle != Active { return Err(NotActive); }
      if id !in file.active { return Err(AssignmentClosed); }
      var owner := file.active[id];
      var writeEnd := owner.nextOffset + |bytes|;
      if writeEnd > owner.range.end { return Err(WriteOutOfBounds); }
      file.unsynced := file.unsynced + [Span(owner.nextOffset, writeEnd)];
      match io {
        case Torn(left) =>
          var kept := if |left| <= |bytes| then left else left[..|bytes|];
          file.data := WriteAt(file.data, owner.nextOffset, kept);
          return Err(Io);
        case Wrote =>
          file.data := WriteAt(file.data, owner.nextOffset, bytes);
          file.active := file.active[id := owner.(nextOffset := writeEnd)];
          written := written + |bytes|;
          return Ok(());
      }
    }

    method Finish() returns (result: Result<(), StorageError>)
      modifies this, file
      ensures old(finished) ==> result == Err(AssignmentClosed) && file.View() == old(file.View())
      ensures !old(finished) ==> (match SegmentFinish(old(file.View()), id)
        case Ok(after) => file.View() == after && result == Ok(()) && finished
        case Err(e) => file.View() == old(file.View()) && result == Err(e) && !finished)
    {
      if finished { return Err(AssignmentClosed); }
      if file.lifecycle != Active { return Err(NotActive); }
      if id !in file.active { return Err(AssignmentClosed); }
      var owner := file.active[id];
      if owner.nextOffset != owner.range.end { return Err(IncompleteAssignment); }
      file.active := file.active - {id};
      file.completed := MergeInto(file.completed, owner.range);
      finished := true;
      return Ok(());
    }

    /** Dropping an unfinished writer releases its range and claims nothing. */
    method Drop()
      modifies file
      ensures file.View() == if finished then old(file.View()) else SegmentDrop(old(file.View()), id)
    {
      if !finished { file.active := file.active - {id}; }
    }
  }

  /** Sole writer of one response whose length is unknown until end of body. */
  class StreamingWriter {
    const file: PartialFile
    const maximum: nat
    var written: nat
    var finished: bool

    constructor (file: PartialFile, maximum: nat)
      ensures this.file == file && this.maximum == maximum && written == 0 && !finished
    {
      this.file, this.maximum, this.written, this.finished := file, maximum, 0, false;
    }

    method Write(bytes: seq<Byte>, io: WriteIo) returns (result: Result<(), StorageError>)
      modifies this, file
      ensures finished == old(finished)
      ensures old(finished) ==>
        result == Err(StreamUnavailable) && file.View() == old(file.View()) && written == old(written)
      ensures !old(finished) ==>
        var (after, outcome) := StreamWrite(old(file.View()), old(written), maximum, bytes, io);
        file.View() == after && (match outcome
          case Ok(total) => result == Ok(()) && written == total
          case Err(e) => result == Err(e) && written == old(written))
    {
      if finished { return Err(StreamUnavailable); }
      if bytes == [] { return Ok(()); }
      if written + |bytes| > maximum { return Err(StreamLimitExceeded); }
      if file.lifecycle != Active || !file.streamActive || written > |file.data| { return Err(StreamUnavailable); }
      file.unsynced := file.unsynced + [Span(written, written + |bytes|)];
      match io {
        case Torn(left) =>
          var kept := if |left| <= |bytes| then left else left[..|bytes|];
          file.data := WriteAt(file.data, written, kept);
          return Err(Io);
        case Wrote =>
          file.data := WriteAt(file.data, written, bytes);
          written := written + |bytes|;
          return Ok(());
      }
    }

    method Finish(flushed: bool) returns (result: Result<nat, StorageError>)
      modifies this, file
      ensures old(finished) ==> result == Err(StreamUnavailable) && file.View() == old(file.View())
      ensures !old(finished) ==>
        (file.View(), result) == StreamFinish(old(file.View()), old(written), flushed) && finished == result.Ok?
    {
      if finished { return Err(StreamUnavailable); }
      if file.lifecycle != Active || !file.streamActive { return Err(StreamUnavailable); }
      if |file.data| != written { return Err(FileLengthChanged); }
      if !flushed { return Err(Io); }
      file.expectedLen, file.streamActive, file.unsynced := Some(written), false, [];
      file.completed := if written > 0 then [Span(0, written)] else [];
      finished := true;
      return Ok(written);
    }

    /** Dropping an unfinished writer lets another attempt start over. */
    method Drop()
      modifies file
      ensures file.View() == if finished then old(file.View()) else StreamDrop(old(file.View()))
    {
      if !finished { file.streamActive := false; }
    }
  }

  /** One worker's commit: assign, write the whole body, finish; an error drops
      the writer. */
  method CommitRange(file: PartialFile, range: FileRange, bytes: seq<Byte>, io: WriteIo)
    returns (result: Result<(), StorageError>)
    requires Inv(file.View())
    modifies file
    ensures Inv(file.View())
    ensures result.Ok? <==> Assign(old(file.View()), range).Ok? && io.Wrote? && |bytes| == Len(range)
    ensures result.Ok? ==>
      && file.completed == InsertCompleted(old(file.completed), range)
      && file.data == WriteAt(old(file.data), range.start, bytes)
      && file.active == old(file.active)
    ensures result.Err? ==>
      && file.completed == old(file.completed) && file.active == old(file.active)
      && |file.data| == |old(file.data)|
      && (forall x: nat :: x < |file.data| && !In(x, range) ==> file.data[x] == old(file.data)[x])
  {
    ghost var before := file.View();
    var id := file.AssignRange(range);
    if id.Err? { return Err(id.error); }
    AssignKeepsInv(before, range);
    CommitOutcome(before, range, bytes, io);
    var writer := new SegmentWriter(file, id.value);
    var wrote := writer.Write(bytes, io);
    if wrote.Err? {
      writer.Drop();
      return Err(wrote.error);
    }
    var done := writer.Finish();
    if done.Err? {
      writer.Drop();
      return Err(done.error);
    }
    return Ok(());
  }

  /** The three guarded steps of a commit, seen as one. */
  lemma CommitOutcome(s: Store, range: FileRange, bytes: seq<Byte>, io: WriteIo)
    requires Inv(s) && Assign(s, range).Ok?
    ensures var (reserved, id) := Assign(s, range).value;
      var (filled, wrote) := SegmentWrite(reserved, id, bytes, io);
      && Inv(reserved) && Inv(filled) && filled.completed == s.completed
      && |filled.data| == |s.data| && SegmentDrop(filled, id).active == s.active && Inv(SegmentDrop(filled, id))
      && (forall x: nat :: x < |s.data| && !In(x, range) ==> filled.data[x] == s.data[x])
      && (io.Wrote? && |bytes| == Len(range) <==> wrote.Ok? && SegmentFinish(filled, id).Ok?)
      && (wrote.Ok? && SegmentFinish(filled, id).Ok? ==>
            && SegmentFinish(filled, id).value == filled.(active := s.active,
                completed := InsertCompleted(s.completed, range))
            && Inv(SegmentFinish(filled, id).value)
            && filled.data == WriteAt(s.data, range.start, bytes))
  {
    var (reserved, id) := Assign(s, range).value;
    AssignKeepsInv(s, range);
    WriteKeepsInv(reserved, id, bytes, io);
    WrittenInside(reserved, id, bytes, io);
    var (filled, wrote) := SegmentWrite(reserved, id, bytes, io);
    assert id !in s.active;
    assert filled.active - {id} == s.active;
    if wrote.Ok? && SegmentFinish(filled, id).Ok? { FinishKeepsInv(filled, id); }
  }

  lemma WrittenInside(s: Store, id: nat, bytes: seq<Byte>, io: WriteIo)
    requires Inv(s) && id in s.active
    ensures var after := SegmentWrite(s, id, bytes, io).0;
      && |after.data| == |s.data| && after.completed == s.completed
      && (forall x: nat :: x < |s.data| && !In(x, s.active[id].range) ==> after.data[x] == s.data[x])
  {
    var after := SegmentWrite(s, id, bytes, io).0;
    if after != s {
      var kept := if io.Wrote? then bytes else if |io.left| <= |bytes| then io.left else io.left[..|bytes|];
      WriteKeepsOthers(s.data, s.active[id].nextOffset, kept);
    }
  }
}
