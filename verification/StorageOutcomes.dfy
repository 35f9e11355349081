/** What each operation of an intact partial file achieves, byte by byte, and that
    nothing but the named obstacles keeps it from succeeding. */
module StorageOutcomes {
  import opened Ranges
  import opened Storage

  /** No open writer owns the byte. */
  predicate Unowned(s: Store, x: nat) { forall id :: id in s.active ==> !In(x, s.active[id].range) }

  lemma OverlapIsShared(a: FileRange, b: FileRange)
    ensures Overlaps(a, b) <==> exists x: nat :: In(x, a) && In(x, b)
  {
    if Overlaps(a, b) {
      var low := if a.start < b.start then b.start else a.start;
      assert In(low, a) && In(low, b);
    }
  }

  /** A writer gets a range exactly if the file is open for writing, has a length
      that holds it, and every byte of it is neither completed nor owned. */
  lemma AssignExactly(s: Store, range: FileRange)
    requires Inv(s)
    ensures Assign(s, range).Ok? <==>
      && s.lifecycle == Active && s.expectedLen.Some? && range.end <= s.expectedLen.value
      && forall x: nat :: In(x, range) ==> !Covers(s.completed, x) && Unowned(s, x)
    ensures Assign(s, range).Ok? ==>
      var (after, id) := Assign(s, range).value;
      id !in s.active && after == s.(nextId := after.nextId, active := s.active[id := Assignment(range, range.start)])
  {
    DisjointMeansUncovered(s.completed, range);
    forall id | id in s.active
      ensures Overlaps(range, s.active[id].range) <==> exists x: nat :: In(x, range) && In(x, s.active[id].range)
    {
      OverlapIsShared(range, s.active[id].range);
    }
    if forall x: nat :: In(x, range) ==> !Covers(s.completed, x) && Unowned(s, x) {
      forall id | id in s.active ensures !Overlaps(range, s.active[id].range) { }
    }
    if !OverlapsActive(s.active, range) {
      forall x: nat | In(x, range) ensures Unowned(s, x) { }
    }
  }

  /** Every byte outside `[low, high)` is as it was. */
  predicate SameOutside(before: seq<Byte>, after: seq<Byte>, low: nat, high: nat) {
    |after| == |before| && forall x: nat :: x < |before| && !(low <= x < high) ==> after[x] == before[x]
  }

  /** A writer's bytes land behind its earlier ones, inside its own range, and change
      nothing else; a torn write leaves its place and marks the span as unsafe. */
  lemma WriteExactly(s: Store, id: nat, bytes: seq<Byte>, io: WriteIo)
    requires Inv(s) && id in s.active && bytes != []
    ensures var (after, result) := SegmentWrite(s, id, bytes, io);
      var owner := s.active[id];
      var low, high := owner.nextOffset, owner.nextOffset + |bytes|;
      && (result.Ok? <==> high <= owner.range.end && io.Wrote?)
      && SameOutside(s.data, after.data, low, high)
      && (result.Ok? ==>
           && after.data[low..high] == bytes
           && after == s.(data := after.data, unsynced := after.unsynced,
                          active := s.active[id := Assignment(owner.range, high)]))
      && (result.Err? ==> after == s.(data := after.data, unsynced := after.unsynced))
      && after.unsynced == (if high <= owner.range.end then s.unsynced + [Span(low, high)] else s.unsynced)
      && (high > owner.range.end ==> after == s)
  {
    var low, high := s.active[id].nextOffset, s.active[id].nextOffset + |bytes|;
    if high <= s.active[id].range.end && io.Wrote? {
      assert WriteAt(s.data, low, bytes)[low..high] == bytes;
    }
  }

  /** A writer that filled its range, and no other, turns it into coverage. */
  lemma FinishExactly(s: Store, id: nat)
    requires Inv(s) && id in s.active
    ensures SegmentFinish(s, id).Ok? <==> s.active[id].nextOffset == s.active[id].range.end
    ensures SegmentFinish(s, id).Ok? ==>
      var after := SegmentFinish(s, id).value;
      && after == s.(active := s.active - {id}, completed := after.completed) && Canonical(after.completed)
      && forall x: nat :: Covers(after.completed, x) <==> Covers(s.completed, x) || In(x, s.active[id].range)
  {
    if SegmentFinish(s, id).Ok? { FinishKeepsInv(s, id); }
  }

  /** Coverage is reported exactly after a flush of a file open for writing, and
      then nothing is left that a crash could lose. */
  lemma FlushExactly(s: Store, flushed: bool)
    ensures var (after, result) := DurableCompletedRanges(s, flushed);
      && (result.Ok? <==> s.lifecycle == Active && flushed)
      && after == (if result.Ok? then s.(unsynced := []) else s)
      && (result.Ok? ==> result.value == s.completed)
  { }

  /** A stream starts exactly on an unused file of unknown length, within a positive
      limit, once the file was emptied. */
  lemma StreamStartsExactly(s: Store, maximum: nat, truncated: bool)
    requires Inv(s)
    ensures var (after, result) := BeginStream(s, maximum, truncated);
      && (result.Ok? <==> maximum > 0 && s.expectedLen.None? && !s.streamActive && truncated)
      && after == (if result.Ok? then s.(streamActive := true, data := [], unsynced := []) else s)
  { }

  /** A stream's bytes follow the earlier ones, up to the limit. */
  lemma StreamWritesExactly(s: Store, maximum: nat, bytes: seq<Byte>, io: WriteIo)
    requires Inv(s) && s.streamActive && bytes != []
    ensures var (after, result) := StreamWrite(s, |s.data|, maximum, bytes, io);
      && (result.Ok? <==> |s.data| + |bytes| <= maximum && io.Wrote?)
      && (result.Ok? ==> after.data == s.data + bytes && result.value == |after.data|)
      && s.data <= after.data && |after.data| <= |s.data| + |bytes|
      && after == s.(data := after.data, unsynced := after.unsynced)
      && (|s.data| + |bytes| <= maximum ==> after.unsynced == s.unsynced + [Span(|s.data|, |s.data| + |bytes|)])
      && (|s.data| + |bytes| > maximum ==> after == s)
  {
    assert s.data[..|s.data|] == s.data;
    if |s.data| + |bytes| <= maximum && io.Wrote? { assert WriteAt(s.data, |s.data|, bytes) == s.data + bytes; }
  }

  /** A stream ends with exactly the bytes it counted, all of them covered. */
  lemma StreamEndsExactly(s: Store, written: nat, flushed: bool)
    requires Inv(s) && s.streamActive
    ensures var (after, result) := StreamFinish(s, written, flushed);
      && (result.Ok? <==> written == |s.data| && flushed)
      && (result.Err? ==> after == s)
      && (result.Ok? ==>
           && result.value == |s.data| && after.expectedLen == Some(|s.data|) && !after.streamActive
           && after.data == s.data && after.unsynced == [] && after.lifecycle == Active
           && forall x: nat :: Covers(after.completed, x) <==> x < |s.data|)
  {
    if |s.data| > 0 {
      var whole: seq<FileRange> := [Span(0, |s.data|)];
      forall x: nat ensures Covers(whole, x) <==> x < |s.data| { if x < |s.data| { assert In(x, whole[0]); } }
    }
  }

  /** Validation takes the file exactly while it is open for writing, nobody writes
      and every byte of its length is completed. */
  lemma ValidationStartsExactly(s: Store)
    requires Inv(s)
    ensures BeginValidate(s).Ok? <==>
      && s.lifecycle == Active && s.active == map[] && !s.streamActive && s.expectedLen.Some?
      && forall x: nat :: Covers(s.completed, x) <==> x < s.expectedLen.value
    ensures BeginValidate(s).Ok? ==> BeginValidate(s).value == s.(lifecycle := Validating)
  {
    if s.expectedLen.Some? { FullCoverageIsExact(s.completed, s.expectedLen.value); }
  }

  /** A validated file is published exactly when its final name could be linked. */
  lemma PromotionExactly(s: Store, linked: bool)
    requires Inv(s)
    ensures var (after, result) := PromoteValidated(s, linked);
      && (result.Ok? <==> s.lifecycle == Validated && linked)
      && after == (if result.Ok? then s.(lifecycle := Published, unsynced := []) else s)
  { }

  // ---------- The refusals callers tell apart ----------

  /** Once validation began, everyone who wants to read or write coverage is told so. */
  lemma FrozenFilesRefuse(s: Store, range: FileRange, id: nat, bytes: seq<Byte>, io: WriteIo, flushed: bool)
    requires Inv(s) && s.lifecycle != Active && bytes != []
    ensures Assign(s, range) == Err(NotActive) && SegmentWrite(s, id, bytes, io) == (s, Err(NotActive))
    ensures SegmentFinish(s, id) == Err(NotActive) && BeginValidate(s) == Err(NotActive)
    ensures DurableCompletedRanges(s, flushed) == (s, Err(NotActive))
  { }

  /** An open stream keeps out ranges, other streams and validation. */
  lemma StreamsExclude(s: Store, range: FileRange, maximum: nat, truncated: bool)
    requires s.lifecycle == Active && s.streamActive && maximum > 0
    ensures Assign(s, range) == Err(StreamUnavailable) && BeginValidate(s) == Err(ActiveAssignments)
    ensures BeginStream(s, maximum, truncated) == (s, Err(StreamUnavailable))
  { }
}
