/** Half-open byte ranges, the canonical completed list kept by partial-file
    storage, and the missing-range plan the scheduler derives from it. */
module Ranges {

  const MAX_COMPLETED_RANGES: nat := 8192
  const MAX_RANGE_REQUESTS: nat := 1_000_000

  datatype Span = Span(start: nat, end: nat)

  /** A validated range is never empty. */
  type FileRange = r: Span | r.start < r.end witness Span(0, 1)

  datatype Option<+T> = None | Some(value: T)

  datatype PlanError = InvalidCompletedCoverage | RequestPlanTooLarge

  datatype Result<+T, +E> = Ok(value: T) | Err(error: E)

  function Len(r: FileRange): nat { r.end - r.start }

  predicate In(x: nat, r: Span) { r.start <= x < r.end }

  predicate Overlaps(a: FileRange, b: FileRange) { a.start < b.end && b.start < a.end }

  ghost predicate Covers(rs: seq<FileRange>, x: nat) {
    exists i :: 0 <= i < |rs| && In(x, rs[i])
  }

  /** Sorted and disjoint; neighbours may touch. */
  predicate Ordered(rs: seq<FileRange>) {
    forall i, j :: 0 <= i < j < |rs| ==> rs[i].end <= rs[j].start
  }

  /** Sorted, disjoint, and merged: neighbours never touch. */
  predicate Canonical(rs: seq<FileRange>) {
    forall i, j :: 0 <= i < j < |rs| ==> rs[i].end < rs[j].start
  }

  predicate Within(rs: seq<FileRange>, total: nat) {
    forall i :: 0 <= i < |rs| ==> rs[i].end <= total
  }

  predicate DisjointFrom(rs: seq<FileRange>, r: FileRange) {
    forall i :: 0 <= i < |rs| ==> !Overlaps(r, rs[i])
  }

  predicate HasExactCoverage(rs: seq<FileRange>, total: nat) {
    if total == 0 then rs == [] else rs == [Span(0, total)]
  }

  // ---------- The canonical list is determined by the bytes it covers ----------

  lemma {:induction false} CanonicalIsUnique(a: seq<FileRange>, b: seq<FileRange>)
    requires Canonical(a) && Canonical(b)
    requires forall x: nat :: Covers(a, x) <==> Covers(b, x)
    ensures a == b
  {
    if a == [] {
      if b != [] { assert In(b[0].start, b[0]); assert Covers(b, b[0].start); }
    } else if b == [] {
      assert In(a[0].start, a[0]); assert Covers(a, a[0].start);
    } else {
      FirstRangeAgrees(a, b);
      FirstRangeAgrees(b, a);
      assert a[0] == b[0];
      forall x: nat ensures Covers(a[1..], x) <==> Covers(b[1..], x) {
        TailCovers(a, x);
        TailCovers(b, x);
      }
      CanonicalIsUnique(a[1..], b[1..]);
      assert a == [a[0]] + a[1..] && b == [b[0]] + b[1..];
    }
  }

  lemma TailCovers(a: seq<FileRange>, x: nat)
    requires Canonical(a) && a != []
    ensures Covers(a[1..], x) <==> Covers(a, x) && !In(x, a[0])
  {
    if Covers(a[1..], x) {
      var i :| 0 <= i < |a[1..]| && In(x, a[1..][i]);
      assert In(x, a[i + 1]);
    }
    if Covers(a, x) && !In(x, a[0]) {
      var i :| 0 <= i < |a| && In(x, a[i]);
      assert In(x, a[1..][i - 1]);
    }
  }

  lemma FirstRangeAgrees(a: seq<FileRange>, b: seq<FileRange>)
    requires Canonical(a) && Canonical(b) && a != [] && b != []
    requires forall x: nat :: Covers(a, x) <==> Covers(b, x)
    ensures b[0].start <= a[0].start
    ensures b[0].start == a[0].start ==> b[0].end >= a[0].end
  {
    assert In(a[0].start, a[0]);
    assert Covers(a, a[0].start) && Covers(b, a[0].start);
    var next := b[0].end;
    assert In(next, a[0]) ==> Covers(a, next);
    assert !Covers(b, next);
  }

  /** The exact-coverage test accepts a canonical list exactly when the list
      covers every byte below `total` and no other. */
  lemma FullCoverageIsExact(rs: seq<FileRange>, total: nat)
    requires Canonical(rs)
    ensures HasExactCoverage(rs, total) <==> forall x: nat :: Covers(rs, x) <==> x < total
  {
    var whole: seq<FileRange> := if total == 0 then [] else [Span(0, total)];
    forall x: nat ensures Covers(whole, x) <==> x < total {
      if x < total { assert In(x, whole[0]); }
    }
    if forall x: nat :: Covers(rs, x) <==> x < total { CanonicalIsUnique(rs, whole); }
  }

  /** No byte covered before is uncovered after. */
  ghost predicate Grown(before: seq<FileRange>, after: seq<FileRange>) {
    forall x: nat :: Covers(before, x) ==> Covers(after, x)
  }

  /** Coverage that was exact and only grew inside the file is exact still. */
  lemma GrownStaysExact(before: seq<FileRange>, after: seq<FileRange>, total: nat)
    requires HasExactCoverage(before, total) && Canonical(after) && Within(after, total) && Grown(before, after)
    ensures after == before
  {
    FullCoverageIsExact(before, total);
    forall x: nat ensures Covers(after, x) <==> x < total { }
    FullCoverageIsExact(after, total);
  }

  // ---------- insert_completed: push, sort, merge touching neighbours ----------

  predicate Before(a: FileRange, b: FileRange) {
    a.start < b.start || (a.start == b.start && a.end <= b.end)
  }

  function InsertSorted(rs: seq<FileRange>, r: FileRange): seq<FileRange> {
    if rs == [] then [r]
    else if Before(r, rs[0]) then [r] + rs
    else [rs[0]] + InsertSorted(rs[1..], r)
  }

  function SortRanges(rs: seq<FileRange>): seq<FileRange> {
    if rs == [] then [] else InsertSorted(SortRanges(rs[..|rs| - 1]), rs[|rs| - 1])
  }

  function MergeTouching(rs: seq<FileRange>): (out: seq<FileRange>)
    ensures |out| <= |rs|
    ensures rs != [] ==> out != [] && out[|out| - 1].end == rs[|rs| - 1].end
  {
    if rs == [] then []
    else
      var merged := MergeTouching(rs[..|rs| - 1]);
      AppendOrExtend(merged, rs[|rs| - 1])
  }

  /** One iteration of the merge loop. */
  function AppendOrExtend(merged: seq<FileRange>, current: FileRange): (out: seq<FileRange>)
    ensures |merged| <= |out| <= |merged| + 1 && out != []
    ensures out[|out| - 1].end == current.end
  {
    if merged != [] && merged[|merged| - 1].end == current.start
    then merged[..|merged| - 1] + [Span(merged[|merged| - 1].start, current.end)]
    else merged + [current]
  }

  function InsertCompleted(completed: seq<FileRange>, range: FileRange): seq<FileRange> {
    MergeTouching(SortRanges(completed + [range]))
  }

  method MergeInto(completed: seq<FileRange>, range: FileRange) returns (merged: seq<FileRange>)
    ensures merged == InsertCompleted(completed, range)
  {
    var sorted := SortRanges(completed + [range]);
    merged := [];
    for k := 0 to |sorted|
      invariant merged == MergeTouching(sorted[..k])
    {
      MergeStep(sorted, k);
      var current := sorted[k];
      if merged != [] && merged[|merged| - 1].end == current.start {
        merged := merged[..|merged| - 1] + [Span(merged[|merged| - 1].start, current.end)];
      } else {
        merged := merged + [current];
      }
    }
    assert sorted[..|sorted|] == sorted;
  }

  lemma MergeStep(rs: seq<FileRange>, k: nat)
    requires k < |rs|
    ensures MergeTouching(rs[..k + 1]) == AppendOrExtend(MergeTouching(rs[..k]), rs[k])
  {
    var upto := rs[..k + 1];
    assert upto[..|upto| - 1] == rs[..k];
  }

  lemma {:induction false} SortKeepsOrdered(rs: seq<FileRange>)
    requires Ordered(rs)
    ensures SortRanges(rs) == rs
  {
    if rs != [] {
      var init, last := rs[..|rs| - 1], rs[|rs| - 1];
      SortKeepsOrdered(init);
      InsertAtEnd(init, last);
      assert SortRanges(rs) == InsertSorted(SortRanges(init), last);
      assert rs == init + [last];
    }
  }

  lemma {:induction false} InsertAtEnd(rs: seq<FileRange>, r: FileRange)
    requires Ordered(rs)
    requires forall i :: 0 <= i < |rs| ==> rs[i].end <= r.start
    ensures InsertSorted(rs, r) == rs + [r]
  {
    if rs != [] {
      InsertAtEnd(rs[1..], r);
      assert rs + [r] == [rs[0]] + (rs[1..] + [r]);
    }
  }

  lemma {:induction false} InsertKeepsOrdered(rs: seq<FileRange>, r: FileRange)
    requires Ordered(rs) && DisjointFrom(rs, r)
    ensures Ordered(InsertSorted(rs, r))
    ensures forall x: nat :: Covers(InsertSorted(rs, r), x) <==> Covers(rs, x) || In(x, r)
  {
    forall x: nat ensures Covers(InsertSorted(rs, r), x) <==> Covers(rs, x) || In(x, r) {
      InsertMembers(rs, r);
      SameElementsCover(InsertSorted(rs, r), rs + [r], x);
      CoversAppend(rs, r, x);
    }
    if rs != [] && !Before(r, rs[0]) {
      var tail := rs[1..];
      InsertKeepsOrdered(tail, r);
      assert !Overlaps(r, rs[0]);
      var rest := InsertSorted(tail, r);
      InsertMembers(tail, r);
      forall j | 0 <= j < |rest| ensures rs[0].end <= rest[j].start {
        assert rest[j] in rest;
        assert rest[j] == r || rest[j] in tail;
      }
    }
  }

  lemma {:induction false} InsertMembers(rs: seq<FileRange>, r: FileRange)
    ensures forall e :: e in InsertSorted(rs, r) <==> e in rs || e == r
  {
    if rs != [] && !Before(r, rs[0]) {
      InsertMembers(rs[1..], r);
      assert rs == [rs[0]] + rs[1..];
    }
  }

  lemma CoversAppend(rs: seq<FileRange>, r: FileRange, x: nat)
    ensures Covers(rs + [r], x) <==> Covers(rs, x) || In(x, r)
  {
    var out := rs + [r];
    if Covers(rs, x) { var i :| 0 <= i < |rs| && In(x, rs[i]); assert In(x, out[i]); }
    if In(x, r) { assert In(x, out[|rs|]); }
    if Covers(out, x) { var i :| 0 <= i < |out| && In(x, out[i]); if i < |rs| { assert In(x, rs[i]); } }
  }

  lemma SameElementsCover(a: seq<FileRange>, b: seq<FileRange>, x: nat)
    requires forall e :: e in a <==> e in b
    ensures Covers(a, x) <==> Covers(b, x)
  {
    if Covers(a, x) {
      var i :| 0 <= i < |a| && In(x, a[i]);
      assert a[i] in a && a[i] in b;
      var j :| 0 <= j < |b| && b[j] == a[i];
      assert In(x, b[j]);
    }
    if Covers(b, x) {
      var i :| 0 <= i < |b| && In(x, b[i]);
      assert b[i] in b && b[i] in a;
      var j :| 0 <= j < |a| && a[j] == b[i];
      assert In(x, a[j]);
    }
  }

  lemma {:induction false} MergeCanonicalizes(rs: seq<FileRange>)
    requires Ordered(rs)
    ensures Canonical(MergeTouching(rs))
  {
    if rs != [] {
      var init, last := rs[..|rs| - 1], rs[|rs| - 1];
      MergeCanonicalizes(init);
      var merged := MergeTouching(init);
      if init != [] {
        assert merged[|merged| - 1].end == init[|init| - 1].end <= last.start;
      }
      ExtendKeepsCanonical(merged, last);
    }
  }

  lemma ExtendKeepsCanonical(merged: seq<FileRange>, current: FileRange)
    requires Canonical(merged)
    requires merged != [] ==> merged[|merged| - 1].end <= current.start
    ensures Canonical(AppendOrExtend(merged, current))
  { }

  lemma {:induction false} MergeCovers(rs: seq<FileRange>, x: nat)
    ensures Covers(MergeTouching(rs), x) <==> Covers(rs, x)
  {
    if rs != [] {
      var init, last := rs[..|rs| - 1], rs[|rs| - 1];
      MergeCovers(init, x);
      ExtendCovers(MergeTouching(init), last, x);
      CoversAppend(init, last, x);
      assert rs == init + [last];
    }
  }

  lemma ExtendCovers(merged: seq<FileRange>, current: FileRange, x: nat)
    ensures Covers(AppendOrExtend(merged, current), x) <==> Covers(merged, x) || In(x, current)
  {
    if merged != [] && merged[|merged| - 1].end == current.start {
      var init, last := merged[..|merged| - 1], merged[|merged| - 1];
      var joined: FileRange := Span(last.start, current.end);
      CoversAppend(init, joined, x);
      CoversAppend(init, last, x);
      assert merged == init + [last];
    } else {
      CoversAppend(merged, current, x);
    }
  }

  /** Partner of `InsertCompleted`: on disjoint input it yields the one canonical
      list that covers exactly the old bytes and the new range. */
  lemma InsertCompletedIsUnion(completed: seq<FileRange>, range: FileRange)
    requires Canonical(completed) && DisjointFrom(completed, range)
    ensures Canonical(InsertCompleted(completed, range))
    ensures forall x: nat :: Covers(InsertCompleted(completed, range), x) <==> Covers(completed, x) || In(x, range)
  {
    var appended := completed + [range];
    assert appended[..|appended| - 1] == completed;
    SortKeepsOrdered(completed);
    assert SortRanges(appended) == InsertSorted(completed, range);
    InsertKeepsOrdered(completed, range);
    MergeCanonicalizes(InsertSorted(completed, range));
    forall x: nat ensures Covers(InsertCompleted(completed, range), x) <==> Covers(completed, x) || In(x, range) {
      MergeCovers(InsertSorted(completed, range), x);
    }
  }

  lemma WithinFromCover(rs: seq<FileRange>, total: nat)
    requires forall x: nat :: Covers(rs, x) ==> x < total
    ensures Within(rs, total)
  {
    forall i | 0 <= i < |rs| ensures rs[i].end <= total {
      assert In(rs[i].end - 1, rs[i]);
      assert Covers(rs, rs[i].end - 1);
    }
  }

  lemma DisjointMeansUncovered(rs: seq<FileRange>, r: FileRange)
    ensures DisjointFrom(rs, r) <==> forall x: nat :: In(x, r) ==> !Covers(rs, x)
  {
    if DisjointFrom(rs, r) {
      forall x: nat | In(x, r) ensures !Covers(rs, x) { }
    }
    if forall x: nat :: In(x, r) ==> !Covers(rs, x) {
      forall i | 0 <= i < |rs| ensures !Overlaps(r, rs[i]) {
        var low := if r.start < rs[i].start then rs[i].start else r.start;
        if Overlaps(r, rs[i]) {
          assert In(low, r) && In(low, rs[i]);
          assert Covers(rs, low);
        }
      }
    }
  }

  // ---------- missing_ranges: the complement of the completed list ----------

  predicate AcceptedCoverage(total: nat, completed: seq<FileRange>) {
    |completed| <= MAX_COMPLETED_RANGES &&
    (forall i :: 0 <= i < |completed| ==>
      completed[i].end <= total && (i > 0 ==> completed[i - 1].end < completed[i].start))
  }

  lemma AcceptedIsCanonical(total: nat, completed: seq<FileRange>)
    ensures AcceptedCoverage(total, completed)
      <==> |completed| <= MAX_COMPLETED_RANGES && Canonical(completed) && Within(completed, total)
  {
    if AcceptedCoverage(total, completed) {
      forall i, j | 0 <= i < j < |completed| ensures completed[i].end < completed[j].start {
        StepwiseIsCanonical(completed, i, j);
      }
    }
  }

  lemma {:induction false} StepwiseIsCanonical(rs: seq<FileRange>, i: nat, j: nat)
    requires forall k :: 0 < k < |rs| ==> rs[k - 1].end < rs[k].start
    requires i < j < |rs|
    ensures rs[i].end < rs[j].start
  {
    if i + 1 < j { StepwiseIsCanonical(rs, i, j - 1); }
  }

  /** The gaps before `cursor` of the first `k` completed ranges. */
  ghost predicate GapsUpTo(missing: seq<FileRange>, completed: seq<FileRange>, cursor: nat) {
    Ordered(missing) && Within(missing, cursor) &&
    (forall x: nat :: x < cursor ==> (Covers(missing, x) <==> !Covers(completed, x)))
  }

  method MissingRanges(total: nat, completed: seq<FileRange>)
    returns (result: Result<seq<FileRange>, PlanError>)
    ensures result.Ok? <==> AcceptedCoverage(total, completed)
    ensures result.Err? ==> result.error == InvalidCompletedCoverage
    ensures result.Ok? ==>
      Ordered(result.value) && Within(result.value, total) && |result.value| <= |completed| + 1 &&
      (forall x: nat :: Covers(result.value, x) <==> x < total && !Covers(completed, x))
  {
    if |completed| > MAX_COMPLETED_RANGES { return Err(InvalidCompletedCoverage); }
    if total == 0 {
      if completed == [] { return Ok([]); }
      assert completed[0].end > total;
      return Err(InvalidCompletedCoverage);
    }
    var missing: seq<FileRange> := [];
    var cursor := 0;
    for k := 0 to |completed|
      invariant cursor <= total
      invariant k > 0 ==> cursor == completed[k - 1].end
      invariant k == 0 ==> cursor == 0
      invariant AcceptedCoverage(total, completed[..k])
      invariant |missing| <= k && Within(completed[..k], cursor)
      invariant GapsUpTo(missing, completed[..k], cursor)
    {
      var range := completed[k];
      if (k > 0 && range.start <= cursor) || range.end > total {
        return Err(InvalidCompletedCoverage);
      }
      ghost var before := missing;
      if range.start > cursor {
        missing := missing + [Span(cursor, range.start)];
      }
      GapStep(before, completed[..k], cursor, range, missing);
      assert completed[..k + 1] == completed[..k] + [range];
      cursor := range.end;
    }
    assert completed[..|completed|] == completed;
    ghost var before := missing;
    if cursor < total {
      missing := missing + [Span(cursor, total)];
    }
    AcceptedIsCanonical(total, completed);
    GapEnd(before, completed, cursor, total, missing);
    return Ok(missing);
  }

  lemma GapStep(missing: seq<FileRange>, done: seq<FileRange>, cursor: nat, range: FileRange, next: seq<FileRange>)
    requires GapsUpTo(missing, done, cursor) && cursor <= range.start && Within(done, cursor)
    requires next == if range.start > cursor then missing + [Span(cursor, range.start)] else missing
    ensures GapsUpTo(next, done + [range], range.end)
  {
    forall x: nat | x < range.end ensures Covers(next, x) <==> !Covers(done + [range], x) {
      CoversAppend(done, range, x);
      if range.start > cursor { CoversAppend(missing, Span(cursor, range.start), x); }
    }
  }

  lemma GapEnd(missing: seq<FileRange>, done: seq<FileRange>, cursor: nat, total: nat, next: seq<FileRange>)
    requires GapsUpTo(missing, done, cursor) && cursor <= total && Canonical(done)
    requires if done == [] then cursor == 0 else cursor == done[|done| - 1].end
    requires next == if cursor < total then missing + [Span(cursor, total)] else missing
    ensures Ordered(next) && Within(next, total)
    ensures forall x: nat :: Covers(next, x) <==> x < total && !Covers(done, x)
  {
    forall x: nat ensures Covers(next, x) <==> x < total && !Covers(done, x) {
      if cursor < total { CoversAppend(missing, Span(cursor, total), x); }
    }
  }
}
