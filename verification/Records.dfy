/** The persisted form of a task record and its strict reader. */
module Records {
  import opened Ranges
  import opened TaskRecord
  import opened Network
  import Storage
  import Timestamps

  type Byte = Storage.Byte

  const DIGEST_BYTES: nat := 32

  // ---------- Digests in hexadecimal ----------

  predicate IsHex(c: char) { '0' <= c <= '9' || 'a' <= c <= 'f' || 'A' <= c <= 'F' }

  function HexValue(c: char): (v: nat)
    requires IsHex(c)
    ensures v < 16
  {
    if '0' <= c <= '9' then c as int - '0' as int
    else if 'a' <= c <= 'f' then c as int - 'a' as int + 10
    else c as int - 'A' as int + 10
  }

  /** Sixteen digits, the letters in both cases with the same value. */
  lemma HexDigitsExactly(c: char, v: nat)
    ensures IsHex(c) && HexValue(c) == v <==>
      v < 16 && (c == "0123456789abcdef"[v] || c == "0123456789ABCDEF"[v])
  { }

  function HexDigit(v: nat): char
    requires v < 16
  {
    if v < 10 then ('0' as int + v) as char else ('a' as int + v - 10) as char
  }

  function ToHex(bytes: seq<Byte>): (s: string)
    ensures |s| == 2 * |bytes|
    ensures forall i :: 0 <= i < |s| ==> IsHex(s[i])
  {
    if bytes == [] then "" else [HexDigit(bytes[0] / 16), HexDigit(bytes[0] % 16)] + ToHex(bytes[1..])
  }

  predicate HexText(s: string) { |s| == 2 * DIGEST_BYTES && forall i :: 0 <= i < |s| ==> IsHex(s[i]) }

  function ByteAt(s: string, i: nat): Byte
    requires 2 * i + 1 < |s| && IsHex(s[2 * i]) && IsHex(s[2 * i + 1])
  {
    HexValue(s[2 * i]) * 16 + HexValue(s[2 * i + 1])
  }

  function ParsedDigest(s: string): Option<seq<Byte>> {
    if !HexText(s) then None
    else Some(seq(DIGEST_BYTES, (i: nat) requires i < DIGEST_BYTES => ByteAt(s, i)))
  }

  method ParseDigest(value: string) returns (digest: Option<seq<Byte>>)
    ensures digest == ParsedDigest(value)
  {
    if |value| != 2 * DIGEST_BYTES || exists i :: 0 <= i < |value| && !IsHex(value[i]) { return None; }
    var bytes := new Byte[DIGEST_BYTES];
    for index := 0 to DIGEST_BYTES
      invariant forall i :: 0 <= i < index ==> bytes[i] == ByteAt(value, i)
    {
      bytes[index] := HexValue(value[2 * index]) * 16 + HexValue(value[2 * index + 1]);
    }
    assert bytes[..] == ParsedDigest(value).value;
    return Some(bytes[..]);
  }

  function Lowered(s: string): string { seq(|s|, (i: nat) requires i < |s| => LowerAscii(s[i])) }

  lemma {:induction false} HexAt(bytes: seq<Byte>, i: nat)
    requires i < |bytes|
    ensures ToHex(bytes)[2 * i] == HexDigit(bytes[i] / 16) && ToHex(bytes)[2 * i + 1] == HexDigit(bytes[i] % 16)
  {
    if i > 0 { HexAt(bytes[1..], i - 1); }
  }

  lemma HexDigitReads(v: nat)
    requires v < 16
    ensures IsHex(HexDigit(v)) && HexValue(HexDigit(v)) == v
  { }

  lemma HexDigitLowers(c: char)
    requires IsHex(c)
    ensures HexDigit(HexValue(c)) == LowerAscii(c)
  {
    assert HexDigit(HexValue(c)) as int == LowerAscii(c) as int;
  }

  lemma ByteReads(bytes: seq<Byte>, i: nat)
    requires i < |bytes|
    ensures ByteAt(ToHex(bytes), i) == bytes[i]
  {
    HexAt(bytes, i);
    HexDigitReads(bytes[i] / 16);
    HexDigitReads(bytes[i] % 16);
  }

  /** Printing a digest and parsing it is the identity. */
  lemma DigestRoundTrip(bytes: seq<Byte>)
    requires |bytes| == DIGEST_BYTES
    ensures ParsedDigest(ToHex(bytes)) == Some(bytes)
  {
    var parsed := ParsedDigest(ToHex(bytes)).value;
    forall i | 0 <= i < DIGEST_BYTES ensures parsed[i] == bytes[i] { ByteReads(bytes, i); }
    assert parsed == bytes;
  }

  lemma Nibbles(high: nat, low: nat)
    requires high < 16 && low < 16
    ensures (high * 16 + low) / 16 == high && (high * 16 + low) % 16 == low
  { }

  lemma BytePrints(s: string, i: nat)
    requires HexText(s) && i < DIGEST_BYTES
    ensures HexDigit(ByteAt(s, i) / 16) == LowerAscii(s[2 * i])
    ensures HexDigit(ByteAt(s, i) % 16) == LowerAscii(s[2 * i + 1])
  {
    Nibbles(HexValue(s[2 * i]), HexValue(s[2 * i + 1]));
    HexDigitLowers(s[2 * i]);
    HexDigitLowers(s[2 * i + 1]);
  }

  /** A parsed digest prints its own text in lower case. */
  lemma DigestPrintsBack(s: string)
    requires ParsedDigest(s).Some?
    ensures |ParsedDigest(s).value| == DIGEST_BYTES && ToHex(ParsedDigest(s).value) == Lowered(s)
  {
    var bytes := ParsedDigest(s).value;
    forall i | 0 <= i < DIGEST_BYTES
      ensures ToHex(bytes)[2 * i] == Lowered(s)[2 * i] && ToHex(bytes)[2 * i + 1] == Lowered(s)[2 * i + 1]
    {
      HexAt(bytes, i);
      BytePrints(s, i);
    }
    PairwiseEqual(ToHex(bytes), Lowered(s));
  }

  lemma PairwiseEqual(a: string, b: string)
    requires |a| == |b| == 2 * DIGEST_BYTES
    requires forall i :: 0 <= i < DIGEST_BYTES ==> a[2 * i] == b[2 * i] && a[2 * i + 1] == b[2 * i + 1]
    ensures a == b
  {
    forall k | 0 <= k < |a| ensures a[k] == b[k] {
      var i := k / 2;
      assert a[2 * i] == b[2 * i] && a[2 * i + 1] == b[2 * i + 1];
    }
  }

  // ---------- Records ----------

  datatype RawValidators = RawValidators(etag: Option<string>, lastModified: Option<string>)

  datatype RawRange = RawRange(start: nat, end: nat)

  datatype Raw = Raw(
    expectedSha256: Option<string>,
    needsSession: bool,
    taskId: string,
    revision: nat,
    state: TaskState,
    originalUrl: string,
    finalUrl: Option<string>,
    expectedSize: Option<nat>,
    validators: RawValidators,
    mode: Mode,
    destination: string,
    displayName: string,
    workers: nat,
    partialPath: Option<string>,
    finalPath: Option<string>,
    ranges: seq<RawRange>,
    createdAt: nat,
    updatedAt: nat)

  function PrintedRanges(ranges: seq<FileRange>): seq<RawRange> {
    seq(|ranges|, (i: nat) requires i < |ranges| => RawRange(ranges[i].start, ranges[i].end))
  }

  function PrintedValidators(v: Validators): RawValidators {
    RawValidators(if v.etag.Some? then Some(FormatEtag(v.etag.value)) else None, v.lastModified)
  }

  /** `PersistedTask::from_task`. */
  function Printed(t: Task): Raw {
    var r := t.resource;
    Raw(if t.expectedSha256.Some? then Some(ToHex(t.expectedSha256.value)) else None,
      t.needsSession, t.id, t.revision, t.state, t.originalUrl,
      if r.Some? then Some(r.value.finalUrl) else None, ExpectedSize(t),
      PrintedValidators(if r.Some? then r.value.validators else Validators(None, None)),
      if r.Some? then r.value.mode else Pending,
      t.destination, t.displayName, t.workers, t.partialPath, t.finalPath, PrintedRanges(t.ranges),
      t.createdAt, t.updatedAt)
  }

  function ReadValidators(env: Env, raw: RawValidators): Result<Validators, StateError> {
    if raw.etag.Some? && ParseEtag(raw.etag.value).None? then Err(InvalidValidator) else
    var v := Validators(if raw.etag.Some? then ParseEtag(raw.etag.value) else None, raw.lastModified);
    if ValidValidators(env, v) then Ok(v) else Err(InvalidValidator)
  }

  function ReadResource(env: Env, raw: Raw, v: Validators): Result<Option<Resource>, StateError> {
    if raw.mode == Pending && raw.finalUrl.None? then
      if raw.expectedSize.Some? || v.etag.Some? || v.lastModified.Some? then Err(InvalidResource) else Ok(None)
    else if raw.mode == Pending || raw.finalUrl.None? then Err(InvalidResource)
    else if !CanonicalUrl(env, raw.finalUrl.value) then Err(InvalidUrl)
    else match NewResource(env, Resource(raw.finalUrl.value, raw.expectedSize, v, raw.mode))
      case Ok(r) => Ok(Some(r))
      case Err(e) => Err(e)
  }

  predicate ReadableRanges(raw: seq<RawRange>) { forall i :: 0 <= i < |raw| ==> raw[i].start < raw[i].end < U64_LIMIT }

  function ReadRanges(raw: seq<RawRange>): seq<FileRange>
    requires ReadableRanges(raw)
  {
    seq(|raw|, (i: nat) requires i < |raw| => Span(raw[i].start, raw[i].end))
  }

  /** `task_from_persisted`; `isId` is the canonical identifier syntax. */
  function Read(env: Env, isId: string -> bool, raw: Raw): Result<Task, StateError> {
    if !isId(raw.taskId) then Err(InvalidTaskId)
    else if raw.revision == 0 then Err(InvalidRevision)
    else if raw.createdAt > Timestamps.MAX_TIMESTAMP_MILLIS || raw.updatedAt > Timestamps.MAX_TIMESTAMP_MILLIS
      || raw.updatedAt < raw.createdAt then Err(InvalidTimestamp)
    else if !CanonicalUrl(env, raw.originalUrl) then Err(InvalidUrl)
    else if !env.validPath(raw.destination) then Err(InvalidDestination)
    else if env.sanitize(raw.displayName) != raw.displayName then Err(InvalidFilename) else
    var validators := ReadValidators(env, raw.validators);
    if validators.Err? then Err(validators.error) else
    var resource := ReadResource(env, raw, validators.value);
    if resource.Err? then Err(resource.error)
    else if raw.partialPath.Some? && !env.confinedPartial(raw.partialPath.value, raw.destination) then
      Err(InvalidPartialPath)
    else if raw.finalPath.Some? && !env.confinedFinal(raw.finalPath.value, raw.destination) then Err(InvalidFinalPath)
    else if !ReadableRanges(raw.ranges) then Err(InvalidCompletedRanges)
    else if !ValidRanges(ReadRanges(raw.ranges), if resource.value.Some? then resource.value.value.expectedSize
      else None)
    then Err(InvalidCompletedRanges) else
    var digest := if raw.expectedSha256.Some? then ParsedDigest(raw.expectedSha256.value) else None;
    if raw.expectedSha256.Some? && digest.None? then Err(InvalidChecksum) else
    var t := Task(raw.taskId, raw.revision, raw.state, raw.originalUrl, raw.needsSession, digest, resource.value,
      raw.destination, raw.displayName, raw.workers, raw.partialPath, raw.finalPath, ReadRanges(raw.ranges),
      raw.createdAt, raw.updatedAt);
    if ValidateTask(env, t).Some? then Err(ValidateTask(env, t).value) else Ok(t)
  }

  /** What the field types of a record guarantee. */
  predicate Typed(isId: string -> bool, t: Task) {
    && isId(t.id)
    && t.createdAt <= Timestamps.MAX_TIMESTAMP_MILLIS && t.updatedAt <= Timestamps.MAX_TIMESTAMP_MILLIS
    && (t.expectedSha256.Some? ==> |t.expectedSha256.value| == DIGEST_BYTES)
    && TypedRanges(t.ranges)
  }

  predicate TypedRanges(ranges: seq<FileRange>) { forall i :: 0 <= i < |ranges| ==> ranges[i].end < U64_LIMIT }

  // ---------- Round trips ----------

  lemma ValidTagsRoundTrip(tag: EntityTag)
    requires ParseEtag(FormatEtag(tag)).Some?
    ensures ParseEtag(FormatEtag(tag)) == Some(tag)
  {
    var text := FormatEtag(tag);
    var quoted := "\"" + tag.opaqueTag + "\"";
    if tag.weak { assert text == "W/" + quoted && text[2..] == quoted; }
    else { assert text == quoted && text[0] == '"'; }
    assert quoted[1..|quoted| - 1] == tag.opaqueTag;
  }

  lemma ValidatorsRoundTrip(env: Env, v: Validators)
    requires ValidValidators(env, v)
    ensures ReadValidators(env, PrintedValidators(v)) == Ok(v)
  {
    if v.etag.Some? { ValidTagsRoundTrip(v.etag.value); }
  }

  lemma RangesRoundTrip(ranges: seq<FileRange>)
    requires forall i :: 0 <= i < |ranges| ==> ranges[i].end < U64_LIMIT
    ensures ReadableRanges(PrintedRanges(ranges)) && ReadRanges(PrintedRanges(ranges)) == ranges
  {
    var raw := PrintedRanges(ranges);
    assert forall i :: 0 <= i < |ranges| ==> raw[i].start < raw[i].end;
    assert forall i :: 0 <= i < |ranges| ==> ReadRanges(raw)[i] == ranges[i];
  }

  lemma ResourceRoundTrip(env: Env, t: Task)
    requires t.resource.Some? ==> NewResource(env, t.resource.value).Ok?
    ensures var v := if t.resource.Some? then t.resource.value.validators else Validators(None, None);
      && ReadValidators(env, Printed(t).validators) == Ok(v)
      && (t.resource.Some? && !CanonicalUrl(env, t.resource.value.finalUrl) ==>
          ReadResource(env, Printed(t), v) == Err(InvalidUrl))
      && ((t.resource.Some? ==> CanonicalUrl(env, t.resource.value.finalUrl)) ==>
            ReadResource(env, Printed(t), v) == Ok(t.resource))
  {
    ValidatorsRoundTrip(env, if t.resource.Some? then t.resource.value.validators else Validators(None, None));
  }

  /** A valid record reads back as itself exactly when its resource carries a
      canonical URL, which validation alone does not check. */
  lemma RecordRoundTrip(env: Env, isId: string -> bool, t: Task)
    requires ValidateTask(env, t).None? && Typed(isId, t)
    ensures Read(env, isId, Printed(t)) == Ok(t) <==>
      (t.resource.Some? ==> CanonicalUrl(env, t.resource.value.finalUrl))
  {
    ResourceRoundTrip(env, t);
    RangesRoundTrip(t.ranges);
    if t.expectedSha256.Some? { DigestRoundTrip(t.expectedSha256.value); }
  }

  /** What the argument types of the mutators guarantee. */
  predicate TypedStep(s: Step) {
    && s.now <= Timestamps.MAX_TIMESTAMP_MILLIS
    && (s.mutation.Refresh? && s.mutation.durable.Ok? ==> TypedRanges(s.mutation.durable.value))
  }

  lemma MutateKeepsTyped(env: Env, isId: string -> bool, t: Task, s: Step)
    requires Typed(isId, t) && TypedStep(s) && Mutate(env, t, s.mutation, s.now).Ok?
    ensures Typed(isId, Mutate(env, t, s.mutation, s.now).value)
  { }

  lemma {:induction false} RunKeepsTyped(env: Env, isId: string -> bool, t: Task, steps: seq<Step>)
    requires Typed(isId, t) && forall i :: 0 <= i < |steps| ==> TypedStep(steps[i])
    ensures Typed(isId, RunMutations(env, t, steps))
    decreases |steps|
  {
    if steps != [] {
      var m := Mutate(env, t, steps[0].mutation, steps[0].now);
      if m.Ok? { MutateKeepsTyped(env, isId, t, steps[0]); }
      RunKeepsTyped(env, isId, if m.Ok? then m.value else t, steps[1..]);
    }
  }

  /** Every record the mutators can reach reads back as itself exactly when it is
      valid, and so always unless a refresh shrank the coverage under validation. */
  lemma ReachableRecordsReadBack(env: Env, isId: string -> bool, t: Task, steps: seq<Step>)
    requires Sound(env, t) && Typed(isId, t) && AdmissibleRun(env, steps)
    requires forall i :: 0 <= i < |steps| ==> TypedStep(steps[i])
    ensures var after := RunMutations(env, t, steps);
      && (Read(env, isId, Printed(after)) == Ok(after) <==> ValidateTask(env, after).None?)
      && (Settled(env, t, steps) ==> Read(env, isId, Printed(after)) == Ok(after))
  {
    RunKeepsTyped(env, isId, t, steps);
    RunKeepsSound(env, t, steps);
    RunStaysSoundExactly(env, t, steps);
    ReadsBackWhenValid(env, isId, RunMutations(env, t, steps));
  }

  lemma ReadsBackWhenValid(env: Env, isId: string -> bool, t: Task)
    requires OnlyCoverageLost(env, t) && Typed(isId, t)
    ensures Read(env, isId, Printed(t)) == Ok(t) <==> ValidateTask(env, t).None?
  {
    if ValidateTask(env, t).None? { RecordRoundTrip(env, isId, t); }
  }

  /** Only printed records are accepted: whatever reads back prints to the same
      text, up to the letter case of the digest. */
  lemma ReadRecordsPrintBack(env: Env, isId: string -> bool, raw: Raw)
    requires Read(env, isId, raw).Ok?
    ensures var t := Read(env, isId, raw).value;
      && ValidateTask(env, t).None? && Typed(isId, t)
      && Printed(t) == raw.(expectedSha256 := if raw.expectedSha256.Some? then Some(Lowered(raw.expectedSha256.value))
          else None)
  {
    if raw.expectedSha256.Some? { DigestPrintsBack(raw.expectedSha256.value); }
    RangesPrintBack(raw.ranges);
    ResourcePrintsBack(env, raw);
  }

  lemma RangesPrintBack(raw: seq<RawRange>)
    requires ReadableRanges(raw)
    ensures PrintedRanges(ReadRanges(raw)) == raw
  { }

  lemma ResourcePrintsBack(env: Env, raw: Raw)
    requires ReadValidators(env, raw.validators).Ok?
    requires ReadResource(env, raw, ReadValidators(env, raw.validators).value).Ok?
    ensures var r := ReadResource(env, raw, ReadValidators(env, raw.validators).value).value;
      && (if r.Some? then Some(r.value.finalUrl) else None) == raw.finalUrl
      && (if r.Some? then r.value.mode else Pending) == raw.mode
      && (if r.Some? then r.value.expectedSize else None) == raw.expectedSize
      && PrintedValidators(if r.Some? then r.value.validators else Validators(None, None)) == raw.validators
  {
    if raw.validators.etag.Some? { ParsedEtagPrintsBack(raw.validators.etag.value); }
  }
}
